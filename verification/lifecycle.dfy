/** OnEnable, OnDisable and Start of SimpleAdaptiveQuality: the single-instance
    slot, the target frame rate, and the level persisted in PlayerPrefs. The mutex
    around the slot only serialises these calls, so they are modelled as sequential
    functions over an explicit engine record. */
module Lifecycle {
  import opened Base
  import opened Controller
  import Runs

  /** The PlayerPrefs key of the persisted quality level. */
  const LevelKey: string := "MRQualityLevel"

  /** What OnEnable reads from the platform: XRSettings.enabled,
      XRDevice.refreshRate and Application.targetFrameRate (an int; zero or
      negative means uncapped). */
  datatype Platform = Platform(isXR: bool, xrRefreshRate: real, applicationTargetFrameRate: int)

  /** The process-wide state the component touches besides its own fields: the
      engine's current quality level, PlayerPrefs, and whether the static
      _instance slot is taken. */
  datatype Engine = Engine(level: int, prefs: map<string, int>, slotTaken: bool)

  /** The component and the engine after a lifecycle call. */
  datatype Activation = Activation(state: State, engine: Engine)

  /** The component after Start, and the level-change event it raises, if any. */
  datatype Started = Started(state: State, notice: Option<Notice>)

  /** PlayerPrefs.GetInt(key, default). */
  function GetInt(prefs: map<string, int>, key: string, default: int): (v: int)
    ensures key in prefs ==> v == prefs[key]
    ensures key !in prefs ==> v == default
  {
    if key in prefs then prefs[key] else default
  }

  /** The target frame rate outside the Windows holographic build: an XR refresh
      rate of at least 30 wins; otherwise a positive application cap below the
      configured target replaces it. */
  function ResolveTargetFramerate(initial: real, p: Platform): (t: real)
    ensures p.isXR && p.xrRefreshRate >= 30.0 ==> t == p.xrRefreshRate
    ensures !(p.isXR && p.xrRefreshRate >= 30.0) ==> t <= initial
    ensures (!(p.isXR && p.xrRefreshRate >= 30.0) && 0 < p.applicationTargetFrameRate
             && (p.applicationTargetFrameRate as real) < initial)
            ==> t == p.applicationTargetFrameRate as real
    ensures t == initial || t == p.xrRefreshRate || t == p.applicationTargetFrameRate as real
    ensures (!(p.isXR && p.xrRefreshRate >= 30.0)
             && !(0 < p.applicationTargetFrameRate && (p.applicationTargetFrameRate as real) < initial))
            ==> t == initial
    ensures initial > 0.0 ==> t > 0.0
  {
    var vrRefreshRate := if p.isXR then p.xrRefreshRate else 0.0;
    if vrRefreshRate >= 30.0 then vrRefreshRate
    else if 0 < p.applicationTargetFrameRate && (p.applicationTargetFrameRate as real) < initial then
      p.applicationTargetFrameRate as real
    else initial
  }

  /** OnEnable. A second instance finds the slot taken and becomes inert; the first
      claims the slot, restarts the warm-up clock, resolves the target and restores
      the persisted level. Nothing the controller learned earlier is reset. */
  function Enable(c: Config, s: State, e: Engine, now: real, p: Platform, q: Quality): (a: Activation)
    ensures e.slotTaken ==> !a.state.working && a.engine == e
    ensures e.slotTaken ==> a.state.startTime == s.startTime && a.state.targetFramerate == s.targetFramerate
    ensures e.slotTaken ==> a.state.initialLevel == s.initialLevel
    ensures !e.slotTaken ==> a.state.working && a.engine.slotTaken
    ensures !e.slotTaken ==> a.state.startTime == now
    ensures !e.slotTaken ==> a.state.targetFramerate == ResolveTargetFramerate(c.initialTargetFramerate, p)
    ensures !e.slotTaken ==> a.state.initialLevel == e.level
    ensures !e.slotTaken && LevelKey in e.prefs ==> a.engine.level == q.apply(e.prefs[LevelKey])
    ensures !e.slotTaken && LevelKey !in e.prefs ==> a.engine.level == q.apply(e.level)
    ensures a.engine.prefs == e.prefs
    ensures a.state.window == s.window && a.state.previousResult == s.previousResult
    ensures a.state.rateChangeStart == s.rateChangeStart
    ensures a.state.minimumLevel == s.minimumLevel && a.state.maximumLevel == s.maximumLevel
    ensures a.state.triedToGoUp == s.triedToGoUp && a.state.previousChange == s.previousChange
  {
    if e.slotTaken then
      Activation(s.(working := false), e)
    else
      var claimed := s.(working := true, startTime := now,
                        targetFramerate := ResolveTargetFramerate(c.initialTargetFramerate, p),
                        initialLevel := e.level);
      Activation(claimed, e.(slotTaken := true, level := q.apply(GetInt(e.prefs, LevelKey, e.level))))
  }

  /** OnDisable. Only a working instance persists the level, resets its up budget
      and frees the slot; an instance that lost the race leaves everything alone. */
  function Disable(s: State, e: Engine): (a: Activation)
    ensures !s.working ==> a == Activation(s, e)
    ensures s.working ==> !a.engine.slotTaken && a.engine.level == e.level
    ensures s.working ==> LevelKey in a.engine.prefs && a.engine.prefs[LevelKey] == e.level
    ensures s.working ==> forall k :: k in e.prefs && k != LevelKey ==> k in a.engine.prefs && a.engine.prefs[k] == e.prefs[k]
    ensures s.working ==> a.engine.prefs.Keys == e.prefs.Keys + {LevelKey}
    ensures s.working ==> a.state.triedToGoUp == 0 && a.state == s.(triedToGoUp := a.state.triedToGoUp)
  {
    if !s.working then Activation(s, e)
    else Activation(s.(triedToGoUp := 0), e.(prefs := e.prefs[LevelKey := e.level], slotTaken := false))
  }

  /** Start. A working instance restarts the warm-up clock and announces a level that
      OnEnable's restore moved away from the one it found. */
  function Start(s: State, e: Engine, now: real): (r: Started)
    ensures !s.working ==> r == Started(s, None)
    ensures s.working ==> r.state == s.(startTime := now)
    ensures s.working ==> (r.notice.Some? <==> e.level != s.initialLevel)
    ensures r.notice.Some? ==> r.notice.value == Notice(s.initialLevel, e.level)
  {
    if !s.working then Started(s, None)
    else
      var notice := if e.level != s.initialLevel then Some(Notice(s.initialLevel, e.level)) else None;
      Started(s.(startTime := now), notice)
  }

  /** Round trip through PlayerPrefs: the level saved by OnDisable is the level the
      next OnEnable restores, whenever QualitySettings accepts it as is. */
  lemma PersistRoundTrip(c: Config, s: State, e: Engine, now: real, p: Platform, q: Quality)
    requires s.working
    requires q.apply(e.level) == e.level
    ensures var off := Disable(s, e);
      var on := Enable(c, off.state, off.engine, now, p, q);
      on.state.working && on.engine.level == e.level
  {
  }

  /** Single instance: while one instance holds the slot, another one that is
      enabled stays inert for every frame it is ticked: no request, no event, no
      change of level or state. */
  lemma SecondInstanceStaysInert(c: Config, q: Quality, s: State, e: Engine, now: real, p: Platform,
                                 l0: int, frames: seq<Frame>, r: seq<Step>)
    requires e.slotTaken
    requires Runs.IsRun(c, q, Enable(c, s, e, now, p, q).state, l0, frames, r)
    ensures forall i :: 0 <= i < |r| ==> r[i] == Step(Enable(c, s, e, now, p, q).state, l0, None, None, None)
  {
    forall i | 0 <= i < |r|
      ensures r[i] == Step(Enable(c, s, e, now, p, q).state, l0, None, None, None)
    {
      Runs.InertStaysInert(c, q, Enable(c, s, e, now, p, q).state, l0, frames, r, i);
    }
  }

  /** OnEnable followed by Start raises the event exactly when restoring the
      persisted level moved the engine away from the level OnEnable found. */
  lemma StartAnnouncesRestore(c: Config, s: State, e: Engine, now: real, later: real, p: Platform, q: Quality)
    requires !e.slotTaken
    ensures var on := Enable(c, s, e, now, p, q);
      var started := Start(on.state, on.engine, later);
      && (started.notice.Some? <==> q.apply(GetInt(e.prefs, LevelKey, e.level)) != e.level)
      && (started.notice.Some? ==> started.notice.value == Notice(e.level, q.apply(GetInt(e.prefs, LevelKey, e.level))))
      && started.state.startTime == later
  {
  }

  /** OnDisable then OnEnable keeps the discovered floor and ceiling and the last
      applied change, and gives the up budget back. */
  lemma ReenableKeepsLearning(c: Config, s: State, e: Engine, now: real, p: Platform, q: Quality)
    requires s.working
    ensures var off := Disable(s, e);
      var on := Enable(c, off.state, off.engine, now, p, q);
      && on.state.minimumLevel == s.minimumLevel && on.state.maximumLevel == s.maximumLevel
      && on.state.previousChange == s.previousChange && on.state.triedToGoUp == 0
  {
  }
}
