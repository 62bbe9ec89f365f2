/** The end-to-end behaviour with the component's default settings: a sustained
    60 fps against a 90 fps target yields exactly one decrease, two seconds after
    the low rate is first seen, and the direction then returns to Hold. */
module Scenario {
  import opened Base
  import opened Controller
  import Runs
  import Lifecycle

  /** A non-XR platform with no application frame-rate cap. */
  const Desktop: Lifecycle.Platform := Lifecycle.Platform(false, 0.0, -1)

  /** Five sampled frames of a two-second stretch at 60 fps, half a second apart,
      starting when warm-up ends. The frames in between are not shown: each of them
      would add another 60 fps sample without changing the outcome. */
  const LowFrames: seq<Frame> := [Frame(3.0, 1.0 / 60.0), Frame(3.5, 1.0 / 60.0), Frame(4.0, 1.0 / 60.0),
                                  Frame(4.5, 1.0 / 60.0), Frame(5.0, 1.0 / 60.0)]

  /** Every sample in the window is 60 fps. */
  predicate AllSixty(w: seq<real>) {
    forall k :: 0 <= k < |w| ==> w[k] == 60.0
  }

  /** Each low frame comes after warm-up and carries a 60 fps sample. */
  lemma LowFrame(i: nat)
    requires i < |LowFrames|
    ensures LowFrames[i].now >= 3.0 && LowFrames[i].deltaTime > 0.0
    ensures 1.0 / LowFrames[i].deltaTime == 60.0
  {
  }

  /** One of the low frames, taken after warm-up by a working instance with a
      90 fps target whose window holds only 60 fps samples, asks to go down. */
  lemma LowFrameWantsDown(q: Quality, s0: State, l0: int, r: seq<Step>, i: nat)
    requires Runs.IsRun(Defaults, q, s0, l0, LowFrames, r)
    requires i < |r|
    requires var s := Runs.StateBefore(s0, r, i);
      s.working && s.startTime == 0.0 && s.targetFramerate == 90.0 && |s.window| == i && AllSixty(s.window)
    ensures r[i].wanted == Some(Down)
    ensures var s := Runs.StateBefore(s0, r, i);
      && r[i].state.working && r[i].state.startTime == 0.0 && r[i].state.targetFramerate == 90.0
      && |r[i].state.window| == i + 1 && AllSixty(r[i].state.window)
  {
    var s := Runs.StateBefore(s0, r, i);
    Runs.StepSample(Defaults, q, s0, l0, LowFrames, r, i);
    LowFrame(i);
    assert !Skipped(Defaults, s, LowFrames[i]);
    var w := r[i].state.window;
    assert w == s.window + [60.0];
    assert forall k :: 0 <= k < |w| ==> w[k] < 90.0 - 2.0;
    LowWindowWantsDown(w, 90.0, 2.0, 0.5);
  }

  /** The scenario: after warm-up, four low frames within two seconds make no
      request; the fifth, two seconds after the first, makes exactly one decrease,
      which moves the level down by one, raises the event and resets the direction. */
  lemma SustainedLowRateDecreasesOnce(q: Quality, e: Lifecycle.Engine, r: seq<Step>)
    requires !e.slotTaken && Lifecycle.LevelKey !in e.prefs && e.level >= 0
    requires q.apply(e.level) == e.level && q.decrease(e.level) == e.level - 1
    requires Runs.IsRun(Defaults, q, Lifecycle.Enable(Defaults, Initial, e, 0.0, Desktop, q).state,
                        e.level, LowFrames, r)
    ensures forall i :: 0 <= i < 4 ==> r[i].wanted == Some(Down) && r[i].request.None?
    ensures r[4].request == Some(Down)
    ensures r[4].level == e.level - 1 && r[4].notice == Some(Notice(e.level, e.level - 1))
    ensures r[4].state.previousResult == Hold
  {
    var s0 := Lifecycle.Enable(Defaults, Initial, e, 0.0, Desktop, q).state;
    var l := e.level;
    assert s0.targetFramerate == 90.0 && s0.startTime == 0.0 && s0.working;
    assert s0.window == [] && s0.previousResult == Hold && s0.minimumLevel == FloorSentinel;
    LowFrameWantsDown(q, s0, l, r, 0);
    Runs.StepDebounce(Defaults, q, s0, l, LowFrames, r, 0);
    Runs.StepBounds(Defaults, q, s0, l, LowFrames, r, 0);
    Runs.StepLevel(Defaults, q, s0, l, LowFrames, r, 0);
    assert r[0].state.previousResult == Down && r[0].state.rateChangeStart == 3.0;
    var i := 1;
    while i < 4
      invariant 1 <= i <= 4
      invariant forall m :: 0 <= m < i ==> r[m].wanted == Some(Down) && r[m].request.None?
      invariant r[i - 1].state.previousResult == Down && r[i - 1].state.rateChangeStart == 3.0
      invariant r[i - 1].level == l && r[i - 1].state.minimumLevel == s0.minimumLevel
      invariant r[i - 1].state.working && r[i - 1].state.startTime == 0.0 && r[i - 1].state.targetFramerate == 90.0
      invariant |r[i - 1].state.window| == i && AllSixty(r[i - 1].state.window)
    {
      LowFrameWantsDown(q, s0, l, r, i);
      Runs.StepDebounce(Defaults, q, s0, l, LowFrames, r, i);
      Runs.StepBounds(Defaults, q, s0, l, LowFrames, r, i);
      Runs.StepLevel(Defaults, q, s0, l, LowFrames, r, i);
      i := i + 1;
    }
    LowFrameWantsDown(q, s0, l, r, 4);
    Runs.StepDebounce(Defaults, q, s0, l, LowFrames, r, 4);
    Runs.StepLevel(Defaults, q, s0, l, LowFrames, r, 4);
  }
}
