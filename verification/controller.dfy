/** The per-frame state machine of SimpleAdaptiveQuality (its LateUpdate), as a pure
    step function over an explicit state record. Unity's QualitySettings is an
    oracle that answers with the level after a requested change. */
module Controller {
  import opened Base
  import Smoothing

  /** The inspector-configurable fields. The inspector ranges (60..90, 1..50, 1..10,
      0.05..0.9) are editor hints only; nothing enforces them at run time. */
  datatype Config = Config(
    startupTime: real,
    secondsBeforeChangingQuality: real,
    initialTargetFramerate: real,
    maximumTriesToGoUp: real,
    downFramerateThreshold: real,
    upFramerateThreshold: real)

  /** The field initialisers of the component. */
  const Defaults: Config := Config(3.0, 2.0, 90.0, 5.0, 2.0, 0.5)

  /** float.MaxValue, stored in rateChangeStart after every change attempt. */
  const FloatMax: real := 340282346638528859811704183484516925440.0

  /** Initial floor and ceiling: the sentinels that stand for "not yet discovered". */
  const FloorSentinel: int := -100
  const CeilingSentinel: int := 100

  /** The controller's private fields. previousResult is the direction currently
      desired and rateChangeStart the time it was first seen; previousChange is the
      direction of the last change that moved the level (Hold before any). */
  datatype State = State(
    working: bool,
    targetFramerate: real,
    startTime: real,
    rateChangeStart: real,
    previousResult: Dir,
    minimumLevel: int,
    maximumLevel: int,
    initialLevel: int,
    triedToGoUp: int,
    previousChange: Dir,
    window: seq<real>)

  /** A freshly constructed component, before OnEnable. */
  const Initial: State := State(false, 90.0, 0.0, 0.0, Hold, FloorSentinel, CeilingSentinel, 0, 0, Hold, [])

  /** Unity's QualitySettings seen from the controller: the level reached after
      DecreaseLevel, after IncreaseLevel, and after SetQualityLevel(n). */
  datatype Quality = Quality(decrease: int -> int, increase: int -> int, apply: int -> int)

  /** One LateUpdate call: Time.unscaledTime and Time.unscaledDeltaTime. */
  datatype Frame = Frame(now: real, deltaTime: real)

  /** The qualityLevelChanged(previous, current) event. */
  datatype Notice = Notice(previous: int, current: int)

  /** What one tick did: the new state and level, the direction it computed (None
      when the tick was skipped), the change it asked QualitySettings for, if any,
      and the event it raised, if any. */
  datatype Step = Step(state: State, level: int, wanted: Option<Dir>, request: Option<Dir>, notice: Option<Notice>)

  /** Threshold classification of the smoothed rate; the down test is made first. */
  function Classify(rate: real, target: real, downThreshold: real, upThreshold: real): (d: Dir)
    ensures d == Down <==> rate < target - downThreshold
    ensures d == Up <==> target - downThreshold <= rate && rate > target - upThreshold
    ensures d == Hold <==> target - downThreshold <= rate <= target - upThreshold
  {
    if rate < target - downThreshold then Down
    else if rate > target - upThreshold then Up
    else Hold
  }

  /** Classification is monotone in the rate: a higher rate never asks for a lower
      quality than a lower rate does. */
  lemma ClassifyMonotone(r1: real, r2: real, target: real, downThreshold: real, upThreshold: real)
    requires r1 <= r2
    ensures var d1, d2 := Classify(r1, target, downThreshold, upThreshold), Classify(r2, target, downThreshold, upThreshold);
      (d1 == Up ==> d2 == Up) && (d2 == Down ==> d1 == Down)
  {
  }

  /** A window whose samples all lie below the down line asks to go down. */
  lemma LowWindowWantsDown(window: seq<real>, target: real, downThreshold: real, upThreshold: real)
    requires |window| > 0
    requires forall k :: 0 <= k < |window| ==> window[k] < target - downThreshold
    ensures Classify(Smoothing.Mean(window), target, downThreshold, upThreshold) == Down
  {
    Smoothing.MeanBelow(window, target - downThreshold);
  }

  /** With the up line at or above the down line (upThreshold <= downThreshold, as
      the inspector ranges make it), a window whose samples all lie above the up
      line asks to go up. */
  lemma HighWindowWantsUp(window: seq<real>, target: real, downThreshold: real, upThreshold: real)
    requires |window| > 0
    requires upThreshold <= downThreshold
    requires forall k :: 0 <= k < |window| ==> window[k] > target - upThreshold
    ensures Classify(Smoothing.Mean(window), target, downThreshold, upThreshold) == Up
  {
    Smoothing.MeanAbove(window, target - upThreshold);
  }

  /** The bound and budget guard in front of a change in direction d. */
  predicate Allowed(c: Config, s: State, d: Dir, level: int) {
    || (d == Down && level > s.minimumLevel)
    || (d == Up && level < s.maximumLevel && (s.triedToGoUp as real) < c.maximumTriesToGoUp)
  }

  /** The direction d, seen at time now, has been desired for the full stability
      delay. A direction that differs from previousResult is a flip and restarts the
      clock at now. */
  predicate Settled(c: Config, s: State, d: Dir, now: real) {
    now - (if d == s.previousResult then s.rateChangeStart else now) >= c.secondsBeforeChangingQuality
  }

  /** The attempt part of LateUpdate, on the state after the direction update. */
  function Attempt(c: Config, s: State, d: Dir, now: real, level: int, q: Quality): (r: Step)
    ensures r.wanted == Some(d)
    ensures r.request.Some? <==> now - s.rateChangeStart >= c.secondsBeforeChangingQuality && Allowed(c, s, d, level)
    ensures r.request.None? ==> r.state == s && r.level == level && r.notice.None?
    ensures r.request.Some? ==> r.request.value == d
    ensures r.request.Some? ==> r.state.previousResult == Hold && r.state.rateChangeStart == FloatMax
    ensures r.request == Some(Down) ==> r.level == q.decrease(level)
    ensures r.request == Some(Up) ==> r.level == q.increase(level)
    ensures r.notice.Some? <==> r.level != level
    ensures r.notice.Some? ==> r.notice.value == Notice(level, r.level)
    ensures r.state.minimumLevel == (if r.request == Some(Down) && r.level == level then level else s.minimumLevel)
    ensures r.state.maximumLevel == (if r.request == Some(Up) && r.level == level then level else s.maximumLevel)
    ensures r.state.previousChange == (if r.notice.Some? then d else s.previousChange)
    ensures r.state.triedToGoUp
      == s.triedToGoUp + (if r.request == Some(Up) && r.notice.Some? && s.previousChange != Up then 1 else 0)
    ensures r.state.working == s.working && r.state.startTime == s.startTime
    ensures r.state.targetFramerate == s.targetFramerate && r.state.initialLevel == s.initialLevel
    ensures r.state.window == s.window
  {
    if now - s.rateChangeStart < c.secondsBeforeChangingQuality then
      Step(s, level, Some(d), None, None)
    else if d == Down && level > s.minimumLevel then
      var reset := s.(previousResult := Hold, rateChangeStart := FloatMax);
      var newLevel := q.decrease(level);
      if newLevel == level then
        Step(reset.(minimumLevel := level), level, Some(d), Some(Down), None)
      else
        Step(reset.(previousChange := Down), newLevel, Some(d), Some(Down), Some(Notice(level, newLevel)))
    else if d == Up && level < s.maximumLevel && (s.triedToGoUp as real) < c.maximumTriesToGoUp then
      var reset := s.(previousResult := Hold, rateChangeStart := FloatMax);
      var newLevel := q.increase(level);
      if newLevel == level then
        Step(reset.(maximumLevel := level), level, Some(d), Some(Up), None)
      else
        var tried := if s.previousChange != Up then s.triedToGoUp + 1 else s.triedToGoUp;
        Step(reset.(triedToGoUp := tried, previousChange := Up), newLevel, Some(d), Some(Up), Some(Notice(level, newLevel)))
    else
      Step(s, level, Some(d), None, None)
  }

  /** A tick is skipped on an instance that lost the single-instance race, and
      during the warm-up period after startTime. */
  predicate Skipped(c: Config, s: State, f: Frame) {
    !s.working || f.now - s.startTime < c.startupTime
  }

  /** LateUpdate: one frame of the controller at the current quality level. */
  function Tick(c: Config, s: State, level: int, f: Frame, q: Quality): (r: Step)
    requires Skipped(c, s, f) || f.deltaTime > 0.0
    // skipped ticks change nothing at all
    ensures Skipped(c, s, f) <==> r.wanted.None?
    ensures Skipped(c, s, f) ==> r == Step(s, level, None, None, None)
    // every other tick pushes one sample and classifies the mean of the window
    ensures r.wanted.Some? ==> r.state.window == Smoothing.Push(s.window, 1.0 / f.deltaTime)
    ensures r.wanted.Some? ==> r.wanted.value == Classify(Smoothing.Mean(r.state.window),
      s.targetFramerate, c.downFramerateThreshold, c.upFramerateThreshold)
    // debounce: a request needs a settled, allowed, non-hold direction, and resets the clock
    ensures r.request.Some? <==>
      r.wanted.Some? && r.wanted.value != Hold && Settled(c, s, r.wanted.value, f.now) && Allowed(c, s, r.wanted.value, level)
    ensures r.request.Some? ==> r.request == r.wanted
    ensures r.request.Some? ==> r.state.previousResult == Hold && r.state.rateChangeStart == FloatMax
    ensures r.wanted.Some? && r.request.None? ==> r.state.previousResult == r.wanted.value
    ensures r.wanted.Some? && r.request.None? ==>
      r.state.rateChangeStart == (if r.wanted.value == s.previousResult then s.rateChangeStart else f.now)
    // the level moves only through a request, and every move raises the event
    ensures r.request.None? ==> r.level == level
    ensures r.request == Some(Down) ==> r.level == q.decrease(level)
    ensures r.request == Some(Up) ==> r.level == q.increase(level)
    ensures r.notice.Some? <==> r.level != level
    ensures r.notice.Some? ==> r.notice.value == Notice(level, r.level)
    // floor and ceiling discovery, up budget, last applied change
    ensures r.state.minimumLevel == (if r.request == Some(Down) && r.level == level then level else s.minimumLevel)
    ensures r.state.maximumLevel == (if r.request == Some(Up) && r.level == level then level else s.maximumLevel)
    ensures r.state.triedToGoUp
      == s.triedToGoUp + (if r.request == Some(Up) && r.notice.Some? && s.previousChange != Up then 1 else 0)
    ensures r.state.previousChange == (if r.notice.Some? then r.request.value else s.previousChange)
    ensures r.state.working == s.working && r.state.startTime == s.startTime
    ensures r.state.targetFramerate == s.targetFramerate && r.state.initialLevel == s.initialLevel
  {
    if Skipped(c, s, f) then
      Step(s, level, None, None, None)
    else
      var sampled := Smoothing.Sample(s.window, f.deltaTime);
      var toDo := Classify(sampled.rate, s.targetFramerate, c.downFramerateThreshold, c.upFramerateThreshold);
      var seen := s.(window := sampled.window);
      var debounced := if toDo != s.previousResult then seen.(rateChangeStart := f.now, previousResult := toDo) else seen;
      if toDo == Hold then
        Step(debounced, level, Some(toDo), None, None)
      else
        Attempt(c, debounced, toDo, f.now, level, q)
  }
}
