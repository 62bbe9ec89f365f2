/** Sequences of LateUpdate calls, and what the controller guarantees over them. */
module Runs {
  import opened Base
  import Smoothing
  import opened Controller

  /** Every frame of a run has a positive delta time. */
  predicate PositiveDeltas(frames: seq<Frame>) {
    forall i :: 0 <= i < |frames| ==> frames[i].deltaTime > 0.0
  }

  /** The state in which the i-th tick of a run starts. */
  function StateBefore(s0: State, r: seq<Step>, i: nat): State
    requires i <= |r|
  {
    if i == 0 then s0 else r[i - 1].state
  }

  /** The quality level at which the i-th tick of a run starts. */
  function LevelBefore(l0: int, r: seq<Step>, i: nat): int
    requires i <= |r|
  {
    if i == 0 then l0 else r[i - 1].level
  }

  /** The i-th step of r is one tick from where the previous step ended. */
  predicate StepOf(c: Config, q: Quality, s0: State, l0: int, frames: seq<Frame>, r: seq<Step>, i: nat)
    requires i < |r| == |frames|
    requires frames[i].deltaTime > 0.0
  {
    r[i] == Tick(c, StateBefore(s0, r, i), LevelBefore(l0, r, i), frames[i], q)
  }

  /** r is the sequence of steps that ticking from state s0 at level l0 through
      frames produces, each tick starting where the previous one ended. */
  predicate IsRun(c: Config, q: Quality, s0: State, l0: int, frames: seq<Frame>, r: seq<Step>) {
    && |r| == |frames|
    && PositiveDeltas(frames)
    && forall i :: 0 <= i < |r| ==> StepOf(c, q, s0, l0, frames, r, i)
  }

  /** Drive the controller through a sequence of frames. */
  function Run(c: Config, q: Quality, s0: State, l0: int, frames: seq<Frame>): (r: seq<Step>)
    requires PositiveDeltas(frames)
    ensures IsRun(c, q, s0, l0, frames, r)
    decreases |frames|
  {
    if frames == [] then []
    else
      assert frames[0].deltaTime > 0.0 && PositiveDeltas(frames[1..]);
      var first := Tick(c, s0, l0, frames[0], q);
      var rest := Run(c, q, first.state, first.level, frames[1..]);
      RunCons(c, q, s0, l0, frames, first, rest);
      [first] + rest
  }

  /** A tick from s0 followed by a run of the remaining frames is a run. */
  lemma RunCons(c: Config, q: Quality, s0: State, l0: int, frames: seq<Frame>, first: Step, rest: seq<Step>)
    requires |frames| > 0 && PositiveDeltas(frames)
    requires first == Tick(c, s0, l0, frames[0], q)
    requires IsRun(c, q, first.state, first.level, frames[1..], rest)
    ensures IsRun(c, q, s0, l0, frames, [first] + rest)
  {
    var r := [first] + rest;
    assert StepOf(c, q, s0, l0, frames, r, 0);
    forall i | 1 <= i < |r|
      ensures StepOf(c, q, s0, l0, frames, r, i)
    {
      StepOfTail(c, q, s0, l0, frames, first, rest, i);
    }
  }

  /** Prepending a step to a run of the remaining frames keeps every later step a
      tick from where the previous one ended. */
  lemma StepOfTail(c: Config, q: Quality, s0: State, l0: int, frames: seq<Frame>, first: Step, rest: seq<Step>, i: nat)
    requires |frames| > 0 && PositiveDeltas(frames)
    requires IsRun(c, q, first.state, first.level, frames[1..], rest)
    requires 1 <= i <= |rest|
    ensures StepOf(c, q, s0, l0, frames, [first] + rest, i)
  {
    var r := [first] + rest;
    assert StepOf(c, q, first.state, first.level, frames[1..], rest, i - 1);
    assert StateBefore(s0, r, i) == StateBefore(first.state, rest, i - 1);
    assert LevelBefore(l0, r, i) == LevelBefore(first.level, rest, i - 1);
    assert frames[i] == frames[1..][i - 1] && r[i] == rest[i - 1];
  }

  /** The i-th step of a run is one tick from where the previous one ended. */
  lemma StepAt(c: Config, q: Quality, s0: State, l0: int, frames: seq<Frame>, r: seq<Step>, i: nat)
    requires IsRun(c, q, s0, l0, frames, r)
    requires i < |r|
    ensures frames[i].deltaTime > 0.0
    ensures r[i] == Tick(c, StateBefore(s0, r, i), LevelBefore(l0, r, i), frames[i], q)
  {
    assert StepOf(c, q, s0, l0, frames, r, i);
  }

  /** One step seen through its effect on the window. */
  lemma StepWindow(c: Config, q: Quality, s0: State, l0: int, frames: seq<Frame>, r: seq<Step>, i: nat)
    requires IsRun(c, q, s0, l0, frames, r)
    requires i < |r|
    ensures |StateBefore(s0, r, i).window| < Smoothing.Capacity ==> |r[i].state.window| < Smoothing.Capacity
  {
    StepAt(c, q, s0, l0, frames, r, i);
  }

  /** One step seen through the sample it takes and the direction it computes. */
  lemma StepSample(c: Config, q: Quality, s0: State, l0: int, frames: seq<Frame>, r: seq<Step>, i: nat)
    requires IsRun(c, q, s0, l0, frames, r)
    requires i < |r|
    ensures frames[i].deltaTime > 0.0
    ensures var s := StateBefore(s0, r, i);
      && (Skipped(c, s, frames[i]) <==> r[i].wanted.None?)
      && (r[i].wanted.Some? ==> r[i].state.window == Smoothing.Push(s.window, 1.0 / frames[i].deltaTime))
      && (r[i].wanted.Some? ==> r[i].wanted.value == Classify(Smoothing.Mean(r[i].state.window),
            s.targetFramerate, c.downFramerateThreshold, c.upFramerateThreshold))
      && r[i].state.working == s.working && r[i].state.startTime == s.startTime
      && r[i].state.targetFramerate == s.targetFramerate
  {
    StepAt(c, q, s0, l0, frames, r, i);
  }

  /** One step of an instance that is not working. */
  lemma StepInert(c: Config, q: Quality, s0: State, l0: int, frames: seq<Frame>, r: seq<Step>, i: nat)
    requires IsRun(c, q, s0, l0, frames, r)
    requires i < |r|
    ensures !StateBefore(s0, r, i).working ==>
      r[i] == Step(StateBefore(s0, r, i), LevelBefore(l0, r, i), None, None, None)
  {
    StepAt(c, q, s0, l0, frames, r, i);
  }

  /** One step seen through the floor and the ceiling. */
  lemma StepBounds(c: Config, q: Quality, s0: State, l0: int, frames: seq<Frame>, r: seq<Step>, i: nat)
    requires IsRun(c, q, s0, l0, frames, r)
    requires i < |r|
    ensures var s, level := StateBefore(s0, r, i), LevelBefore(l0, r, i);
      && (r[i].request == Some(Down) ==> level > s.minimumLevel)
      && (r[i].request == Some(Up) ==> level < s.maximumLevel)
      && r[i].state.minimumLevel == (if r[i].request == Some(Down) && r[i].level == level then level else s.minimumLevel)
      && r[i].state.maximumLevel == (if r[i].request == Some(Up) && r[i].level == level then level else s.maximumLevel)
  {
    StepAt(c, q, s0, l0, frames, r, i);
  }

  /** One step seen through the up budget and the last applied change. */
  lemma StepBudget(c: Config, q: Quality, s0: State, l0: int, frames: seq<Frame>, r: seq<Step>, i: nat)
    requires IsRun(c, q, s0, l0, frames, r)
    requires i < |r|
    ensures var s := StateBefore(s0, r, i);
      && (r[i].request == Some(Up) ==> (s.triedToGoUp as real) < c.maximumTriesToGoUp)
      && (r[i].notice.Some? ==> r[i].request.Some?)
      && r[i].request != Some(Hold)
      && r[i].state.triedToGoUp
         == s.triedToGoUp + (if r[i].request == Some(Up) && r[i].notice.Some? && s.previousChange != Up then 1 else 0)
      && r[i].state.previousChange == (if r[i].notice.Some? then r[i].request.value else s.previousChange)
  {
    StepAt(c, q, s0, l0, frames, r, i);
  }

  /** One step seen through the pending direction and its timestamp. */
  lemma StepDebounce(c: Config, q: Quality, s0: State, l0: int, frames: seq<Frame>, r: seq<Step>, i: nat)
    requires IsRun(c, q, s0, l0, frames, r)
    requires i < |r|
    ensures var s := StateBefore(s0, r, i);
      && (r[i].wanted.None? ==> r[i].state == s && r[i].request.None?)
      && (r[i].request.Some? ==> r[i].wanted == r[i].request && r[i].state.previousResult == Hold)
      && (r[i].request.Some? ==>
            frames[i].now - (if r[i].request.value == s.previousResult then s.rateChangeStart else frames[i].now)
            >= c.secondsBeforeChangingQuality)
      && (r[i].wanted.Some? && r[i].request.None? ==> r[i].state.previousResult == r[i].wanted.value)
      && (r[i].wanted.Some? && r[i].request.None? ==>
            r[i].state.rateChangeStart == (if r[i].wanted.value == s.previousResult then s.rateChangeStart else frames[i].now))
      && (r[i].wanted == Some(Hold) ==> r[i].request.None?)
      && (r[i].request.Some? <==>
            && r[i].wanted.Some? && r[i].wanted.value != Hold
            && Settled(c, s, r[i].wanted.value, frames[i].now)
            && Allowed(c, s, r[i].wanted.value, LevelBefore(l0, r, i)))
  {
    StepAt(c, q, s0, l0, frames, r, i);
  }

  /** One step seen through the quality level and the event. */
  lemma StepLevel(c: Config, q: Quality, s0: State, l0: int, frames: seq<Frame>, r: seq<Step>, i: nat)
    requires IsRun(c, q, s0, l0, frames, r)
    requires i < |r|
    ensures var level := LevelBefore(l0, r, i);
      && r[i].request != Some(Hold)
      && (r[i].request.None? ==> r[i].level == level)
      && (r[i].request == Some(Down) ==> r[i].level == q.decrease(level))
      && (r[i].request == Some(Up) ==> r[i].level == q.increase(level))
      && (r[i].notice.Some? <==> r[i].level != level)
      && (r[i].notice.Some? ==> r[i].notice.value == Notice(level, r[i].level))
  {
    StepAt(c, q, s0, l0, frames, r, i);
  }

  /** Starting from at most Capacity - 1 samples, the window stays that small. */
  lemma {:induction false} WindowStaysBounded(c: Config, q: Quality, s0: State, l0: int, frames: seq<Frame>, r: seq<Step>, i: nat)
    requires IsRun(c, q, s0, l0, frames, r)
    requires |s0.window| < Smoothing.Capacity
    requires i <= |r|
    ensures |StateBefore(s0, r, i).window| < Smoothing.Capacity
  {
    if i > 0 {
      WindowStaysBounded(c, q, s0, l0, frames, r, i - 1);
      StepWindow(c, q, s0, l0, frames, r, i - 1);
    }
  }

  /** An instance that is not working stays exactly as it is: no sample, no
      direction, no request, no event, no level change. */
  lemma {:induction false} InertStaysInert(c: Config, q: Quality, s0: State, l0: int, frames: seq<Frame>, r: seq<Step>, i: nat)
    requires IsRun(c, q, s0, l0, frames, r)
    requires !s0.working
    requires i < |r|
    ensures r[i] == Step(s0, l0, None, None, None)
  {
    if i > 0 {
      InertStaysInert(c, q, s0, l0, frames, r, i - 1);
    }
    StepInert(c, q, s0, l0, frames, r, i);
  }

  /** The discovered floor only ever rises, and the ceiling only ever falls. */
  lemma {:induction false} BoundsTighten(c: Config, q: Quality, s0: State, l0: int, frames: seq<Frame>, r: seq<Step>, a: nat, b: nat)
    requires IsRun(c, q, s0, l0, frames, r)
    requires a <= b <= |r|
    ensures StateBefore(s0, r, b).minimumLevel >= StateBefore(s0, r, a).minimumLevel
    ensures StateBefore(s0, r, b).maximumLevel <= StateBefore(s0, r, a).maximumLevel
  {
    if a < b {
      BoundsTighten(c, q, s0, l0, frames, r, a, b - 1);
      StepBounds(c, q, s0, l0, frames, r, b - 1);
    }
  }

  /** Once a decrease has left the level unchanged at L, no later tick of the run
      asks for a decrease from any level at or below L. */
  lemma FloorSticks(c: Config, q: Quality, s0: State, l0: int, frames: seq<Frame>, r: seq<Step>, i: nat, j: nat)
    requires IsRun(c, q, s0, l0, frames, r)
    requires i < j < |r|
    requires r[i].request == Some(Down) && r[i].level == LevelBefore(l0, r, i)
    requires LevelBefore(l0, r, j) <= r[i].level
    ensures r[j].request != Some(Down)
  {
    StepBounds(c, q, s0, l0, frames, r, i);
    BoundsTighten(c, q, s0, l0, frames, r, i + 1, j);
    StepBounds(c, q, s0, l0, frames, r, j);
  }

  /** Once an increase has left the level unchanged at L, no later tick of the run
      asks for an increase from any level at or above L. */
  lemma CeilingSticks(c: Config, q: Quality, s0: State, l0: int, frames: seq<Frame>, r: seq<Step>, i: nat, j: nat)
    requires IsRun(c, q, s0, l0, frames, r)
    requires i < j < |r|
    requires r[i].request == Some(Up) && r[i].level == LevelBefore(l0, r, i)
    requires LevelBefore(l0, r, j) >= r[i].level
    ensures r[j].request != Some(Up)
  {
    StepBounds(c, q, s0, l0, frames, r, i);
    BoundsTighten(c, q, s0, l0, frames, r, i + 1, j);
    StepBounds(c, q, s0, l0, frames, r, j);
  }

  /** With a budget of at most n tries, a counter that starts within it never
      exceeds n. */
  lemma {:induction false} BudgetNeverExceeded(c: Config, q: Quality, s0: State, l0: int, frames: seq<Frame>, r: seq<Step>, n: int, i: nat)
    requires IsRun(c, q, s0, l0, frames, r)
    requires c.maximumTriesToGoUp <= n as real
    requires s0.triedToGoUp <= n
    requires i <= |r|
    ensures StateBefore(s0, r, i).triedToGoUp <= n
  {
    if i > 0 {
      BudgetNeverExceeded(c, q, s0, l0, frames, r, n, i - 1);
      StepBudget(c, q, s0, l0, frames, r, i - 1);
    }
  }

  /** Once the up budget is spent, the counter stays where it is and no tick asks
      for an increase, however high the frame rate. */
  lemma {:induction false} SpentBudgetBlocksUp(c: Config, q: Quality, s0: State, l0: int, frames: seq<Frame>, r: seq<Step>, i: nat)
    requires IsRun(c, q, s0, l0, frames, r)
    requires s0.triedToGoUp as real >= c.maximumTriesToGoUp
    requires i < |r|
    ensures r[i].request != Some(Up)
    ensures r[i].state.triedToGoUp == s0.triedToGoUp
  {
    if i > 0 {
      SpentBudgetBlocksUp(c, q, s0, l0, frames, r, i - 1);
    }
    StepBudget(c, q, s0, l0, frames, r, i);
  }

  /** After a successful increase, the up counter does not move again until a
      successful decrease: further increases, holds, failed attempts and skipped
      ticks all leave the streak going. */
  lemma {:induction false} UpStreakCostsOneTry(c: Config, q: Quality, s0: State, l0: int, frames: seq<Frame>, r: seq<Step>, i: nat, j: nat)
    requires IsRun(c, q, s0, l0, frames, r)
    requires i <= j < |r|
    requires r[i].request == Some(Up) && r[i].notice.Some?
    requires forall m :: i < m <= j ==> !(r[m].request == Some(Down) && r[m].notice.Some?)
    ensures r[j].state.triedToGoUp == r[i].state.triedToGoUp
    ensures r[j].state.previousChange == Up
  {
    StepBudget(c, q, s0, l0, frames, r, j);
    if i < j {
      UpStreakCostsOneTry(c, q, s0, l0, frames, r, i, j - 1);
    }
  }

  /** Between ticks k and j the controller steadily desired d (or skipped) and made
      no request before j. */
  ghost predicate SteadyBetween(r: seq<Step>, k: nat, j: nat, d: Dir)
    requires k <= j < |r|
  {
    && r[k].wanted == Some(d)
    && (forall m :: k <= m <= j ==> r[m].wanted.None? || r[m].wanted == Some(d))
    && (forall m :: k <= m < j ==> r[m].request.None?)
  }

  /** While a non-hold direction is pending, it was first seen at some tick k,
      rateChangeStart is that tick's time, and the direction has been steady since. */
  lemma {:induction false} PendingDirectionOrigin(c: Config, q: Quality, s0: State, l0: int, frames: seq<Frame>, r: seq<Step>, i: nat)
    returns (k: nat)
    requires IsRun(c, q, s0, l0, frames, r)
    requires s0.previousResult == Hold
    requires 0 < i <= |r|
    requires StateBefore(s0, r, i).previousResult != Hold
    ensures k < i
    ensures StateBefore(s0, r, i).rateChangeStart == frames[k].now
    ensures SteadyBetween(r, k, i - 1, StateBefore(s0, r, i).previousResult)
  {
    var s := StateBefore(s0, r, i - 1);
    var d := StateBefore(s0, r, i).previousResult;
    StepDebounce(c, q, s0, l0, frames, r, i - 1);
    assert r[i - 1].request.None?;
    if r[i - 1].wanted.None? || r[i - 1].wanted.value == s.previousResult {
      assert s.previousResult == d && s.rateChangeStart == StateBefore(s0, r, i).rateChangeStart;
      assert i - 1 > 0;
      k := PendingDirectionOrigin(c, q, s0, l0, frames, r, i - 1);
      assert SteadyBetween(r, k, i - 2, d);
      StepDebounce(c, q, s0, l0, frames, r, i - 2);
      assert r[i - 1].wanted.None? || r[i - 1].wanted == Some(d);
    } else {
      k := i - 1;
      assert r[k].wanted == Some(d);
    }
  }

  /** Debounce over a run: every request follows a stretch of ticks, at least
      secondsBeforeChangingQuality long, in which the controller steadily desired
      the requested direction and requested nothing. */
  lemma RequestFollowsStablePeriod(c: Config, q: Quality, s0: State, l0: int, frames: seq<Frame>, r: seq<Step>, j: nat)
    returns (k: nat)
    requires IsRun(c, q, s0, l0, frames, r)
    requires s0.previousResult == Hold
    requires j < |r| && r[j].request.Some?
    ensures k <= j
    ensures frames[j].now - frames[k].now >= c.secondsBeforeChangingQuality
    ensures SteadyBetween(r, k, j, r[j].request.value)
  {
    var s := StateBefore(s0, r, j);
    StepDebounce(c, q, s0, l0, frames, r, j);
    if r[j].request.value == s.previousResult {
      k := PendingDirectionOrigin(c, q, s0, l0, frames, r, j);
      StepDebounce(c, q, s0, l0, frames, r, j - 1);
    } else {
      k := j;
    }
  }

  /** A request resets the pending direction, so with a positive stability delay the
      very next tick cannot request again. */
  lemma NoBackToBackRequests(c: Config, q: Quality, s0: State, l0: int, frames: seq<Frame>, r: seq<Step>, i: nat)
    requires IsRun(c, q, s0, l0, frames, r)
    requires c.secondsBeforeChangingQuality > 0.0
    requires i + 1 < |r| && r[i].request.Some?
    ensures r[i + 1].request.None?
  {
    StepDebounce(c, q, s0, l0, frames, r, i);
    StepDebounce(c, q, s0, l0, frames, r, i + 1);
  }

  /** Unity moves the quality level by at most one step per DecreaseLevel or
      IncreaseLevel call, and only in the requested direction. */
  ghost predicate OneStep(q: Quality) {
    forall l: int ::
      && q.decrease(l) in {l - 1, l}
      && q.increase(l) in {l, l + 1}
  }

  /** The level lies between the discovered floor and ceiling. */
  ghost predicate InBand(s: State, level: int) {
    s.minimumLevel <= level <= s.maximumLevel
  }

  /** One tick keeps the level within the discovered floor and ceiling: a
      decrease is only tried above the floor and an increase only below the
      ceiling, and a try that leaves the level where it was records it as the new
      floor or ceiling. */
  lemma StepKeepsBand(c: Config, q: Quality, s0: State, l0: int, frames: seq<Frame>, r: seq<Step>, i: nat)
    requires IsRun(c, q, s0, l0, frames, r)
    requires OneStep(q)
    requires i < |r|
    requires InBand(StateBefore(s0, r, i), LevelBefore(l0, r, i))
    ensures InBand(r[i].state, r[i].level)
  {
    var level := LevelBefore(l0, r, i);
    StepBounds(c, q, s0, l0, frames, r, i);
    StepLevel(c, q, s0, l0, frames, r, i);
    assert q.decrease(level) in {level - 1, level} && q.increase(level) in {level, level + 1};
    match r[i].request
    case None =>
    case Some(Down) =>
      assert r[i].level == level || r[i].level == level - 1;
    case Some(Up) =>
      assert r[i].level == level || r[i].level == level + 1;
    case Some(Hold) =>
      assert false;
  }

  /** Over a run that starts inside the band, with a one-step QualitySettings, the
      level never leaves the band [minimumLevel, maximumLevel]. */
  lemma {:induction false} LevelStaysInBand(c: Config, q: Quality, s0: State, l0: int, frames: seq<Frame>, r: seq<Step>, i: nat)
    requires IsRun(c, q, s0, l0, frames, r)
    requires OneStep(q)
    requires InBand(s0, l0)
    requires i <= |r|
    ensures InBand(StateBefore(s0, r, i), LevelBefore(l0, r, i))
  {
    if i > 0 {
      LevelStaysInBand(c, q, s0, l0, frames, r, i - 1);
      StepKeepsBand(c, q, s0, l0, frames, r, i - 1);
    }
  }

  /** Debounce, the other direction: a non-hold direction desired again at a tick,
      pending for at least the stability delay and passing its guard, is requested
      at that tick. */
  lemma SettledDirectionIsRequested(c: Config, q: Quality, s0: State, l0: int, frames: seq<Frame>, r: seq<Step>, j: nat, d: Dir)
    requires IsRun(c, q, s0, l0, frames, r)
    requires j < |r| && r[j].wanted == Some(d) && d != Hold
    requires StateBefore(s0, r, j).previousResult == d
    requires frames[j].now - StateBefore(s0, r, j).rateChangeStart >= c.secondsBeforeChangingQuality
    requires Allowed(c, StateBefore(s0, r, j), d, LevelBefore(l0, r, j))
    ensures r[j].request == Some(d)
  {
    StepDebounce(c, q, s0, l0, frames, r, j);
  }

  /** A direction first seen (as a flip) at tick k and steadily desired, with no
      request, up to tick m stays pending with tick k's time as its stamp. */
  lemma {:induction false} SteadyDirectionStaysPending(c: Config, q: Quality, s0: State, l0: int, frames: seq<Frame>, r: seq<Step>,
                                                     k: nat, m: nat, d: Dir)
    requires IsRun(c, q, s0, l0, frames, r)
    requires k < m <= |r| && d != Hold
    requires StateBefore(s0, r, k).previousResult != d
    requires r[k].wanted == Some(d)
    requires forall n :: k <= n < m ==> (r[n].wanted.None? || r[n].wanted == Some(d)) && r[n].request.None?
    ensures StateBefore(s0, r, m).previousResult == d
    ensures StateBefore(s0, r, m).rateChangeStart == frames[k].now
  {
    StepDebounce(c, q, s0, l0, frames, r, m - 1);
    if m - 1 > k {
      SteadyDirectionStaysPending(c, q, s0, l0, frames, r, k, m - 1, d);
    }
  }

  /** The converse of RequestFollowsStablePeriod, over a run: if a non-hold
      direction flips in at tick k, is desired (or the tick skipped) at every tick
      up to j with no request before j, tick j comes at least the stability delay
      after tick k, and the guard passes at j, then tick j requests that
      direction. */
  lemma StablePeriodTriggersRequest(c: Config, q: Quality, s0: State, l0: int, frames: seq<Frame>, r: seq<Step>,
                                    k: nat, j: nat, d: Dir)
    requires IsRun(c, q, s0, l0, frames, r)
    requires k < j < |r| && d != Hold
    requires StateBefore(s0, r, k).previousResult != d
    requires SteadyBetween(r, k, j, d) && r[j].wanted == Some(d)
    requires frames[j].now - frames[k].now >= c.secondsBeforeChangingQuality
    requires Allowed(c, StateBefore(s0, r, j), d, LevelBefore(l0, r, j))
    ensures r[j].request == Some(d)
  {
    SteadyDirectionStaysPending(c, q, s0, l0, frames, r, k, j, d);
    SettledDirectionIsRequested(c, q, s0, l0, frames, r, j, d);
  }
}
