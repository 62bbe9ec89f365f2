/** The frame-rate smoothing queue of SimpleAdaptiveQuality.GetFramerate. */
module Smoothing {

  /** The count at which the oldest sample is dropped. The check happens right
      after the new sample is enqueued, so a window never holds more than
      Capacity - 1 samples after a step. */
  const Capacity: nat := 30

  /** Sum of the samples, accumulated from the oldest one, as the foreach loop does. */
  function Sum(s: seq<real>): real
    decreases |s|
  {
    if s == [] then 0.0 else Sum(s[..|s| - 1]) + s[|s| - 1]
  }

  /** Arithmetic mean of a non-empty window. */
  function Mean(s: seq<real>): real
    requires |s| > 0
  {
    Sum(s) / (|s| as real)
  }

  /** Enqueue a sample, then drop the oldest one when the count has reached Capacity. */
  function Push(window: seq<real>, sample: real): (w: seq<real>)
    ensures 0 < |w| <= |window| + 1 && w[|w| - 1] == sample
    ensures w == (window + [sample])[|window| + 1 - |w|..]
    ensures |window| < Capacity ==> |w| < Capacity
    ensures |window| + 1 != Capacity ==> w == window + [sample]
    ensures |window| + 1 == Capacity ==> w == window[1..] + [sample]
  {
    var grown := window + [sample];
    if |grown| == Capacity then grown[1..] else grown
  }

  /** The window after a frame, and the smoothed rate it yields. */
  datatype Sampled = Sampled(window: seq<real>, rate: real)

  /** Push the instantaneous rate 1/deltaTime and smooth. GetFramerate returns the
      raw rate when the window holds a single sample and the mean otherwise; both
      are the mean of the window, which is what this contract states. */
  function Sample(window: seq<real>, deltaTime: real): (r: Sampled)
    requires deltaTime > 0.0
    ensures r.window == Push(window, 1.0 / deltaTime)
    ensures |r.window| > 0 && r.rate == Mean(r.window)
  {
    var w := Push(window, 1.0 / deltaTime);
    if |w| > 1 then Sampled(w, Mean(w))
    else
      assert w == [1.0 / deltaTime];
      assert Sum(w) == Sum(w[..0]) + w[0];
      Sampled(w, 1.0 / deltaTime)
  }

  /** The imperative form of GetFramerate: the explicit count test and the foreach
      accumulation, shown to agree with Sample. */
  method GetFramerate(window: seq<real>, deltaTime: real) returns (updated: seq<real>, rate: real)
    requires deltaTime > 0.0
    ensures updated == Push(window, 1.0 / deltaTime)
    ensures rate == Sample(window, deltaTime).rate
    ensures |updated| > 1 ==> rate == Sum(updated) / (|updated| as real)
    ensures |updated| <= 1 ==> rate == 1.0 / deltaTime
  {
    rate := 1.0 / deltaTime;
    updated := window + [rate];
    if |updated| == Capacity {
      updated := updated[1..];
    }
    if |updated| > 1 {
      var total := 0.0;
      var i := 0;
      while i < |updated|
        invariant 0 <= i <= |updated|
        invariant total == Sum(updated[..i])
      {
        assert updated[..i + 1][..i] == updated[..i];
        total := total + updated[i];
        i := i + 1;
      }
      assert updated[..i] == updated;
      rate := total / (|updated| as real);
    }
  }

  /** If every sample is below b, so is the sum over |s| copies of b. */
  lemma {:induction false} SumBelow(s: seq<real>, b: real)
    requires |s| > 0
    requires forall i :: 0 <= i < |s| ==> s[i] < b
    ensures Sum(s) < (|s| as real) * b
  {
    var init := s[..|s| - 1];
    if |init| == 0 {
      assert Sum(s) == Sum(init) + s[|s| - 1];
    } else {
      SumBelow(init, b);
    }
  }

  /** If every sample is above b, so is the sum over |s| copies of b. */
  lemma {:induction false} SumAbove(s: seq<real>, b: real)
    requires |s| > 0
    requires forall i :: 0 <= i < |s| ==> s[i] > b
    ensures Sum(s) > (|s| as real) * b
  {
    var init := s[..|s| - 1];
    if |init| == 0 {
      assert Sum(s) == Sum(init) + s[|s| - 1];
    } else {
      SumAbove(init, b);
    }
  }

  /** A window of samples all below b has its mean below b. */
  lemma MeanBelow(s: seq<real>, b: real)
    requires |s| > 0
    requires forall i :: 0 <= i < |s| ==> s[i] < b
    ensures Mean(s) < b
  {
    SumBelow(s, b);
    var n := |s| as real;
    assert Mean(s) * n == Sum(s);
  }

  /** A window of samples all above b has its mean above b. */
  lemma MeanAbove(s: seq<real>, b: real)
    requires |s| > 0
    requires forall i :: 0 <= i < |s| ==> s[i] > b
    ensures Mean(s) > b
  {
    SumAbove(s, b);
    var n := |s| as real;
    assert Mean(s) * n == Sum(s);
  }
}
