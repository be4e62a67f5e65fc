/** The perceptron arithmetic shared by every BTB entry: the global history
    register, the dot product of history and weights, the sign-based
    prediction, the thresholded training rule and the history shift.

    Weights and history are declared `float` in the simulator, but they only
    ever hold integers (history starts as 1 and 0 and then holds +1/-1, weights
    start at 0 and move by one history value at a time), so they are `int` here. */
module Perceptron {

  /** Number of history positions, and of weights per perceptron (`size`). */
  const HISTORY_LEN: nat := 10

  /** The training threshold exactly as the simulator writes it: 1.93*10+14 = 33.3. */
  const THRESHOLD: real := 1.93 * 10.0 + 14.0

  /** The history register as it stands at program start: `float History[size] = {1}`. */
  const INITIAL_HISTORY: seq<int> := [1, 0, 0, 0, 0, 0, 0, 0, 0, 0]

  /** A history register: exactly HISTORY_LEN values among -1, 0, +1, and the
      newest (index 0) never 0 (it is 1 at start and then an outcome). */
  predicate HistoryOk(h: seq<int>)
  {
    && |h| == HISTORY_LEN
    && (forall i :: 0 <= i < |h| ==> -1 <= h[i] <= 1)
    && h[0] != 0
  }

  /** The value `t` the simulator records for an outcome. */
  function Outcome(taken: bool): (t: int)
    ensures t == 1 || t == -1
    ensures t > 0 <==> taken
  {
    if taken then 1 else -1
  }

  function Abs(x: int): nat
  {
    if x < 0 then -x else x
  }

  /** Every weight is zero, as BTB_init leaves them (checked from the last
      position down, the way Dot is computed). */
  predicate AllZero(w: seq<int>)
    decreases |w|
  {
    |w| == 0 || (w[|w| - 1] == 0 && AllZero(w[..|w| - 1]))
  }

  /** Sum of h[i] * w[i], accumulated from index 0 upward as the simulator's
      loops do. All-zero weights (a slot fresh from initialisation) give
      output 0, whatever the history. */
  function Dot(h: seq<int>, w: seq<int>): (x: int)
    requires |h| == |w|
    ensures AllZero(w) ==> x == 0
    decreases |h|
  {
    if |h| == 0 then 0 else Dot(h[..|h| - 1], w[..|w| - 1]) + h[|h| - 1] * w[|w| - 1]
  }

  /** The perceptron predicts "taken" exactly when its output is positive; a
      perceptron whose weights are all zero (a fresh slot) predicts "not taken". */
  predicate PredictsTaken(h: seq<int>, w: seq<int>)
    requires |h| == |w|
    ensures AllZero(w) ==> !PredictsTaken(h, w)
  {
    Dot(h, w) > 0
  }

  /** The confidence gate `abs(x) < 1.93*10+14`; on integers it admits exactly |x| <= 33. */
  predicate BelowThreshold(x: int)
    ensures BelowThreshold(x) <==> -33 <= x <= 33
  {
    (Abs(x) as real) < THRESHOLD
  }

  /** The training condition: the prediction was wrong, or the output was not
      confident. A perceptron is left alone only when it predicted the outcome
      with an output of at least 34 in magnitude. */
  predicate ShouldTrain(h: seq<int>, w: seq<int>, taken: bool)
    requires |h| == |w|
    ensures !ShouldTrain(h, w, taken) ==>
      (if taken then Dot(h, w) >= 34 else Dot(h, w) <= -34)
  {
    PredictsTaken(h, w) != taken || BelowThreshold(Dot(h, w))
  }

  /** The weights after one training step towards target t. A step on a
      well-formed history always changes the weights, since History[0] is
      never 0. */
  function Trained(w: seq<int>, h: seq<int>, t: int): (r: seq<int>)
    requires |w| == |h|
    ensures |r| == |w|
    ensures HistoryOk(h) && (t == 1 || t == -1) ==> r != w
  {
    var r := seq(|w|, i requires 0 <= i < |w| => w[i] + t * h[i]);
    assert HistoryOk(h) && (t == 1 || t == -1) ==> r[0] != w[0];
    r
  }

  /** The history register after recording outcome value t: everything moves
      one place towards the old end, the oldest value is dropped, t enters at 0. */
  function Shifted(h: seq<int>, t: int): (r: seq<int>)
    requires |h| > 0
    ensures |r| == |h|
    ensures r[0] == t
    ensures forall i :: 1 <= i < |h| ==> r[i] == h[i - 1]
  {
    [t] + h[..|h| - 1]
  }

  /** Recording an outcome keeps the history register well formed. */
  lemma ShiftedKeepsHistoryOk(h: seq<int>, taken: bool)
    requires HistoryOk(h)
    ensures HistoryOk(Shifted(h, Outcome(taken)))
  {
  }

  /** Weights that are zero at every position are AllZero, so they give
      output 0 whatever the history. */
  lemma {:induction false} DotZeroWeights(h: seq<int>, w: seq<int>)
    requires |h| == |w|
    requires forall i :: 0 <= i < |w| ==> w[i] == 0
    ensures AllZero(w) && Dot(h, w) == 0
    decreases |w|
  {
    if |w| > 0 {
      DotZeroWeights(h[..|h| - 1], w[..|w| - 1]);
    }
  }

  /** Weights that are zero beyond position 0 see only the newest outcome. */
  lemma {:induction false} DotFirstOnly(h: seq<int>, w: seq<int>)
    requires |h| == |w| && |h| > 0
    requires forall j :: 1 <= j < |w| ==> w[j] == 0
    ensures Dot(h, w) == h[0] * w[0]
  {
    var n := |h| - 1;
    if n > 0 {
      DotFirstOnly(h[..n], w[..n]);
    } else {
      assert Dot(h[..0], w[..0]) == 0;
    }
  }

  /** The dot product is linear in the weights: training adds t * (h . h). */
  lemma {:induction false} DotTrained(h: seq<int>, w: seq<int>, t: int)
    requires |h| == |w|
    ensures Dot(h, Trained(w, h, t)) == Dot(h, w) + t * Dot(h, h)
  {
    if |h| > 0 {
      var n := |h| - 1;
      var w' := Trained(w, h, t);
      DotTrained(h[..n], w[..n], t);
      TrainedPrefix(w, h, t, n);
      assert h[n] * w'[n] == h[n] * w[n] + t * (h[n] * h[n]) by {
        MulDistributes(h[n], w[n], t * h[n]);
      }
      MulDistributes(t, Dot(h[..n], h[..n]), h[n] * h[n]);
    }
  }

  /** Training acts position by position: a prefix of the trained weights is
      the trained prefix, and position n moves by t * h[n]. */
  lemma TrainedPrefix(w: seq<int>, h: seq<int>, t: int, n: nat)
    requires |w| == |h| && n < |w|
    ensures Trained(w, h, t)[..n] == Trained(w[..n], h[..n], t)
    ensures Trained(w, h, t)[n] == w[n] + t * h[n]
  {
  }

  /** Multiplication distributes over addition. */
  lemma MulDistributes(t: int, a: int, b: int)
    ensures t * (a + b) == t * a + t * b
  {
  }

  /** For a history of -1/0/+1 values, h . h counts its non-zero positions:
      it is never negative, and at least 1 when position 0 is non-zero. */
  lemma {:induction false} DotSelfLowerBound(h: seq<int>)
    requires forall i :: 0 <= i < |h| ==> -1 <= h[i] <= 1
    ensures Dot(h, h) >= 0
    ensures |h| > 0 && h[0] != 0 ==> Dot(h, h) >= 1
  {
    if |h| > 0 {
      var n := |h| - 1;
      DotSelfLowerBound(h[..n]);
      assert h[n] * h[n] >= 0;
      if n == 0 {
        assert h[0] * h[0] == 1 || h[0] == 0;
      } else {
        assert h[..n][0] == h[0];
      }
    }
  }

  /** The learning property of the rule: a training step moves the output
      strictly towards the outcome (up when taken, down when not taken). */
  lemma TrainingMovesTowardOutcome(h: seq<int>, w: seq<int>, taken: bool)
    requires HistoryOk(h) && |w| == |h|
    ensures var t := Outcome(taken);
      t * Dot(h, Trained(w, h, t)) >= t * Dot(h, w) + 1
  {
    var t := Outcome(taken);
    DotTrained(h, w, t);
    DotSelfLowerBound(h);
    SignedStep(Dot(h, w), Dot(h, h), t);
  }

  /** Adding t * d with d >= 1 moves x by at least 1 in the direction of t = +-1. */
  lemma SignedStep(x: int, d: int, t: int)
    requires d >= 1 && (t == 1 || t == -1)
    ensures t * (x + t * d) >= t * x + 1
  {
  }

  /** With non-negative history and weights, the output is at least the
      contribution of position 0. */
  lemma {:induction false} DotNonNegativeBound(h: seq<int>, w: seq<int>)
    requires |h| == |w| && |h| > 0
    requires forall i :: 0 <= i < |h| ==> h[i] >= 0 && w[i] >= 0
    ensures Dot(h, w) >= h[0] * w[0]
  {
    var n := |h| - 1;
    if n > 0 {
      DotNonNegativeBound(h[..n], w[..n]);
      assert h[n] * w[n] >= 0;
    } else {
      assert Dot(h[..0], w[..0]) == 0;
    }
  }
}
