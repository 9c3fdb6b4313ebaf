/**
 * tools/confidence.py: turning an L2 distance from the similarity index into
 * a confidence in [0,1], and the mean and maximum confidence over a hit list.
 * `math.exp` is a parameter; `ExpLaws` states the only facts the code needs
 * about it.
 */
module Confidence {

  /** What the code relies on about `exp`: exp(0) = 1, exp is positive and monotone. */
  ghost predicate ExpLaws(exp: real -> real) {
    && exp(0.0) == 1.0
    && (forall x :: exp(x) > 0.0)
    && (forall x, y :: x <= y ==> exp(x) <= exp(y))
  }

  /** The default steepness `alpha` of the decay. */
  const DefaultAlpha: real := 0.35

  /** A distance as callers pass it: `None`, a number, or a value `float()` rejects. */
  datatype Distance = Missing | Numeric(d: real) | NotNumeric

  /** `max(0.0, min(x, 1.0))`. */
  function Clamp01(x: real): (r: real)
    ensures 0.0 <= r <= 1.0
    ensures 0.0 <= x <= 1.0 ==> r == x
  {
    if x < 0.0 then 0.0 else if x > 1.0 then 1.0 else x
  }

  /** `l2_to_confidence(dist, alpha)`. */
  function L2ToConfidence(exp: real -> real, dist: Distance, alpha: real): (r: real)
    ensures 0.0 <= r <= 1.0
    ensures !dist.Numeric? ==> r == 0.0
  {
    match dist
    case Numeric(d) => Clamp01(exp(-alpha * d))
    case _ => 0.0
  }

  /** Distance 0 is full confidence. */
  lemma ConfidenceAtZero(exp: real -> real, alpha: real)
    requires ExpLaws(exp)
    ensures L2ToConfidence(exp, Numeric(0.0), alpha) == 1.0
  {
    assert -alpha * 0.0 == 0.0;
  }

  /** For a positive `alpha`, a smaller distance never gives a lower confidence. */
  lemma ConfidenceAntitone(exp: real -> real, alpha: real, d1: real, d2: real)
    requires ExpLaws(exp) && alpha > 0.0 && d1 <= d2
    ensures L2ToConfidence(exp, Numeric(d1), alpha) >= L2ToConfidence(exp, Numeric(d2), alpha)
  {
    assert alpha * d1 <= alpha * d2 by {
      assert alpha * (d2 - d1) >= 0.0;
    }
    assert exp(-alpha * d2) <= exp(-alpha * d1);
  }

  /** For non-negative distance and `alpha` the clamp never bites: the result is exp(-alpha * d) itself. */
  lemma ConfidenceUnclamped(exp: real -> real, alpha: real, d: real)
    requires ExpLaws(exp) && alpha >= 0.0 && d >= 0.0
    ensures L2ToConfidence(exp, Numeric(d), alpha) == exp(-alpha * d)
  {
    assert alpha * d >= 0.0;
    assert exp(-alpha * d) <= exp(0.0);
  }

  /** The per-hit confidences `[l2_to_confidence(d, alpha) for d in distances]`. */
  function Confidences(exp: real -> real, ds: seq<Distance>, alpha: real): (cs: seq<real>)
    ensures |cs| == |ds|
    ensures forall i :: 0 <= i < |ds| ==> cs[i] == L2ToConfidence(exp, ds[i], alpha)
  {
    if ds == [] then [] else [L2ToConfidence(exp, ds[0], alpha)] + Confidences(exp, ds[1..], alpha)
  }

  function Sum(xs: seq<real>): real {
    if xs == [] then 0.0 else xs[0] + Sum(xs[1..])
  }

  /** Python `max(xs)`: an element of `xs` that no element exceeds. */
  function MaxOf(xs: seq<real>): (r: real)
    requires |xs| > 0
    ensures forall i :: 0 <= i < |xs| ==> xs[i] <= r
    ensures exists i :: 0 <= i < |xs| && xs[i] == r
  {
    if |xs| == 1 then xs[0]
    else
      var m := MaxOf(xs[1..]);
      assert forall i :: 1 <= i < |xs| ==> xs[i] == xs[1..][i - 1];
      if xs[0] >= m then xs[0] else m
  }

  lemma {:induction false} SumBounds(xs: seq<real>)
    requires forall i :: 0 <= i < |xs| ==> 0.0 <= xs[i] <= 1.0
    ensures 0.0 <= Sum(xs) <= |xs| as real
  {
    if xs != [] {
      SumBounds(xs[1..]);
    }
  }

  /** A sum never exceeds the length times the largest element. */
  lemma {:induction false} SumAtMostLengthTimesMax(xs: seq<real>, m: real)
    requires forall i :: 0 <= i < |xs| ==> xs[i] <= m
    ensures Sum(xs) <= |xs| as real * m
  {
    if xs != [] {
      SumAtMostLengthTimesMax(xs[1..], m);
    }
  }

  /** `average_confidence`: the mean confidence, 0.0 for an empty list. */
  function AverageConfidence(exp: real -> real, ds: seq<Distance>, alpha: real): (r: real)
    ensures 0.0 <= r <= 1.0
    ensures ds == [] ==> r == 0.0
    ensures ds != [] ==> r * (|ds| as real) == Sum(Confidences(exp, ds, alpha))
  {
    if ds == [] then 0.0
    else
      var cs := Confidences(exp, ds, alpha);
      SumBounds(cs);
      var n := |cs| as real;
      assert Sum(cs) / n <= 1.0 by {
        assert Sum(cs) <= n * 1.0;
      }
      Sum(cs) / n
  }

  /** `top_confidence`: the largest confidence, 0.0 for an empty list. */
  function TopConfidence(exp: real -> real, ds: seq<Distance>, alpha: real): (r: real)
    ensures 0.0 <= r <= 1.0
    ensures ds == [] ==> r == 0.0
    ensures forall i :: 0 <= i < |ds| ==> L2ToConfidence(exp, ds[i], alpha) <= r
    ensures ds != [] ==> exists i :: 0 <= i < |ds| && L2ToConfidence(exp, ds[i], alpha) == r
  {
    if ds == [] then 0.0 else MaxOf(Confidences(exp, ds, alpha))
  }

  /** The best hit is at least as confident as the average hit. */
  lemma TopAtLeastAverage(exp: real -> real, ds: seq<Distance>, alpha: real)
    ensures TopConfidence(exp, ds, alpha) >= AverageConfidence(exp, ds, alpha)
  {
    if ds != [] {
      var cs := Confidences(exp, ds, alpha);
      var top := MaxOf(cs);
      SumAtMostLengthTimesMax(cs, top);
      MeanAtMostBound(Sum(cs), |cs| as real, top);
    }
  }

  lemma MeanAtMostBound(s: real, n: real, m: real)
    requires n > 0.0 && s <= n * m
    ensures s / n <= m
  {
    CancelPositive(s / n, m, n);
  }

  lemma CancelPositive(a: real, b: real, n: real)
    requires n > 0.0 && a * n <= n * b
    ensures a <= b
  {
  }
}
