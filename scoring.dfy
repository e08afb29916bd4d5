/**
 * The arithmetic behind the robustness scores of roodmri/metrics/calculate.py:
 * plain means (the groupby 'mean' aggregations), the severity weights
 * `alpha ** severity`, and the two weighted averages, Overall and Degradation,
 * over one (group, transform) series of severity-tagged values.
 * Everything is over exact reals.
 */
module Scoring {

  // ---------------------------------------------------------------------
  // Plain sums and means
  // ---------------------------------------------------------------------

  function Sum(xs: seq<real>): real
  {
    if xs == [] then 0.0 else xs[0] + Sum(xs[1..])
  }

  /** Arithmetic mean, the pandas 'mean' aggregation over a non-empty group. */
  function Mean(xs: seq<real>): real
    requires |xs| > 0
  {
    Sum(xs) / |xs| as real
  }

  lemma {:induction false} SumBounds(xs: seq<real>, lo: real, hi: real)
    requires forall i :: 0 <= i < |xs| ==> lo <= xs[i] <= hi
    ensures lo * |xs| as real <= Sum(xs) <= hi * |xs| as real
  {
    if xs != [] {
      SumBounds(xs[1..], lo, hi);
    }
  }

  /** A mean lies between any lower and upper bound of the averaged values. */
  lemma MeanBetween(xs: seq<real>, lo: real, hi: real)
    requires |xs| > 0
    requires forall i :: 0 <= i < |xs| ==> lo <= xs[i] <= hi
    ensures lo <= Mean(xs) <= hi
  {
    SumBounds(xs, lo, hi);
    DivBetween(Sum(xs), |xs| as real, lo, hi);
  }

  /** The mean of identical values is that value. */
  lemma MeanOfConstant(xs: seq<real>, c: real)
    requires |xs| > 0
    requires forall i :: 0 <= i < |xs| ==> xs[i] == c
    ensures Mean(xs) == c
  {
    MeanBetween(xs, c, c);
  }

  lemma DivBetween(n: real, d: real, lo: real, hi: real)
    requires d > 0.0
    requires lo * d <= n <= hi * d
    ensures lo <= n / d <= hi
  {
    assert n / d * d == n;
    if n / d < lo {
      MulStrict(n / d, lo, d);
    }
    if n / d > hi {
      MulStrict(hi, n / d, d);
    }
  }

  lemma MulStrict(a: real, b: real, d: real)
    requires a < b && d > 0.0
    ensures a * d < b * d
  {
  }

  lemma MulLe(a: real, b: real, d: real)
    requires a <= b && d > 0.0
    ensures a * d <= b * d
  {
  }

  // ---------------------------------------------------------------------
  // Severity weights
  // ---------------------------------------------------------------------

  /** `alpha ** n` for a natural exponent; positive whenever alpha is. */
  function Pow(alpha: real, n: nat): (r: real)
    ensures alpha > 0.0 ==> r > 0.0
  {
    if n == 0 then 1.0 else alpha * Pow(alpha, n - 1)
  }

  /** With alpha = 1 every severity weighs 1. */
  lemma {:induction false} PowOfOne(n: nat)
    ensures Pow(1.0, n) == 1.0
  {
    if n > 0 {
      PowOfOne(n - 1);
    }
  }

  /** For 0 < alpha < 1 a higher severity gets a strictly smaller weight. */
  lemma {:induction false} PowStrictlyDecreasing(alpha: real, m: nat, n: nat)
    requires 0.0 < alpha < 1.0
    requires m < n
    ensures Pow(alpha, n) < Pow(alpha, m)
  {
    PowStep(alpha, n - 1);
    if m < n - 1 {
      PowStrictlyDecreasing(alpha, m, n - 1);
    }
  }

  /** For alpha > 1 (accepted by calculate_metrics, which never checks alpha) weights grow instead. */
  lemma {:induction false} PowStrictlyIncreasing(alpha: real, m: nat, n: nat)
    requires alpha > 1.0
    requires m < n
    ensures Pow(alpha, m) < Pow(alpha, n)
  {
    PowStep(alpha, n - 1);
    if m < n - 1 {
      PowStrictlyIncreasing(alpha, m, n - 1);
    }
  }

  /** One more severity level multiplies the weight by alpha. */
  lemma PowStep(alpha: real, n: nat)
    requires alpha > 0.0
    ensures alpha < 1.0 ==> Pow(alpha, n + 1) < Pow(alpha, n)
    ensures alpha > 1.0 ==> Pow(alpha, n) < Pow(alpha, n + 1)
  {
    Scale(alpha, Pow(alpha, n), Pow(alpha, n + 1));
  }

  lemma Scale(a: real, p: real, q: real)
    requires a > 0.0 && p > 0.0
    requires q == a * p
    ensures a < 1.0 ==> q < p
    ensures a > 1.0 ==> p < q
  {
    if a < 1.0 {
      MulStrict(a, 1.0, p);
    } else if a > 1.0 {
      MulStrict(1.0, a, p);
    }
  }

  // ---------------------------------------------------------------------
  // Weighted series
  // ---------------------------------------------------------------------

  /** One aggregated bucket of a (group, transform): its severity and one of its values. */
  datatype Point = Point(severity: nat, value: real)

  function Values(ps: seq<Point>): (vs: seq<real>)
    ensures |vs| == |ps|
    ensures forall i :: 0 <= i < |ps| ==> vs[i] == ps[i].value
  {
    seq(|ps|, i requires 0 <= i < |ps| => ps[i].value)
  }

  /** The weight of one bucket, `alpha ** severity` (calculate.py lines 77-79). */
  function Weight(alpha: real, p: Point): real
  {
    Pow(alpha, p.severity)
  }

  /** The sum of the weights of a series (calculate.py lines 80-81). */
  function TotalWeight(ps: seq<Point>, alpha: real): (r: real)
    ensures alpha > 0.0 ==> r >= 0.0
    ensures alpha > 0.0 && |ps| > 0 ==> r > 0.0
  {
    if ps == [] then 0.0 else Weight(alpha, ps[0]) + TotalWeight(ps[1..], alpha)
  }

  /** The weighted sum `Σ w·v` of a series. */
  function WeightedTotal(ps: seq<Point>, alpha: real): real
  {
    if ps == [] then 0.0 else Weight(alpha, ps[0]) * ps[0].value + WeightedTotal(ps[1..], alpha)
  }

  /** Bounds on the values bound the weighted sum by the same multiples of the total weight. */
  lemma {:induction false} WeightedTotalBounds(ps: seq<Point>, alpha: real, lo: real, hi: real)
    requires alpha > 0.0
    requires forall i :: 0 <= i < |ps| ==> lo <= ps[i].value <= hi
    ensures lo * TotalWeight(ps, alpha) <= WeightedTotal(ps, alpha) <= hi * TotalWeight(ps, alpha)
  {
    if ps != [] {
      var rest := ps[1..];
      forall i | 0 <= i < |rest| ensures lo <= rest[i].value <= hi {
        assert rest[i] == ps[i + 1];
      }
      WeightedTotalBounds(rest, alpha, lo, hi);
      LowerStep(ps, alpha, lo);
      UpperStep(ps, alpha, hi);
    }
  }

  /** The lower bound of a series' tail and of its head give the lower bound of the series. */
  lemma LowerStep(ps: seq<Point>, alpha: real, lo: real)
    requires alpha > 0.0 && ps != []
    requires lo <= ps[0].value
    requires lo * TotalWeight(ps[1..], alpha) <= WeightedTotal(ps[1..], alpha)
    ensures lo * TotalWeight(ps, alpha) <= WeightedTotal(ps, alpha)
  {
    AddLower(lo, ps[0].value, Weight(alpha, ps[0]), TotalWeight(ps[1..], alpha), WeightedTotal(ps[1..], alpha));
  }

  /** The upper bound of a series' tail and of its head give the upper bound of the series. */
  lemma UpperStep(ps: seq<Point>, alpha: real, hi: real)
    requires alpha > 0.0 && ps != []
    requires ps[0].value <= hi
    requires WeightedTotal(ps[1..], alpha) <= hi * TotalWeight(ps[1..], alpha)
    ensures WeightedTotal(ps, alpha) <= hi * TotalWeight(ps, alpha)
  {
    AddUpper(hi, ps[0].value, Weight(alpha, ps[0]), TotalWeight(ps[1..], alpha), WeightedTotal(ps[1..], alpha));
  }

  /** One more term `w·v` with `lo <= v` keeps `lo · Σw <= Σ w·v`. */
  lemma AddLower(lo: real, v: real, w: real, tw: real, wt: real)
    requires lo <= v && w > 0.0
    requires lo * tw <= wt
    ensures lo * (w + tw) <= w * v + wt
  {
    MulLe(lo, v, w);
  }

  /** One more term `w·v` with `v <= hi` keeps `Σ w·v <= hi · Σw`. */
  lemma AddUpper(hi: real, v: real, w: real, tw: real, wt: real)
    requires v <= hi && w > 0.0
    requires wt <= hi * tw
    ensures w * v + wt <= hi * (w + tw)
  {
    MulLe(v, hi, w);
  }

  /** Strictly positive values give a strictly positive weighted sum. */
  lemma {:induction false} WeightedTotalPositive(ps: seq<Point>, alpha: real)
    requires alpha > 0.0
    requires |ps| > 0
    requires forall i :: 0 <= i < |ps| ==> ps[i].value > 0.0
    ensures WeightedTotal(ps, alpha) > 0.0
  {
    var w := Weight(alpha, ps[0]);
    MulStrict(0.0, ps[0].value, w);
    if |ps| > 1 {
      WeightedTotalPositive(ps[1..], alpha);
    } else {
      assert ps[1..] == [];
    }
  }

  /** Overall: the clean value folded into the weighted average with weight 1 (lines 83-85). */
  function OverallScore(ps: seq<Point>, alpha: real, clean: real): (r: real)
    requires alpha > 0.0
    ensures ps == [] ==> r == clean
    ensures alpha == 1.0 ==> r == (Sum(Values(ps)) + clean) / (|ps| as real + 1.0)
  {
    UniformWeights(ps);
    (WeightedTotal(ps, alpha) + clean) / (TotalWeight(ps, alpha) + 1.0)
  }

  /** Overall lies between any bounds of the clean value and the perturbed values. */
  lemma OverallBetween(ps: seq<Point>, alpha: real, clean: real, lo: real, hi: real)
    requires alpha > 0.0
    requires lo <= clean <= hi
    requires forall i :: 0 <= i < |ps| ==> lo <= ps[i].value <= hi
    ensures lo <= OverallScore(ps, alpha, clean) <= hi
  {
    var tw, wt := TotalWeight(ps, alpha), WeightedTotal(ps, alpha);
    assert lo * tw <= wt <= hi * tw by {
      WeightedTotalBounds(ps, alpha, lo, hi);
    }
    assert lo <= (wt + clean) / (tw + 1.0) <= hi by {
      FoldClean(lo, hi, tw, wt, clean);
    }
  }

  /** Adding the clean value with weight 1 keeps the weighted average inside the bounds. */
  lemma FoldClean(lo: real, hi: real, tw: real, wt: real, clean: real)
    requires tw >= 0.0
    requires lo <= clean <= hi
    requires lo * tw <= wt <= hi * tw
    ensures lo <= (wt + clean) / (tw + 1.0) <= hi
  {
    assert lo * (tw + 1.0) == lo * tw + lo;
    assert hi * (tw + 1.0) == hi * tw + hi;
    DivBetween(wt + clean, tw + 1.0, lo, hi);
  }

  /** When no perturbed value differs from the clean one, Overall is the clean value, for any alpha. */
  lemma OverallOfUnchanged(ps: seq<Point>, alpha: real, clean: real)
    requires alpha > 0.0
    requires forall i :: 0 <= i < |ps| ==> ps[i].value == clean
    ensures OverallScore(ps, alpha, clean) == clean
  {
    OverallBetween(ps, alpha, clean, clean, clean);
  }

  /** The weighted mean `Σ w·v / Σ w`, used for Degradation (lines 93-95). */
  function WeightedMean(ps: seq<Point>, alpha: real): (r: real)
    requires alpha > 0.0
    requires |ps| > 0
    ensures alpha == 1.0 ==> r == Mean(Values(ps))
  {
    UniformWeights(ps);
    WeightedTotal(ps, alpha) / TotalWeight(ps, alpha)
  }

  /** A weighted mean lies between any bounds of its values. */
  lemma WeightedMeanBetween(ps: seq<Point>, alpha: real, lo: real, hi: real)
    requires alpha > 0.0
    requires |ps| > 0
    requires forall i :: 0 <= i < |ps| ==> lo <= ps[i].value <= hi
    ensures lo <= WeightedMean(ps, alpha) <= hi
  {
    WeightedTotalBounds(ps, alpha, lo, hi);
    DivBetween(WeightedTotal(ps, alpha), TotalWeight(ps, alpha), lo, hi);
  }

  /** A series of zero deltas has weighted mean zero, for any alpha. */
  lemma WeightedMeanOfZeros(ps: seq<Point>, alpha: real)
    requires alpha > 0.0
    requires |ps| > 0
    requires forall i :: 0 <= i < |ps| ==> ps[i].value == 0.0
    ensures WeightedMean(ps, alpha) == 0.0
  {
    WeightedMeanBetween(ps, alpha, 0.0, 0.0);
  }

  /** Strictly positive deltas give a strictly positive weighted mean. */
  lemma WeightedMeanPositive(ps: seq<Point>, alpha: real)
    requires alpha > 0.0
    requires |ps| > 0
    requires forall i :: 0 <= i < |ps| ==> ps[i].value > 0.0
    ensures WeightedMean(ps, alpha) > 0.0
  {
    WeightedTotalPositive(ps, alpha);
  }

  /** With alpha = 1 the weighted mean is the plain mean of the values. */
  lemma {:induction false} UniformWeights(ps: seq<Point>)
    ensures TotalWeight(ps, 1.0) == |ps| as real
    ensures WeightedTotal(ps, 1.0) == Sum(Values(ps))
  {
    if ps != [] {
      UniformWeights(ps[1..]);
      PowOfOne(ps[0].severity);
      assert Values(ps)[1..] == Values(ps[1..]);
    }
  }
}
