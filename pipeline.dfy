/**
 * The step-by-step form of `calculate_metrics` (roodmri/metrics/calculate.py):
 * the aggregated frame loses its clean rows in place, a degradation frame is
 * built from it, and a loop over `metric_cols` negates the mean column of
 * every higher-is-better metric in place. `CalculateMetrics` is proved to
 * compute exactly `Metrics.Calculate`, whose properties `MetricsLaws` proves.
 */
module Pipeline {
  import opened Wrappers
  import opened Metrics

  /** A frame whose rows the source updates in place. */
  class Frame {
    var buckets: seq<Bucket>

    constructor (bs: seq<Bucket>)
      ensures buckets == bs
    {
      buckets := bs;
    }

    /** `drop(transform, level=transform_col, inplace=True)`: every row of that transform goes. */
    method DropTransform(transform: string)
      modifies this
      ensures buckets == Perturbed(old(buckets), transform)
    {
      buckets := Perturbed(buckets, transform);
    }

    /** `frame.loc[:, (metric, 'mean')] = -1 * frame.loc[:, (metric, 'mean')]`. */
    method NegateMean(metric: string)
      modifies this
      ensures buckets == Normalize(old(buckets), {metric})
    {
      buckets := Normalize(buckets, {metric});
    }
  }

  /** Flipping no metric leaves a frame as it is. */
  lemma NormalizeNothing(bs: seq<Bucket>)
    ensures Normalize(bs, {}) == bs
  {
    var r := Normalize(bs, {});
    forall i | 0 <= i < |bs| ensures r[i] == bs[i] {
      assert r[i].stats == bs[i].stats;
    }
  }

  /** Flipping one more metric, not flipped before, is flipping the larger set at once. */
  lemma NormalizeOneMore(bs: seq<Bucket>, flips: set<string>, m: string)
    requires m !in flips
    ensures Normalize(Normalize(bs, flips), {m}) == Normalize(bs, flips + {m})
  {
    var lhs := Normalize(Normalize(bs, flips), {m});
    var rhs := Normalize(bs, flips + {m});
    forall i | 0 <= i < |bs| ensures lhs[i] == rhs[i] {
      assert lhs[i].stats == rhs[i].stats;
    }
  }

  lemma FlipsStep(flips: set<string>, todo: set<string>, m: string)
    requires m in todo
    ensures m !in flips - todo
    ensures m in flips ==> flips - todo + {m} == flips - (todo - {m})
    ensures m !in flips ==> flips - todo == flips - (todo - {m})
  {
  }

  /**
   * The loop of lines 89-92 over `metric_cols`: the mean column of every
   * higher-is-better metric of the degradation frame is negated in place,
   * and nothing else changes.
   */
  method FlipDirections(deg: Frame, metrics: MetricSpec)
    modifies deg
    ensures deg.buckets == Normalize(old(deg.buckets), HigherIsBetter(metrics))
  {
    var flips := HigherIsBetter(metrics);
    var start := deg.buckets;
    NormalizeNothing(start);
    var todo := metrics.Keys;
    assert flips - todo == {};
    while todo != {}
      invariant todo <= metrics.Keys
      invariant deg.buckets == Normalize(start, flips - todo)
      decreases |todo|
    {
      var m :| m in todo;
      FlipsStep(flips, todo, m);
      if metrics[m] {
        NormalizeOneMore(start, flips - todo, m);
        deg.NegateMean(m);
      }
      todo := todo - {m};
    }
    assert flips - todo == flips;
  }

  /**
   * Lines 74-99 on a checked aggregated frame: the clean rows are dropped from
   * it in place and the direction flip updates the degradation frame in place.
   */
  method ScoreFrame(agg: Frame, metrics: MetricSpec, clean: string, alphaOa: real, alphaDeg: real)
    returns (out: Output)
    requires alphaOa > 0.0 && alphaDeg > 0.0
    requires Uniform(agg.buckets, metrics.Keys)
    requires BaselineUnique(agg.buckets, clean)
    modifies agg
    ensures out == Score(old(agg.buckets), metrics, clean, alphaOa, alphaDeg)
    ensures agg.buckets == Perturbed(old(agg.buckets), clean)
  {
    var ms := metrics.Keys;
    PerturbedScorable(agg.buckets, ms, clean, HigherIsBetter(metrics));
    var baseline := Baseline(agg.buckets, clean);
    agg.DropTransform(clean);
    var deg := new Frame(Deltas(agg.buckets, baseline));
    FlipDirections(deg, metrics);
    var combined := ScoreRows(agg.buckets, deg.buckets, baseline, ms, alphaOa, alphaDeg);
    out := Output(combined, Rollup(combined, ms));
  }

  /** `calculate_metrics` as the source runs it: the checks, the aggregation, then `ScoreFrame`. */
  method CalculateMetrics(rows: seq<Row>, metrics: MetricSpec, clean: string, alphaOa: real, alphaDeg: real,
                          spread: Spread)
    returns (r: Result<Output, Error>)
    ensures r == Calculate(rows, metrics, clean, alphaOa, alphaDeg, spread)
  {
    if alphaOa <= 0.0 {
      return Failure(InvalidDecayRate(alphaOa));
    }
    if alphaDeg <= 0.0 {
      return Failure(InvalidDecayRate(alphaDeg));
    }
    var missing := MissingMetrics(rows, metrics.Keys);
    if missing != {} {
      return Failure(MissingColumn(missing));
    }
    if !HasCleanLabel(rows, clean) {
      return Failure(MissingCleanLabel(clean));
    }
    var agg := new Frame(Aggregate(rows, metrics.Keys, spread));
    var err := BaselineError(agg.buckets, clean);
    if err.Some? {
      return Failure(err.value);
    }
    var out := ScoreFrame(agg, metrics, clean, alphaOa, alphaDeg);
    r := Success(out);
  }
}
