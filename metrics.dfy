/**
 * `calculate_metrics` of roodmri/metrics/calculate.py.
 *
 * A flat table of per-sample segmentation scores, each row tagged with the
 * values of the grouping columns, a transform name and a severity, is turned
 * into one Overall and one Degradation score per (group, transform) and a
 * rollup of those per group.
 *
 * The pandas frames become sequences of records: the aggregated frame `agg`
 * is a sequence of buckets whose keys are distinct, the clean rows are an
 * explicit map from group to the clean bucket's statistics, and every
 * `groupby(...).agg('sum')` over a (group, transform) is a weighted sum over
 * the buckets of that (group, transform).
 */
module Metrics {
  import opened Wrappers
  import opened Seqs
  import opened Scoring

  // ---------------------------------------------------------------------
  // Data model
  // ---------------------------------------------------------------------

  /** The values of the caller's grouping columns in one row (empty when there are none). */
  type GroupKey = seq<string>

  /** One row of the input table: one sample under one transform at one severity. */
  datatype Row = Row(group: GroupKey, transform: string, severity: nat, sample: string,
                     values: map<string, real>)

  /** The index of the aggregated frame: grouping columns, transform, severity. */
  datatype BucketKey = BucketKey(group: GroupKey, transform: string, severity: nat)

  function KeyOf(r: Row): BucketKey
  {
    BucketKey(r.group, r.transform, r.severity)
  }

  /** The ('mean', 'std') pair of one metric column. */
  datatype Stat = Stat(mean: real, std: real)

  datatype Part = MeanPart | StdPart

  function Get(s: Stat, p: Part): real
  {
    match p
    case MeanPart => s.mean
    case StdPart => s.std
  }

  /** Metric name to its ('mean', 'std') pair. */
  type Stats = map<string, Stat>

  /** One row of the aggregated frame. */
  datatype Bucket = Bucket(key: BucketKey, stats: Stats)

  /**
   * The sample standard deviation of a bucket's values. pandas computes it
   * with a square root; the model keeps it as a caller-supplied function.
   */
  type Spread = seq<real> -> real

  /** `metric_cols`: metric name to "higher is better". */
  type MetricSpec = map<string, bool>

  /** One row of `combined`: the Overall and Degradation sections of a (group, transform). */
  datatype ScoreRow = ScoreRow(group: GroupKey, transform: string, overall: Stats, degradation: Stats)

  /** One row of `combined_agg`. */
  datatype GroupRow = GroupRow(group: GroupKey, overall: Stats, degradation: Stats)

  datatype Output = Output(combined: seq<ScoreRow>, combinedAgg: seq<GroupRow>)

  datatype Error =
    | InvalidDecayRate(alpha: real)
    | MissingColumn(metrics: set<string>)
    | MissingCleanLabel(transform: string)
    | MissingBaseline(group: GroupKey)
    | DuplicateBaseline(group: GroupKey)

  /** Every bucket holds exactly the metrics `ms`. */
  predicate Uniform(bs: seq<Bucket>, ms: set<string>)
  {
    forall b :: b in bs ==> b.stats.Keys == ms
  }

  /** Two frames with the same index, row by row. */
  predicate Aligned(a: seq<Bucket>, b: seq<Bucket>)
  {
    |a| == |b| && forall i :: 0 <= i < |a| ==> a[i].key == b[i].key
  }

  // ---------------------------------------------------------------------
  // Aggregation over samples (lines 72-73)
  // ---------------------------------------------------------------------

  /** Some row carries the clean label; `xs` at line 74 raises a KeyError otherwise. */
  predicate HasCleanLabel(rows: seq<Row>, clean: string)
  {
    exists i :: 0 <= i < |rows| && rows[i].transform == clean
  }

  predicate HasMetrics(rows: seq<Row>, ms: set<string>)
  {
    forall i :: 0 <= i < |rows| ==> ms <= rows[i].values.Keys
  }

  /** The metric columns some row lacks (pandas raises a KeyError for them). */
  function MissingMetrics(rows: seq<Row>, ms: set<string>): (missing: set<string>)
    ensures missing <= ms
    ensures missing == {} <==> HasMetrics(rows, ms)
  {
    var missing := set m | m in ms && exists i :: 0 <= i < |rows| && m !in rows[i].values;
    assert missing == {} ==> HasMetrics(rows, ms) by {
      if missing == {} {
        forall i, m | 0 <= i < |rows| && m in ms ensures m in rows[i].values {
          assert m !in rows[i].values ==> m in missing;
        }
      }
    }
    missing
  }

  /** The rows of one bucket, in table order. */
  function Select(rows: seq<Row>, k: BucketKey): seq<Row>
  {
    Filter(rows, (r: Row) => KeyOf(r) == k)
  }

  function Column(rows: seq<Row>, m: string): (xs: seq<real>)
    requires forall i :: 0 <= i < |rows| ==> m in rows[i].values
    ensures |xs| == |rows|
  {
    seq(|rows|, i requires 0 <= i < |rows| => rows[i].values[m])
  }

  /** The distinct index values of the table, in order of first appearance. */
  function RowKeys(rows: seq<Row>): (ks: seq<BucketKey>)
    ensures Distinct(ks)
    ensures forall i :: 0 <= i < |rows| ==> KeyOf(rows[i]) in ks
    ensures forall j :: 0 <= j < |ks| ==> exists i :: 0 <= i < |rows| && KeyOf(rows[i]) == ks[j]
  {
    var s := seq(|rows|, i requires 0 <= i < |rows| => KeyOf(rows[i]));
    var ks := Dedup(s);
    assert forall i :: 0 <= i < |rows| ==> KeyOf(rows[i]) in ks by {
      forall i | 0 <= i < |rows| ensures KeyOf(rows[i]) in ks {
        assert s[i] in ks;
      }
    }
    assert forall j :: 0 <= j < |ks| ==> exists i :: 0 <= i < |rows| && KeyOf(rows[i]) == ks[j] by {
      forall j | 0 <= j < |ks| ensures exists i :: 0 <= i < |rows| && KeyOf(rows[i]) == ks[j] {
        assert ks[j] in s;
      }
    }
    ks
  }

  function StatsOf(rows: seq<Row>, ms: set<string>, spread: Spread): (s: Stats)
    requires |rows| > 0
    requires HasMetrics(rows, ms)
    ensures s.Keys == ms
  {
    map m | m in ms :: Stat(Mean(Column(rows, m)), spread(Column(rows, m)))
  }

  lemma SelectNonEmpty(rows: seq<Row>, k: BucketKey)
    requires k in RowKeys(rows)
    ensures |Select(rows, k)| > 0
  {
    var ks := RowKeys(rows);
    var j :| 0 <= j < |ks| && ks[j] == k;
    var i :| 0 <= i < |rows| && KeyOf(rows[i]) == k;
    assert rows[i] in Select(rows, k);
  }

  /** The aggregated row of one index value: each metric's mean over the bucket's rows and its spread. */
  function BucketOf(rows: seq<Row>, k: BucketKey, ms: set<string>, spread: Spread): (b: Bucket)
    requires HasMetrics(rows, ms)
    requires k in RowKeys(rows)
    ensures b.key == k && b.stats.Keys == ms
    ensures |Select(rows, k)| > 0 && HasMetrics(Select(rows, k), ms)
    ensures forall m :: m in ms ==> b.stats[m].mean == Mean(Column(Select(rows, k), m))
  {
    SelectNonEmpty(rows, k);
    SelectHasMetrics(rows, k, ms);
    Bucket(k, StatsOf(Select(rows, k), ms, spread))
  }

  /** `df.groupby(grouping_cols + [transform_col, severity_col])[metrics].agg(['mean', 'std'])`. */
  function Aggregate(rows: seq<Row>, ms: set<string>, spread: Spread): (agg: seq<Bucket>)
    requires HasMetrics(rows, ms)
    ensures |agg| == |RowKeys(rows)|
    ensures forall j :: 0 <= j < |agg| ==> agg[j].key == RowKeys(rows)[j]
    ensures forall j :: 0 <= j < |agg| ==> agg[j] == BucketOf(rows, RowKeys(rows)[j], ms, spread)
    ensures Uniform(agg, ms)
  {
    var ks := RowKeys(rows);
    var agg := seq(|ks|, j requires 0 <= j < |ks| => BucketOf(rows, ks[j], ms, spread));
    assert Uniform(agg, ms) by {
      forall b | b in agg ensures b.stats.Keys == ms {
        var j :| 0 <= j < |agg| && agg[j] == b;
      }
    }
    agg
  }

  /** The index values of a frame. */
  function KeySet(agg: seq<Bucket>): set<BucketKey>
  {
    set b | b in agg :: b.key
  }

  /** The (group, transform, severity) values of a table. */
  function RowKeySet(rows: seq<Row>): set<BucketKey>
  {
    set r | r in rows :: KeyOf(r)
  }

  /** `agg` is indexed by the distinct (group, transform, severity) values of `rows`, and by no other. */
  predicate IndexedBy(agg: seq<Bucket>, rows: seq<Row>)
  {
    && (forall i, j :: 0 <= i < j < |agg| ==> agg[i].key != agg[j].key)
    && KeySet(agg) == RowKeySet(rows)
  }

  /**
   * The aggregated frame has one bucket per distinct (group, transform, severity)
   * of the table and no other.
   */
  lemma AggregateKeys(rows: seq<Row>, ms: set<string>, spread: Spread)
    requires HasMetrics(rows, ms)
    ensures IndexedBy(Aggregate(rows, ms, spread), rows)
  {
    var agg := Aggregate(rows, ms, spread);
    var ks := RowKeys(rows);
    forall r | r in rows ensures KeyOf(r) in KeySet(agg) {
      var i :| 0 <= i < |rows| && rows[i] == r;
      var j :| 0 <= j < |ks| && ks[j] == KeyOf(r);
      assert agg[j] in agg;
    }
    forall b | b in agg ensures b.key in RowKeySet(rows) {
      var j :| 0 <= j < |agg| && agg[j] == b;
      var i :| 0 <= i < |rows| && KeyOf(rows[i]) == ks[j];
      assert rows[i] in rows;
    }
  }

  lemma SelectHasMetrics(rows: seq<Row>, k: BucketKey, ms: set<string>)
    requires HasMetrics(rows, ms)
    ensures HasMetrics(Select(rows, k), ms)
  {
    var sel := Select(rows, k);
    forall i | 0 <= i < |sel| ensures ms <= sel[i].values.Keys {
      assert sel[i] in rows;
    }
  }

  // ---------------------------------------------------------------------
  // Clean rows (lines 74-76)
  // ---------------------------------------------------------------------

  /** The buckets of group `g` whose transform is the clean label. */
  function CleanBuckets(agg: seq<Bucket>, clean: string, g: GroupKey): seq<Bucket>
  {
    Filter(agg, (b: Bucket) => b.key.transform == clean && b.key.group == g)
  }

  /** The distinct groups of a frame, in order of first appearance. */
  function Groups(agg: seq<Bucket>): (gs: seq<GroupKey>)
    ensures forall i :: 0 <= i < |agg| ==> agg[i].key.group in gs
    ensures forall i :: 0 <= i < |gs| ==> exists j :: 0 <= j < |agg| && agg[j].key.group == gs[i]
  {
    var s := seq(|agg|, i requires 0 <= i < |agg| => agg[i].key.group);
    var gs := Dedup(s);
    assert forall i :: 0 <= i < |agg| ==> agg[i].key.group in gs by {
      forall i | 0 <= i < |agg| ensures agg[i].key.group in gs {
        assert s[i] in gs;
      }
    }
    assert forall i :: 0 <= i < |gs| ==> exists j :: 0 <= j < |agg| && agg[j].key.group == gs[i] by {
      forall i | 0 <= i < |gs| ensures exists j :: 0 <= j < |agg| && agg[j].key.group == gs[i] {
        assert gs[i] in s;
      }
    }
    gs
  }

  /** Every group of the frame has exactly one clean bucket. */
  predicate BaselineUnique(agg: seq<Bucket>, clean: string)
  {
    forall b :: b in agg ==> |CleanBuckets(agg, clean, b.key.group)| == 1
  }

  /** The first group, in the order of `gs`, without exactly one clean bucket. */
  function FirstBaselineError(gs: seq<GroupKey>, agg: seq<Bucket>, clean: string): (e: Option<Error>)
    ensures e.None? <==> forall i :: 0 <= i < |gs| ==> |CleanBuckets(agg, clean, gs[i])| == 1
    ensures e.Some? ==> exists i :: (0 <= i < |gs| &&
              ((e.value == MissingBaseline(gs[i]) && |CleanBuckets(agg, clean, gs[i])| == 0) ||
               (e.value == DuplicateBaseline(gs[i]) && |CleanBuckets(agg, clean, gs[i])| > 1)))
  {
    if gs == [] then None
    else
      var n := |CleanBuckets(agg, clean, gs[0])|;
      if n == 0 then Some(MissingBaseline(gs[0]))
      else if n > 1 then Some(DuplicateBaseline(gs[0]))
      else
        var e := FirstBaselineError(gs[1..], agg, clean);
        assert e.Some? ==> exists i :: (1 <= i < |gs| &&
          ((e.value == MissingBaseline(gs[i]) && |CleanBuckets(agg, clean, gs[i])| == 0) ||
           (e.value == DuplicateBaseline(gs[i]) && |CleanBuckets(agg, clean, gs[i])| > 1))) by {
          if e.Some? {
            var i :| 0 <= i < |gs[1..]| &&
              ((e.value == MissingBaseline(gs[1..][i]) && |CleanBuckets(agg, clean, gs[1..][i])| == 0) ||
               (e.value == DuplicateBaseline(gs[1..][i]) && |CleanBuckets(agg, clean, gs[1..][i])| > 1));
            assert gs[1..][i] == gs[i + 1];
          }
        }
        e
  }

  /**
   * The explicit check that replaces pandas' silent alignment: a group
   * without a clean bucket, or with more than one, is an error.
   */
  function BaselineError(agg: seq<Bucket>, clean: string): (e: Option<Error>)
    ensures e.None? <==> BaselineUnique(agg, clean)
    ensures e.Some? ==> e.value.MissingBaseline? || e.value.DuplicateBaseline?
  {
    FirstBaselineError(Groups(agg), agg, clean)
  }

  /** The groups of a frame, as a set. */
  function GroupSet(agg: seq<Bucket>): set<GroupKey>
  {
    set b | b in agg :: b.key.group
  }

  /** The statistics of the one clean bucket of group `g`. */
  function CleanStats(agg: seq<Bucket>, clean: string, g: GroupKey): (st: Stats)
    requires |CleanBuckets(agg, clean, g)| == 1
    ensures exists b :: b in agg && b.key.transform == clean && b.key.group == g && st == b.stats
    ensures forall b :: b in agg && b.key.transform == clean && b.key.group == g ==> st == b.stats
  {
    var cb := CleanBuckets(agg, clean, g);
    assert cb[0] in cb;
    assert forall b :: b in agg && b.key.transform == clean && b.key.group == g ==> b == cb[0] by {
      forall b | b in agg && b.key.transform == clean && b.key.group == g ensures b == cb[0] {
        var i :| 0 <= i < |agg| && agg[i] == b;
        assert b in cb;
      }
    }
    cb[0].stats
  }

  /**
   * `clean_rows`: the clean buckets re-keyed by group alone, transform and
   * severity dropped. Every clean bucket's statistics are found under its group.
   */
  function Baseline(agg: seq<Bucket>, clean: string): (base: map<GroupKey, Stats>)
    requires BaselineUnique(agg, clean)
    ensures base.Keys == GroupSet(agg)
    ensures forall b :: b in agg && b.key.transform == clean ==> base[b.key.group] == b.stats
    ensures forall g :: g in base ==> exists b :: b in agg && b.key.transform == clean && b.key.group == g && base[g] == b.stats
  {
    map g | g in GroupSet(agg) :: CleanStats(agg, clean, g)
  }

  /** `agg.drop(clean_label, level=transform_col)`: every bucket but the clean ones, in order. */
  function Perturbed(agg: seq<Bucket>, clean: string): (p: seq<Bucket>)
    ensures forall i :: 0 <= i < |p| ==> p[i] in agg && p[i].key.transform != clean
    ensures forall i :: 0 <= i < |agg| && agg[i].key.transform != clean ==> agg[i] in p
  {
    Filter(agg, (b: Bucket) => b.key.transform != clean)
  }

  // ---------------------------------------------------------------------
  // Per-(group, transform) series
  // ---------------------------------------------------------------------

  /** The buckets of one (group, transform), as `groupby(grouping_cols + [transform_col])` sees them. */
  function Members(bs: seq<Bucket>, g: GroupKey, t: string): (r: seq<Bucket>)
    ensures forall b :: b in r <==> b in bs && b.key.group == g && b.key.transform == t
  {
    var r := Filter(bs, (b: Bucket) => b.key.group == g && b.key.transform == t);
    assert forall b :: b in bs && b.key.group == g && b.key.transform == t ==> b in r by {
      forall b | b in bs && b.key.group == g && b.key.transform == t ensures b in r {
        var i :| 0 <= i < |bs| && bs[i] == b;
      }
    }
    r
  }

  /** One metric column of a set of buckets, tagged with each bucket's severity. */
  function Series(bs: seq<Bucket>, m: string, p: Part): (ps: seq<Point>)
    requires forall b :: b in bs ==> m in b.stats
    ensures |ps| == |bs|
    ensures forall i :: 0 <= i < |bs| ==> ps[i] == Point(bs[i].key.severity, Get(bs[i].stats[m], p))
  {
    seq(|bs|, i requires 0 <= i < |bs| => Point(bs[i].key.severity, Get(bs[i].stats[m], p)))
  }

  /** The distinct (group, transform) pairs of a frame, in order of first appearance. */
  function Pairs(bs: seq<Bucket>): (pairs: seq<(GroupKey, string)>)
    ensures Distinct(pairs)
    ensures forall i :: 0 <= i < |pairs| ==> exists j :: 0 <= j < |bs| && bs[j].key.group == pairs[i].0 && bs[j].key.transform == pairs[i].1
    ensures forall j :: 0 <= j < |bs| ==> (bs[j].key.group, bs[j].key.transform) in pairs
  {
    var s := seq(|bs|, i requires 0 <= i < |bs| => (bs[i].key.group, bs[i].key.transform));
    var pairs := Dedup(s);
    assert forall i :: 0 <= i < |pairs| ==> exists j :: 0 <= j < |bs| && bs[j].key.group == pairs[i].0 && bs[j].key.transform == pairs[i].1 by {
      forall i | 0 <= i < |pairs| ensures exists j :: 0 <= j < |bs| && bs[j].key.group == pairs[i].0 && bs[j].key.transform == pairs[i].1 {
        assert pairs[i] in s;
      }
    }
    assert forall j :: 0 <= j < |bs| ==> (bs[j].key.group, bs[j].key.transform) in pairs by {
      forall j | 0 <= j < |bs| ensures (bs[j].key.group, bs[j].key.transform) in pairs {
        assert s[j] in pairs;
      }
    }
    pairs
  }

  // ---------------------------------------------------------------------
  // Overall (lines 77-86)
  // ---------------------------------------------------------------------

  /**
   * The Overall section of one (group, transform): for each metric and for
   * the mean and the std alike, `(Σ w·v + clean) / (Σ w + 1)` with `w = alpha_oa ** severity`.
   */
  function OverallStats(members: seq<Bucket>, base: Stats, alpha: real): (r: Stats)
    requires alpha > 0.0
    requires Uniform(members, base.Keys)
    ensures r.Keys == base.Keys
  {
    map m | m in base ::
      Stat(OverallScore(Series(members, m, MeanPart), alpha, base[m].mean),
           OverallScore(Series(members, m, StdPart), alpha, base[m].std))
  }

  // ---------------------------------------------------------------------
  // Degradation (lines 88-96)
  // ---------------------------------------------------------------------

  /** One row of `agg - clean_rows`: each metric's mean and std minus the clean ones. */
  function DeltaStats(s: Stats, base: Stats): (d: Stats)
    requires s.Keys <= base.Keys
    ensures d.Keys == s.Keys
  {
    map m | m in s :: Stat(s[m].mean - base[m].mean, s[m].std - base[m].std)
  }

  /** `deg_metrics = agg - clean_rows`, the clean row looked up by group. */
  function Deltas(bs: seq<Bucket>, baseline: map<GroupKey, Stats>): (d: seq<Bucket>)
    requires forall b :: b in bs ==> b.key.group in baseline && b.stats.Keys <= baseline[b.key.group].Keys
    ensures Aligned(bs, d)
    ensures forall i :: 0 <= i < |bs| ==> d[i].stats == DeltaStats(bs[i].stats, baseline[bs[i].key.group])
  {
    seq(|bs|, i requires 0 <= i < |bs| =>
          Bucket(bs[i].key, DeltaStats(bs[i].stats, baseline[bs[i].key.group])))
  }

  /** The metrics flagged higher-is-better in `metric_cols`. */
  function HigherIsBetter(metrics: MetricSpec): (hs: set<string>)
    ensures forall m :: m in hs <==> m in metrics && metrics[m]
  {
    set m | m in metrics && metrics[m]
  }

  /**
   * The direction flip of lines 89-92: the mean of each metric in `flips` is
   * negated; every std is left as it is.
   */
  function Flip(s: Stats, flips: set<string>): (r: Stats)
    ensures r.Keys == s.Keys
    ensures forall m :: m in s ==> r[m].std == s[m].std
    ensures forall m :: m in s ==> r[m].mean == (if m in flips then -s[m].mean else s[m].mean)
  {
    map m | m in s :: if m in flips then Stat(-s[m].mean, s[m].std) else s[m]
  }

  /** The direction flip applied to every row of a frame. */
  function Normalize(bs: seq<Bucket>, flips: set<string>): (r: seq<Bucket>)
    ensures Aligned(bs, r)
    ensures forall i :: 0 <= i < |bs| ==> r[i].stats == Flip(bs[i].stats, flips)
  {
    seq(|bs|, i requires 0 <= i < |bs| => Bucket(bs[i].key, Flip(bs[i].stats, flips)))
  }

  /**
   * The Degradation section of one (group, transform): for each metric,
   * `Σ w·d / Σ w` of its (already flipped) deltas with `w = alpha_deg ** severity`.
   */
  function DegradationStats(members: seq<Bucket>, ms: set<string>, alpha: real): (r: Stats)
    requires alpha > 0.0
    requires |members| > 0
    requires Uniform(members, ms)
    ensures r.Keys == ms
  {
    map m | m in ms ::
      Stat(WeightedMean(Series(members, m, MeanPart), alpha),
           WeightedMean(Series(members, m, StdPart), alpha))
  }

  // ---------------------------------------------------------------------
  // Combination (lines 98-99)
  // ---------------------------------------------------------------------

  /** What the scoring stages need of the perturbed frame, its deltas and the clean rows. */
  predicate Scorable(perturbed: seq<Bucket>, deltas: seq<Bucket>, baseline: map<GroupKey, Stats>,
                     ms: set<string>)
  {
    && Uniform(perturbed, ms)
    && Uniform(deltas, ms)
    && Aligned(perturbed, deltas)
    && forall b :: b in perturbed ==> b.key.group in baseline && baseline[b.key.group].Keys == ms
  }

  lemma MembersNonEmpty(perturbed: seq<Bucket>, deltas: seq<Bucket>, g: GroupKey, t: string)
    requires Aligned(perturbed, deltas)
    requires exists j :: 0 <= j < |perturbed| && perturbed[j].key.group == g && perturbed[j].key.transform == t
    ensures |Members(perturbed, g, t)| > 0
    ensures |Members(deltas, g, t)| > 0
  {
    var j :| 0 <= j < |perturbed| && perturbed[j].key.group == g && perturbed[j].key.transform == t;
    assert perturbed[j] in Members(perturbed, g, t);
    assert deltas[j] in Members(deltas, g, t);
  }

  /** The `combined` row of one (group, transform): its Overall and Degradation sections joined. */
  function ScoreRowOf(perturbed: seq<Bucket>, deltas: seq<Bucket>, baseline: map<GroupKey, Stats>,
                      ms: set<string>, alphaOa: real, alphaDeg: real, g: GroupKey, t: string): (row: ScoreRow)
    requires alphaOa > 0.0 && alphaDeg > 0.0
    requires Scorable(perturbed, deltas, baseline, ms)
    requires exists j :: 0 <= j < |perturbed| && perturbed[j].key.group == g && perturbed[j].key.transform == t
    ensures row.group == g && row.transform == t
    ensures row.overall.Keys == ms && row.degradation.Keys == ms
    ensures |Members(perturbed, g, t)| > 0 && |Members(deltas, g, t)| > 0
    ensures Uniform(Members(perturbed, g, t), baseline[g].Keys) && Uniform(Members(deltas, g, t), ms)
    ensures row.overall == OverallStats(Members(perturbed, g, t), baseline[g], alphaOa)
    ensures row.degradation == DegradationStats(Members(deltas, g, t), ms, alphaDeg)
  {
    MembersNonEmpty(perturbed, deltas, g, t);
    var j :| 0 <= j < |perturbed| && perturbed[j].key.group == g && perturbed[j].key.transform == t;
    assert perturbed[j] in perturbed;
    ScoreRow(g, t, OverallStats(Members(perturbed, g, t), baseline[g], alphaOa),
             DegradationStats(Members(deltas, g, t), ms, alphaDeg))
  }

  /** `combined`: one row per (group, transform) of the perturbed frame, and no other. */
  function ScoreRows(perturbed: seq<Bucket>, deltas: seq<Bucket>, baseline: map<GroupKey, Stats>,
                     ms: set<string>, alphaOa: real, alphaDeg: real): (rows: seq<ScoreRow>)
    requires alphaOa > 0.0 && alphaDeg > 0.0
    requires Scorable(perturbed, deltas, baseline, ms)
    ensures |rows| == |Pairs(perturbed)|
    ensures RowsUniform(rows, ms)
    ensures forall i :: 0 <= i < |rows| ==>
              rows[i] == ScoreRowOf(perturbed, deltas, baseline, ms, alphaOa, alphaDeg,
                                    Pairs(perturbed)[i].0, Pairs(perturbed)[i].1)
  {
    var pairs := Pairs(perturbed);
    var rows := seq(|pairs|, i requires 0 <= i < |pairs| =>
                      ScoreRowOf(perturbed, deltas, baseline, ms, alphaOa, alphaDeg, pairs[i].0, pairs[i].1));
    assert RowsUniform(rows, ms) by {
      forall r | r in rows ensures r.overall.Keys == ms && r.degradation.Keys == ms {
        var i :| 0 <= i < |rows| && rows[i] == r;
      }
    }
    rows
  }

  datatype Section = OverallSection | DegradationSection

  function SectionOf(row: ScoreRow, s: Section): Stats
  {
    match s
    case OverallSection => row.overall
    case DegradationSection => row.degradation
  }

  function GroupSectionOf(row: GroupRow, s: Section): Stats
  {
    match s
    case OverallSection => row.overall
    case DegradationSection => row.degradation
  }

  /** Every score row holds exactly the metrics `ms` in both sections. */
  predicate RowsUniform(rows: seq<ScoreRow>, ms: set<string>)
  {
    forall r :: r in rows ==> r.overall.Keys == ms && r.degradation.Keys == ms
  }

  /** The rows of `combined` that belong to group `g`. */
  function RowsOfGroup(rows: seq<ScoreRow>, g: GroupKey): (r: seq<ScoreRow>)
    ensures forall x :: x in r <==> x in rows && x.group == g
  {
    var r := Filter(rows, (x: ScoreRow) => x.group == g);
    assert forall x :: x in rows && x.group == g ==> x in r by {
      forall x | x in rows && x.group == g ensures x in r {
        var i :| 0 <= i < |rows| && rows[i] == x;
      }
    }
    r
  }

  /** One column of `combined`: a section, a metric and its mean or std, row by row. */
  function ScoreColumn(rows: seq<ScoreRow>, s: Section, m: string, p: Part): (xs: seq<real>)
    requires forall r :: r in rows ==> m in SectionOf(r, s)
    ensures |xs| == |rows|
  {
    seq(|rows|, i requires 0 <= i < |rows| => Get(SectionOf(rows[i], s)[m], p))
  }

  /** The rollup of one section of one group: per metric, the unweighted mean over its transforms. */
  function RollupStats(rows: seq<ScoreRow>, s: Section, ms: set<string>): (r: Stats)
    requires |rows| > 0
    requires RowsUniform(rows, ms)
    ensures r.Keys == ms
  {
    map m | m in ms :: Stat(Mean(ScoreColumn(rows, s, m, MeanPart)), Mean(ScoreColumn(rows, s, m, StdPart)))
  }

  /** The distinct groups of `combined`, in order of first appearance. */
  function RowGroups(rows: seq<ScoreRow>): (gs: seq<GroupKey>)
    ensures Distinct(gs)
    ensures forall i :: 0 <= i < |gs| ==> exists j :: 0 <= j < |rows| && rows[j].group == gs[i]
    ensures forall j :: 0 <= j < |rows| ==> rows[j].group in gs
  {
    var s := seq(|rows|, i requires 0 <= i < |rows| => rows[i].group);
    var gs := Dedup(s);
    assert forall i :: 0 <= i < |gs| ==> exists j :: 0 <= j < |rows| && rows[j].group == gs[i] by {
      forall i | 0 <= i < |gs| ensures exists j :: 0 <= j < |rows| && rows[j].group == gs[i] {
        assert gs[i] in s;
      }
    }
    assert forall j :: 0 <= j < |rows| ==> rows[j].group in gs by {
      forall j | 0 <= j < |rows| ensures rows[j].group in gs {
        assert s[j] in gs;
      }
    }
    gs
  }

  /** The `combined_agg` row of group `g`: both sections rolled up over the group's transforms. */
  function GroupRowOf(rows: seq<ScoreRow>, ms: set<string>, g: GroupKey): (r: GroupRow)
    requires RowsUniform(rows, ms)
    requires exists j :: 0 <= j < |rows| && rows[j].group == g
    ensures r.group == g && |RowsOfGroup(rows, g)| > 0
    ensures r.overall == RollupStats(RowsOfGroup(rows, g), OverallSection, ms)
    ensures r.degradation == RollupStats(RowsOfGroup(rows, g), DegradationSection, ms)
  {
    var j :| 0 <= j < |rows| && rows[j].group == g;
    assert rows[j] in RowsOfGroup(rows, g);
    GroupRow(g, RollupStats(RowsOfGroup(rows, g), OverallSection, ms),
             RollupStats(RowsOfGroup(rows, g), DegradationSection, ms))
  }

  /** `combined.groupby(grouping_cols).agg('mean')`: one row per group of `combined`. */
  function Rollup(rows: seq<ScoreRow>, ms: set<string>): (out: seq<GroupRow>)
    requires RowsUniform(rows, ms)
    ensures |out| == |RowGroups(rows)|
    ensures forall i :: 0 <= i < |out| ==> out[i] == GroupRowOf(rows, ms, RowGroups(rows)[i])
  {
    var gs := RowGroups(rows);
    seq(|gs|, i requires 0 <= i < |gs| => GroupRowOf(rows, ms, gs[i]))
  }

  // ---------------------------------------------------------------------
  // The whole computation
  // ---------------------------------------------------------------------

  /** `combined`: no clean row, one row per (group, transform), every metric in both sections. */
  predicate CombinedShape(combined: seq<ScoreRow>, ms: set<string>, clean: string)
  {
    && (forall i :: 0 <= i < |combined| ==> combined[i].transform != clean)
    && (forall i, j :: 0 <= i < j < |combined| ==>
          (combined[i].group, combined[i].transform) != (combined[j].group, combined[j].transform))
    && RowsUniform(combined, ms)
  }

  /** `combined_agg`: one row per group of `combined`, every metric in both sections. */
  predicate RollupShape(combined: seq<ScoreRow>, combinedAgg: seq<GroupRow>, ms: set<string>)
  {
    && (forall i, j :: 0 <= i < j < |combinedAgg| ==> combinedAgg[i].group != combinedAgg[j].group)
    && (forall i :: 0 <= i < |combinedAgg| ==>
          combinedAgg[i].overall.Keys == ms && combinedAgg[i].degradation.Keys == ms &&
          exists j :: 0 <= j < |combined| && combined[j].group == combinedAgg[i].group)
    && (forall j :: 0 <= j < |combined| ==>
          exists i :: 0 <= i < |combinedAgg| && combinedAgg[i].group == combined[j].group)
  }

  /** What `calculate_metrics` promises about the shape of its two tables. */
  predicate OutputShape(out: Output, ms: set<string>, clean: string)
  {
    CombinedShape(out.combined, ms, clean) && RollupShape(out.combined, out.combinedAgg, ms)
  }

  lemma PerturbedScorable(agg: seq<Bucket>, ms: set<string>, clean: string, flips: set<string>)
    requires Uniform(agg, ms)
    requires BaselineUnique(agg, clean)
    ensures var baseline := Baseline(agg, clean);
            var perturbed := Perturbed(agg, clean);
            && (forall b :: b in perturbed ==> b.key.group in baseline && b.stats.Keys <= baseline[b.key.group].Keys)
            && Scorable(perturbed, Normalize(Deltas(perturbed, baseline), flips), baseline, ms)
  {
    var baseline := Baseline(agg, clean);
    var perturbed := Perturbed(agg, clean);
    forall b | b in perturbed ensures b.key.group in baseline && baseline[b.key.group].Keys == ms {
      assert b in agg;
      var cb := CleanBuckets(agg, clean, b.key.group);
      assert cb[0] in cb;
      assert baseline[b.key.group] == cb[0].stats;
    }
    var raw := Deltas(perturbed, baseline);
    var deltas := Normalize(raw, flips);
    forall j | 0 <= j < |deltas| ensures deltas[j].stats.Keys == ms {
      assert perturbed[j].stats.Keys == ms by {
        assert perturbed[j] in agg;
      }
      assert raw[j].stats.Keys == ms;
    }
  }

  /** Scoring once the checks have passed: lines 74-99 on the aggregated frame. */
  function Score(agg: seq<Bucket>, metrics: MetricSpec, clean: string, alphaOa: real, alphaDeg: real): (out: Output)
    requires alphaOa > 0.0 && alphaDeg > 0.0
    requires Uniform(agg, metrics.Keys)
    requires BaselineUnique(agg, clean)
    ensures RowsUniform(out.combined, metrics.Keys)
  {
    var baseline := Baseline(agg, clean);
    var perturbed := Perturbed(agg, clean);
    PerturbedScorable(agg, metrics.Keys, clean, HigherIsBetter(metrics));
    var deltas := Normalize(Deltas(perturbed, baseline), HigherIsBetter(metrics));
    var combined := ScoreRows(perturbed, deltas, baseline, metrics.Keys, alphaOa, alphaDeg);
    Output(combined, Rollup(combined, metrics.Keys))
  }

  /**
   * `calculate_metrics(df, transform_col, severity_col, metric_cols, clean_label,
   * grouping_cols, alpha_oa, alpha_deg)`, with its failures made explicit.
   */
  function Calculate(rows: seq<Row>, metrics: MetricSpec, clean: string, alphaOa: real, alphaDeg: real,
                     spread: Spread): (r: Result<Output, Error>)
    ensures (r.Failure? && r.error.InvalidDecayRate?) <==> (alphaOa <= 0.0 || alphaDeg <= 0.0)
    ensures alphaOa > 0.0 && alphaDeg > 0.0 ==>
              ((r.Failure? && r.error.MissingColumn?) <==> !HasMetrics(rows, metrics.Keys))
    ensures alphaOa > 0.0 && alphaDeg > 0.0 && HasMetrics(rows, metrics.Keys) ==>
              ((r.Failure? && r.error.MissingCleanLabel?) <==> !HasCleanLabel(rows, clean))
  {
    if alphaOa <= 0.0 then Failure(InvalidDecayRate(alphaOa))
    else if alphaDeg <= 0.0 then Failure(InvalidDecayRate(alphaDeg))
    else
      var missing := MissingMetrics(rows, metrics.Keys);
      if missing != {} then Failure(MissingColumn(missing))
      else if !HasCleanLabel(rows, clean) then Failure(MissingCleanLabel(clean))
      else
        var agg := Aggregate(rows, metrics.Keys, spread);
        match BaselineError(agg, clean)
        case Some(e) => Failure(e)
        case None => Success(Score(agg, metrics, clean, alphaOa, alphaDeg))
  }
}
