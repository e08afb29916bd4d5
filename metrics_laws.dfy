/**
 * What `calculate_metrics` promises about its scores, stage by stage and for
 * the whole computation: the Overall score stays between the clean and the
 * perturbed values, an unaffected transform scores exactly its clean value
 * and a Degradation of zero, the direction flip makes every worsening
 * positive, the rollup stays within its transforms, and each failure names
 * a real defect of the input.
 */
module MetricsLaws {
  import opened Wrappers
  import opened Seqs
  import opened Scoring
  import opened Metrics

  // ---------------------------------------------------------------------
  // Overall
  // ---------------------------------------------------------------------

  /** One metric's Overall mean or std is that same weighted score of its series. */
  lemma OverallStatsOf(members: seq<Bucket>, base: Stats, alpha: real, m: string, p: Part)
    requires alpha > 0.0
    requires Uniform(members, base.Keys)
    requires m in base
    ensures Get(OverallStats(members, base, alpha)[m], p) ==
            OverallScore(Series(members, m, p), alpha, Get(base[m], p))
  {
    match p
    case MeanPart =>
    case StdPart =>
  }

  /**
   * An Overall score lies between the lowest and the highest of the clean
   * value and the perturbed values it averages.
   */
  lemma OverallStatsBetween(members: seq<Bucket>, base: Stats, alpha: real, m: string, p: Part,
                            lo: real, hi: real)
    requires alpha > 0.0
    requires Uniform(members, base.Keys)
    requires m in base
    requires lo <= Get(base[m], p) <= hi
    requires forall b :: b in members ==> lo <= Get(b.stats[m], p) <= hi
    ensures lo <= Get(OverallStats(members, base, alpha)[m], p) <= hi
  {
    var ps := Series(members, m, p);
    forall i | 0 <= i < |ps| ensures lo <= ps[i].value <= hi {
      assert members[i] in members;
    }
    OverallBetween(ps, alpha, Get(base[m], p), lo, hi);
    OverallStatsOf(members, base, alpha, m, p);
  }

  /** A transform that leaves a metric as it was scores exactly the clean statistics. */
  lemma OverallStatsUnchanged(members: seq<Bucket>, base: Stats, alpha: real, m: string)
    requires alpha > 0.0
    requires Uniform(members, base.Keys)
    requires m in base
    requires forall b :: b in members ==> b.stats[m] == base[m]
    ensures OverallStats(members, base, alpha)[m] == base[m]
  {
    OverallStatsBetween(members, base, alpha, m, MeanPart, base[m].mean, base[m].mean);
    OverallStatsBetween(members, base, alpha, m, StdPart, base[m].std, base[m].std);
  }

  // ---------------------------------------------------------------------
  // Degradation
  // ---------------------------------------------------------------------

  /** The perturbed value is worse than the clean one, in the metric's own direction. */
  predicate Worse(value: real, clean: real, higherIsBetter: bool)
  {
    if higherIsBetter then value < clean else value > clean
  }

  /**
   * After the flip, a delta's mean is positive exactly when the perturbed
   * mean is worse than the clean one, whatever the metric's direction; the
   * std delta is never flipped.
   */
  lemma DeltaSign(s: Stats, base: Stats, flips: set<string>, m: string)
    requires s.Keys <= base.Keys
    requires m in s
    ensures var d := Flip(DeltaStats(s, base), flips)[m];
      && d.std == s[m].std - base[m].std
      && d.mean == (if m in flips then base[m].mean - s[m].mean else s[m].mean - base[m].mean)
      && (d.mean > 0.0 <==> Worse(s[m].mean, base[m].mean, m in flips))
      && (d.mean == 0.0 <==> s[m].mean == base[m].mean)
  {
  }

  /** The flipped deltas of the members of one (group, transform), bucket by bucket. */
  lemma DeltaMember(perturbed: seq<Bucket>, baseline: map<GroupKey, Stats>, flips: set<string>,
                    g: GroupKey, t: string, x: Bucket)
    requires forall b :: b in perturbed ==> b.key.group in baseline && b.stats.Keys <= baseline[b.key.group].Keys
    requires x in Members(Normalize(Deltas(perturbed, baseline), flips), g, t)
    ensures exists b :: b in Members(perturbed, g, t) && x.key == b.key &&
                        x.stats == Flip(DeltaStats(b.stats, baseline[g]), flips)
  {
    var d := Normalize(Deltas(perturbed, baseline), flips);
    var i :| 0 <= i < |d| && d[i] == x;
    assert perturbed[i] in Members(perturbed, g, t);
  }

  /**
   * A transform that leaves a metric's mean (or its std) as it was has a
   * Degradation of zero in that part, whatever the other part does.
   */
  lemma DegradationOfUnchanged(perturbed: seq<Bucket>, baseline: map<GroupKey, Stats>, flips: set<string>,
                               ms: set<string>, alpha: real, g: GroupKey, t: string, m: string, p: Part)
    requires alpha > 0.0
    requires forall b :: b in perturbed ==> b.key.group in baseline && b.stats.Keys <= baseline[b.key.group].Keys
    requires Uniform(Normalize(Deltas(perturbed, baseline), flips), ms)
    requires m in ms
    requires |Members(perturbed, g, t)| > 0
    requires forall b :: b in Members(perturbed, g, t) ==> Get(b.stats[m], p) == Get(baseline[g][m], p)
    ensures |Members(Normalize(Deltas(perturbed, baseline), flips), g, t)| > 0
    ensures Get(DegradationStats(Members(Normalize(Deltas(perturbed, baseline), flips), g, t), ms, alpha)[m], p)
            == 0.0
  {
    var d := Normalize(Deltas(perturbed, baseline), flips);
    var members := Members(d, g, t);
    assert Members(perturbed, g, t)[0] in perturbed;
    MembersNonEmpty(perturbed, d, g, t);
    var ps := Series(members, m, p);
    forall i | 0 <= i < |ps| ensures ps[i].value == 0.0 {
      assert members[i] in members;
      DeltaMember(perturbed, baseline, flips, g, t, members[i]);
      var b :| b in Members(perturbed, g, t) && members[i].key == b.key &&
               members[i].stats == Flip(DeltaStats(b.stats, baseline[g]), flips);
      DeltaOfUnchanged(b.stats, baseline[g], flips, m, p);
    }
    WeightedMeanOfZeros(ps, alpha);
    DegradationStatsOf(members, ms, alpha, m, p);
  }

  /** One metric's Degradation mean or std is the weighted mean of its series. */
  lemma DegradationStatsOf(members: seq<Bucket>, ms: set<string>, alpha: real, m: string, p: Part)
    requires alpha > 0.0
    requires |members| > 0
    requires Uniform(members, ms)
    requires m in ms
    ensures Get(DegradationStats(members, ms, alpha)[m], p) == WeightedMean(Series(members, m, p), alpha)
  {
    match p
    case MeanPart =>
    case StdPart =>
  }

  /** A part that equals its clean value has a flipped delta of zero. */
  lemma DeltaOfUnchanged(s: Stats, base: Stats, flips: set<string>, m: string, p: Part)
    requires s.Keys <= base.Keys
    requires m in s
    requires Get(s[m], p) == Get(base[m], p)
    ensures Get(Flip(DeltaStats(s, base), flips)[m], p) == 0.0
  {
    DeltaSign(s, base, flips, m);
  }

  /**
   * A transform that makes a metric worse at every severity, in the metric's
   * own direction, has a positive Degradation mean for it.
   */
  lemma DegradationOfWorse(perturbed: seq<Bucket>, baseline: map<GroupKey, Stats>, metrics: MetricSpec,
                           alpha: real, g: GroupKey, t: string, m: string)
    requires alpha > 0.0
    requires forall b :: b in perturbed ==> b.key.group in baseline && b.stats.Keys <= baseline[b.key.group].Keys
    requires Uniform(Normalize(Deltas(perturbed, baseline), HigherIsBetter(metrics)), metrics.Keys)
    requires m in metrics
    requires |Members(perturbed, g, t)| > 0
    requires forall b :: b in Members(perturbed, g, t) ==>
               Worse(b.stats[m].mean, baseline[g][m].mean, metrics[m])
    ensures |Members(Normalize(Deltas(perturbed, baseline), HigherIsBetter(metrics)), g, t)| > 0
    ensures DegradationStats(Members(Normalize(Deltas(perturbed, baseline), HigherIsBetter(metrics)), g, t),
                             metrics.Keys, alpha)[m].mean > 0.0
  {
    var flips := HigherIsBetter(metrics);
    var d := Normalize(Deltas(perturbed, baseline), flips);
    var members := Members(d, g, t);
    assert Members(perturbed, g, t)[0] in perturbed;
    MembersNonEmpty(perturbed, d, g, t);
    var ps := Series(members, m, MeanPart);
    forall i | 0 <= i < |ps| ensures ps[i].value > 0.0 {
      assert members[i] in members;
      DeltaMember(perturbed, baseline, flips, g, t, members[i]);
      var b :| b in Members(perturbed, g, t) && members[i].key == b.key &&
               members[i].stats == Flip(DeltaStats(b.stats, baseline[g]), flips);
      DeltaSign(b.stats, baseline[g], flips, m);
    }
    WeightedMeanPositive(ps, alpha);
  }

  // ---------------------------------------------------------------------
  // Rollup
  // ---------------------------------------------------------------------

  lemma RollupStatsBetween(rows: seq<ScoreRow>, s: Section, ms: set<string>, m: string, p: Part,
                           lo: real, hi: real)
    requires |rows| > 0
    requires RowsUniform(rows, ms)
    requires m in ms
    requires forall r :: r in rows ==> lo <= Get(SectionOf(r, s)[m], p) <= hi
    ensures lo <= Get(RollupStats(rows, s, ms)[m], p) <= hi
  {
    var xs := ScoreColumn(rows, s, m, p);
    forall i | 0 <= i < |xs| ensures lo <= xs[i] <= hi {
      assert rows[i] in rows;
    }
    MeanBetween(xs, lo, hi);
    match p
    case MeanPart =>
    case StdPart =>
  }

  /**
   * A group's rollup lies between the lowest and the highest score of the
   * group's transforms, section by section and metric by metric.
   */
  lemma RollupBetween(rows: seq<ScoreRow>, ms: set<string>, k: nat, s: Section, m: string, p: Part,
                      lo: real, hi: real)
    requires RowsUniform(rows, ms)
    requires k < |Rollup(rows, ms)|
    requires m in ms
    requires forall r :: r in rows && r.group == Rollup(rows, ms)[k].group ==> lo <= Get(SectionOf(r, s)[m], p) <= hi
    ensures m in GroupSectionOf(Rollup(rows, ms)[k], s)
    ensures lo <= Get(GroupSectionOf(Rollup(rows, ms)[k], s)[m], p) <= hi
  {
    var g := RowGroups(rows)[k];
    var group := RowsOfGroup(rows, g);
    assert Rollup(rows, ms)[k] == GroupRowOf(rows, ms, g);
    assert RowsUniform(group, ms);
    RollupStatsBetween(group, s, ms, m, p, lo, hi);
    match s
    case OverallSection =>
    case DegradationSection =>
  }

  /**
   * A group's rollup is, section by section, metric by metric and for the
   * mean and the std alike, the plain mean over the rows of `combined` that
   * belong to the group.
   */
  lemma RollupIsMean(rows: seq<ScoreRow>, ms: set<string>, k: nat, s: Section, m: string, p: Part)
    requires RowsUniform(rows, ms)
    requires k < |Rollup(rows, ms)|
    requires m in ms
    ensures var group := RowsOfGroup(rows, Rollup(rows, ms)[k].group);
      && |group| > 0
      && RowsUniform(group, ms)
      && m in GroupSectionOf(Rollup(rows, ms)[k], s)
      && Get(GroupSectionOf(Rollup(rows, ms)[k], s)[m], p) == Mean(ScoreColumn(group, s, m, p))
  {
    var g := RowGroups(rows)[k];
    var group := RowsOfGroup(rows, g);
    assert Rollup(rows, ms)[k] == GroupRowOf(rows, ms, g);
    assert RowsUniform(group, ms);
    RollupStatsOf(group, s, ms, m, p);
    match s
    case OverallSection =>
    case DegradationSection =>
  }

  /** One metric's rollup mean or std is the plain mean of that column over the rows. */
  lemma RollupStatsOf(rows: seq<ScoreRow>, s: Section, ms: set<string>, m: string, p: Part)
    requires |rows| > 0
    requires RowsUniform(rows, ms)
    requires m in ms
    ensures forall r :: r in rows ==> m in SectionOf(r, s)
    ensures Get(RollupStats(rows, s, ms)[m], p) == Mean(ScoreColumn(rows, s, m, p))
  {
    match p
    case MeanPart =>
    case StdPart =>
  }

  /**
   * The rollup weighs transforms equally: when every transform of a group
   * has the same score, the group has that score.
   */
  lemma RollupOfConstant(rows: seq<ScoreRow>, ms: set<string>, k: nat, s: Section, m: string, v: Stat)
    requires RowsUniform(rows, ms)
    requires k < |Rollup(rows, ms)|
    requires m in ms
    requires forall r :: r in rows && r.group == Rollup(rows, ms)[k].group ==> SectionOf(r, s)[m] == v
    ensures m in GroupSectionOf(Rollup(rows, ms)[k], s)
    ensures GroupSectionOf(Rollup(rows, ms)[k], s)[m] == v
  {
    var g := RowGroups(rows)[k];
    var group := RowsOfGroup(rows, g);
    assert Rollup(rows, ms)[k] == GroupRowOf(rows, ms, g);
    assert RowsUniform(group, ms);
    RollupStatsConstant(group, s, ms, m, v);
    match s
    case OverallSection =>
    case DegradationSection =>
  }

  /** Transforms that all score `v` average to `v`. */
  lemma RollupStatsConstant(rows: seq<ScoreRow>, s: Section, ms: set<string>, m: string, v: Stat)
    requires |rows| > 0
    requires RowsUniform(rows, ms)
    requires m in ms
    requires forall r :: r in rows ==> SectionOf(r, s)[m] == v
    ensures RollupStats(rows, s, ms)[m] == v
  {
    RollupStatsBetween(rows, s, ms, m, MeanPart, v.mean, v.mean);
    RollupStatsBetween(rows, s, ms, m, StdPart, v.std, v.std);
  }

  // ---------------------------------------------------------------------
  // Clean rows, in terms of the input table
  // ---------------------------------------------------------------------

  /** Some row of group `g` carries the clean label. */
  predicate HasCleanRow(rows: seq<Row>, clean: string, g: GroupKey)
  {
    exists i :: 0 <= i < |rows| && rows[i].group == g && rows[i].transform == clean
  }

  /** Two rows of group `g` carry the clean label at different severities. */
  predicate TwoCleanSeverities(rows: seq<Row>, clean: string, g: GroupKey)
  {
    exists i, j :: 0 <= i < |rows| && 0 <= j < |rows| &&
      rows[i].group == g && rows[i].transform == clean &&
      rows[j].group == g && rows[j].transform == clean &&
      rows[i].severity != rows[j].severity
  }

  /** What a run needs of the table's clean rows: exactly one clean severity in every group. */
  predicate CleanRowsUnique(rows: seq<Row>, clean: string)
  {
    forall i :: 0 <= i < |rows| ==>
      HasCleanRow(rows, clean, rows[i].group) && !TwoCleanSeverities(rows, clean, rows[i].group)
  }

  /** The bucket of a row. */
  lemma BucketOfRow(agg: seq<Bucket>, rows: seq<Row>, i: int) returns (j: int)
    requires IndexedBy(agg, rows)
    requires 0 <= i < |rows|
    ensures 0 <= j < |agg| && agg[j].key == KeyOf(rows[i])
  {
    assert rows[i] in rows;
    assert KeyOf(rows[i]) in RowKeySet(rows);
    var b :| b in agg && b.key == KeyOf(rows[i]);
    j :| 0 <= j < |agg| && agg[j] == b;
  }

  /** A row of a bucket. */
  lemma RowOfBucket(agg: seq<Bucket>, rows: seq<Row>, j: int) returns (i: int)
    requires IndexedBy(agg, rows)
    requires 0 <= j < |agg|
    ensures 0 <= i < |rows| && KeyOf(rows[i]) == agg[j].key
  {
    assert agg[j] in agg;
    assert agg[j].key in KeySet(agg);
    var r :| r in rows && KeyOf(r) == agg[j].key;
    i :| 0 <= i < |rows| && rows[i] == r;
  }

  /** A group has no clean bucket exactly when none of its rows is clean. */
  lemma NoCleanBucket(agg: seq<Bucket>, rows: seq<Row>, clean: string, g: GroupKey)
    requires IndexedBy(agg, rows)
    ensures |CleanBuckets(agg, clean, g)| == 0 <==> !HasCleanRow(rows, clean, g)
  {
    var cb := CleanBuckets(agg, clean, g);
    if |cb| > 0 {
      assert cb[0] in agg;
      var j :| 0 <= j < |agg| && agg[j] == cb[0];
      var i := RowOfBucket(agg, rows, j);
      assert rows[i].group == g && rows[i].transform == clean;
    }
    if HasCleanRow(rows, clean, g) {
      var i :| 0 <= i < |rows| && rows[i].group == g && rows[i].transform == clean;
      var j := BucketOfRow(agg, rows, i);
      assert agg[j] in cb;
    }
  }

  /** A group has more than one clean bucket exactly when its clean rows disagree on the severity. */
  lemma ManyCleanBuckets(agg: seq<Bucket>, rows: seq<Row>, clean: string, g: GroupKey)
    requires IndexedBy(agg, rows)
    ensures |CleanBuckets(agg, clean, g)| > 1 <==> TwoCleanSeverities(rows, clean, g)
  {
    var cb := CleanBuckets(agg, clean, g);
    if |cb| > 1 {
      assert Distinct(agg);
      FilterDistinct(agg, (b: Bucket) => b.key.transform == clean && b.key.group == g);
      assert cb[0] in agg && cb[1] in agg && cb[0] != cb[1];
      var a :| 0 <= a < |agg| && agg[a] == cb[0];
      var b :| 0 <= b < |agg| && agg[b] == cb[1];
      var i := RowOfBucket(agg, rows, a);
      var j := RowOfBucket(agg, rows, b);
      assert rows[i].severity != rows[j].severity;
    }
    if TwoCleanSeverities(rows, clean, g) {
      var i, j :| 0 <= i < |rows| && 0 <= j < |rows| &&
        rows[i].group == g && rows[i].transform == clean &&
        rows[j].group == g && rows[j].transform == clean &&
        rows[i].severity != rows[j].severity;
      var a := BucketOfRow(agg, rows, i);
      var b := BucketOfRow(agg, rows, j);
      assert agg[a] in cb && agg[b] in cb && agg[a] != agg[b];
    }
  }

  /** Every group of the frame has one clean bucket exactly when every group of the table has one clean severity. */
  lemma BaselineUniqueRows(agg: seq<Bucket>, rows: seq<Row>, clean: string)
    requires IndexedBy(agg, rows)
    ensures BaselineUnique(agg, clean) <==> CleanRowsUnique(rows, clean)
  {
    if BaselineUnique(agg, clean) {
      forall i | 0 <= i < |rows|
        ensures HasCleanRow(rows, clean, rows[i].group) && !TwoCleanSeverities(rows, clean, rows[i].group)
      {
        var j := BucketOfRow(agg, rows, i);
        assert agg[j] in agg;
        NoCleanBucket(agg, rows, clean, rows[i].group);
        ManyCleanBuckets(agg, rows, clean, rows[i].group);
      }
    }
    if CleanRowsUnique(rows, clean) {
      forall b | b in agg ensures |CleanBuckets(agg, clean, b.key.group)| == 1 {
        var j :| 0 <= j < |agg| && agg[j] == b;
        var i := RowOfBucket(agg, rows, j);
        NoCleanBucket(agg, rows, clean, rows[i].group);
        ManyCleanBuckets(agg, rows, clean, rows[i].group);
      }
    }
  }

  // ---------------------------------------------------------------------
  // The whole computation
  // ---------------------------------------------------------------------

  /** The stages a successful run goes through. */
  lemma CalculateSteps(rows: seq<Row>, metrics: MetricSpec, clean: string, alphaOa: real, alphaDeg: real,
                       spread: Spread)
    requires Calculate(rows, metrics, clean, alphaOa, alphaDeg, spread).Success?
    ensures alphaOa > 0.0 && alphaDeg > 0.0
    ensures HasMetrics(rows, metrics.Keys)
    ensures HasCleanLabel(rows, clean)
    ensures BaselineUnique(Aggregate(rows, metrics.Keys, spread), clean)
    ensures Calculate(rows, metrics, clean, alphaOa, alphaDeg, spread).value ==
            Score(Aggregate(rows, metrics.Keys, spread), metrics, clean, alphaOa, alphaDeg)
  {
  }

  /**
   * A run succeeds exactly when both decay rates are positive, every metric
   * column is present, some row carries the clean label and every group has
   * clean rows at exactly one severity.
   */
  lemma CalculateSucceeds(rows: seq<Row>, metrics: MetricSpec, clean: string, alphaOa: real, alphaDeg: real,
                          spread: Spread)
    ensures Calculate(rows, metrics, clean, alphaOa, alphaDeg, spread).Success? <==>
            alphaOa > 0.0 && alphaDeg > 0.0 && HasMetrics(rows, metrics.Keys) &&
            HasCleanLabel(rows, clean) && CleanRowsUnique(rows, clean)
  {
    if alphaOa > 0.0 && alphaDeg > 0.0 && HasMetrics(rows, metrics.Keys) && HasCleanLabel(rows, clean) {
      var agg := Aggregate(rows, metrics.Keys, spread);
      AggregateKeys(rows, metrics.Keys, spread);
      BaselineUniqueRows(agg, rows, clean);
    }
  }

  /** A missing baseline names a group of the table none of whose rows is clean. */
  lemma MissingBaselineMeans(rows: seq<Row>, metrics: MetricSpec, clean: string, alphaOa: real, alphaDeg: real,
                             spread: Spread, g: GroupKey)
    requires Calculate(rows, metrics, clean, alphaOa, alphaDeg, spread) == Failure(MissingBaseline(g))
    ensures exists i :: 0 <= i < |rows| && rows[i].group == g
    ensures !HasCleanRow(rows, clean, g)
  {
    assert HasMetrics(rows, metrics.Keys);
    var agg := Aggregate(rows, metrics.Keys, spread);
    AggregateKeys(rows, metrics.Keys, spread);
    assert BaselineError(agg, clean) == Some(MissingBaseline(g));
    MissingBaselineInFrame(agg, rows, clean, g);
  }

  /** The same, on the aggregated frame of the table. */
  lemma MissingBaselineInFrame(agg: seq<Bucket>, rows: seq<Row>, clean: string, g: GroupKey)
    requires IndexedBy(agg, rows)
    requires BaselineError(agg, clean) == Some(MissingBaseline(g))
    ensures exists i :: 0 <= i < |rows| && rows[i].group == g
    ensures !HasCleanRow(rows, clean, g)
  {
    var gs := Groups(agg);
    var k :| 0 <= k < |gs| && gs[k] == g && |CleanBuckets(agg, clean, g)| == 0;
    var j :| 0 <= j < |agg| && agg[j].key.group == g;
    var i := RowOfBucket(agg, rows, j);
    NoCleanBucket(agg, rows, clean, g);
  }

  /** A duplicate baseline names a group whose clean rows come at two different severities. */
  lemma DuplicateBaselineMeans(rows: seq<Row>, metrics: MetricSpec, clean: string, alphaOa: real,
                               alphaDeg: real, spread: Spread, g: GroupKey)
    requires Calculate(rows, metrics, clean, alphaOa, alphaDeg, spread) == Failure(DuplicateBaseline(g))
    ensures TwoCleanSeverities(rows, clean, g)
  {
    assert HasMetrics(rows, metrics.Keys);
    var agg := Aggregate(rows, metrics.Keys, spread);
    AggregateKeys(rows, metrics.Keys, spread);
    assert BaselineError(agg, clean) == Some(DuplicateBaseline(g));
    DuplicateBaselineInFrame(agg, rows, clean, g);
  }

  /** The same, on the aggregated frame of the table. */
  lemma DuplicateBaselineInFrame(agg: seq<Bucket>, rows: seq<Row>, clean: string, g: GroupKey)
    requires IndexedBy(agg, rows)
    requires BaselineError(agg, clean) == Some(DuplicateBaseline(g))
    ensures TwoCleanSeverities(rows, clean, g)
  {
    var gs := Groups(agg);
    var k :| 0 <= k < |gs| && gs[k] == g && |CleanBuckets(agg, clean, g)| > 1;
    ManyCleanBuckets(agg, rows, clean, g);
  }

  /** `combined` has one row per (group, transform) of the perturbed frame, each holding every metric. */
  lemma ScoreRowsShape(perturbed: seq<Bucket>, deltas: seq<Bucket>, baseline: map<GroupKey, Stats>,
                       ms: set<string>, alphaOa: real, alphaDeg: real, clean: string)
    requires alphaOa > 0.0 && alphaDeg > 0.0
    requires Scorable(perturbed, deltas, baseline, ms)
    requires forall b :: b in perturbed ==> b.key.transform != clean
    ensures CombinedShape(ScoreRows(perturbed, deltas, baseline, ms, alphaOa, alphaDeg), ms, clean)
  {
    var pairs := Pairs(perturbed);
    var combined := ScoreRows(perturbed, deltas, baseline, ms, alphaOa, alphaDeg);
    forall i | 0 <= i < |combined|
      ensures (combined[i].group, combined[i].transform) == pairs[i] && combined[i].transform != clean
    {
      var j :| 0 <= j < |perturbed| && perturbed[j].key.group == pairs[i].0 && perturbed[j].key.transform == pairs[i].1;
      assert perturbed[j] in perturbed;
    }
    forall r | r in combined ensures r.overall.Keys == ms && r.degradation.Keys == ms {
      var i :| 0 <= i < |combined| && combined[i] == r;
    }
  }

  /** `combined_agg` has one row per group of `combined`, each holding every metric. */
  lemma RollupRowsShape(rows: seq<ScoreRow>, ms: set<string>)
    requires RowsUniform(rows, ms)
    ensures RollupShape(rows, Rollup(rows, ms), ms)
  {
    var gs := RowGroups(rows);
    var out := Rollup(rows, ms);
    forall i | 0 <= i < |out| ensures out[i].group == gs[i] {
    }
    forall j | 0 <= j < |rows| ensures exists i :: 0 <= i < |out| && out[i].group == rows[j].group {
      var i :| 0 <= i < |gs| && gs[i] == rows[j].group;
      assert out[i].group == rows[j].group;
    }
  }

  /** The shape of both tables once the checks have passed. */
  lemma ScoreShape(agg: seq<Bucket>, metrics: MetricSpec, clean: string, alphaOa: real, alphaDeg: real)
    requires alphaOa > 0.0 && alphaDeg > 0.0
    requires Uniform(agg, metrics.Keys)
    requires BaselineUnique(agg, clean)
    ensures OutputShape(Score(agg, metrics, clean, alphaOa, alphaDeg), metrics.Keys, clean)
  {
    var ms := metrics.Keys;
    var baseline := Baseline(agg, clean);
    var perturbed := Perturbed(agg, clean);
    PerturbedScorable(agg, ms, clean, HigherIsBetter(metrics));
    var deltas := Normalize(Deltas(perturbed, baseline), HigherIsBetter(metrics));
    assert forall b :: b in perturbed ==> b.key.transform != clean by {
      forall b | b in perturbed ensures b.key.transform != clean {
        var i :| 0 <= i < |perturbed| && perturbed[i] == b;
      }
    }
    ScoreRowsShape(perturbed, deltas, baseline, ms, alphaOa, alphaDeg, clean);
    var combined := ScoreRows(perturbed, deltas, baseline, ms, alphaOa, alphaDeg);
    RollupRowsShape(combined, ms);
  }

  /** The shape of a successful run's two tables, as `ScoreShape` states it. */
  lemma CalculateShape(rows: seq<Row>, metrics: MetricSpec, clean: string, alphaOa: real, alphaDeg: real,
                       spread: Spread)
    requires Calculate(rows, metrics, clean, alphaOa, alphaDeg, spread).Success?
    ensures OutputShape(Calculate(rows, metrics, clean, alphaOa, alphaDeg, spread).value, metrics.Keys, clean)
  {
    CalculateSteps(rows, metrics, clean, alphaOa, alphaDeg, spread);
    ScoreShape(Aggregate(rows, metrics.Keys, spread), metrics, clean, alphaOa, alphaDeg);
  }

  // ---------------------------------------------------------------------
  // Scores of the whole computation
  // ---------------------------------------------------------------------

  /** Bucket `b` lies under group `g` and transform `t`. */
  predicate InPair(b: Bucket, g: GroupKey, t: string)
  {
    b.key.group == g && b.key.transform == t
  }

  /** Row `i` of `combined` is the score row of a (group, transform) that has perturbed buckets. */
  lemma ScoreRowsAt(perturbed: seq<Bucket>, deltas: seq<Bucket>, baseline: map<GroupKey, Stats>,
                    ms: set<string>, alphaOa: real, alphaDeg: real, i: nat)
    requires alphaOa > 0.0 && alphaDeg > 0.0
    requires Scorable(perturbed, deltas, baseline, ms)
    requires i < |ScoreRows(perturbed, deltas, baseline, ms, alphaOa, alphaDeg)|
    ensures var row := ScoreRows(perturbed, deltas, baseline, ms, alphaOa, alphaDeg)[i];
      && (exists j :: 0 <= j < |perturbed| && perturbed[j].key.group == row.group && perturbed[j].key.transform == row.transform)
      && row == ScoreRowOf(perturbed, deltas, baseline, ms, alphaOa, alphaDeg, row.group, row.transform)
  {
    var pairs := Pairs(perturbed);
    var j :| 0 <= j < |perturbed| && perturbed[j].key.group == pairs[i].0 && perturbed[j].key.transform == pairs[i].1;
  }

  /** The stages of `Score`, named. */
  lemma ScoreStages(agg: seq<Bucket>, metrics: MetricSpec, clean: string, alphaOa: real, alphaDeg: real)
    requires alphaOa > 0.0 && alphaDeg > 0.0
    requires Uniform(agg, metrics.Keys)
    requires BaselineUnique(agg, clean)
    ensures var baseline := Baseline(agg, clean);
      var perturbed := Perturbed(agg, clean);
      var deltas := Normalize(Deltas(perturbed, baseline), HigherIsBetter(metrics));
      && Staged(perturbed, deltas, baseline, HigherIsBetter(metrics), metrics.Keys)
      && Score(agg, metrics, clean, alphaOa, alphaDeg).combined ==
         ScoreRows(perturbed, deltas, baseline, metrics.Keys, alphaOa, alphaDeg)
  {
    PerturbedScorable(agg, metrics.Keys, clean, HigherIsBetter(metrics));
  }

  /** What the row-level lemmas below need of a perturbed frame, its deltas and its clean rows. */
  predicate Staged(perturbed: seq<Bucket>, deltas: seq<Bucket>, baseline: map<GroupKey, Stats>,
                   flips: set<string>, ms: set<string>)
  {
    && (forall b :: b in perturbed ==> b.key.group in baseline && b.stats.Keys <= baseline[b.key.group].Keys)
    && deltas == Normalize(Deltas(perturbed, baseline), flips)
    && Scorable(perturbed, deltas, baseline, ms)
  }

  /** `UnaffectedPart` for the Degradation of the score row of one (group, transform). */
  lemma RowUnaffected(perturbed: seq<Bucket>, deltas: seq<Bucket>, baseline: map<GroupKey, Stats>,
                      flips: set<string>, ms: set<string>, alphaOa: real, alphaDeg: real,
                      g: GroupKey, t: string, m: string, p: Part)
    requires alphaOa > 0.0 && alphaDeg > 0.0
    requires Staged(perturbed, deltas, baseline, flips, ms)
    requires exists j :: 0 <= j < |perturbed| && perturbed[j].key.group == g && perturbed[j].key.transform == t
    requires m in ms && g in baseline && m in baseline[g]
    requires forall k :: 0 <= k < |perturbed| && InPair(perturbed[k], g, t) ==>
               Get(perturbed[k].stats[m], p) == Get(baseline[g][m], p)
    ensures Get(ScoreRowOf(perturbed, deltas, baseline, ms, alphaOa, alphaDeg, g, t).degradation[m], p) == 0.0
  {
    forall b | b in Members(perturbed, g, t) ensures Get(b.stats[m], p) == Get(baseline[g][m], p) {
      var k :| 0 <= k < |perturbed| && perturbed[k] == b;
    }
    DegradationOfUnchanged(perturbed, baseline, flips, ms, alphaDeg, g, t, m, p);
  }

  /** `WorsenedTransform` for the score row of one (group, transform). */
  lemma RowWorsened(perturbed: seq<Bucket>, deltas: seq<Bucket>, baseline: map<GroupKey, Stats>,
                    metrics: MetricSpec, alphaOa: real, alphaDeg: real, g: GroupKey, t: string, m: string)
    requires alphaOa > 0.0 && alphaDeg > 0.0
    requires Staged(perturbed, deltas, baseline, HigherIsBetter(metrics), metrics.Keys)
    requires exists j :: 0 <= j < |perturbed| && perturbed[j].key.group == g && perturbed[j].key.transform == t
    requires m in metrics && g in baseline && m in baseline[g]
    requires forall k :: 0 <= k < |perturbed| && InPair(perturbed[k], g, t) ==>
               Worse(perturbed[k].stats[m].mean, baseline[g][m].mean, metrics[m])
    ensures ScoreRowOf(perturbed, deltas, baseline, metrics.Keys, alphaOa, alphaDeg, g, t).degradation[m].mean > 0.0
  {
    forall b | b in Members(perturbed, g, t) ensures Worse(b.stats[m].mean, baseline[g][m].mean, metrics[m]) {
      var k :| 0 <= k < |perturbed| && perturbed[k] == b;
    }
    DegradationOfWorse(perturbed, baseline, metrics, alphaDeg, g, t, m);
  }

  /** `OverallInRange` for the score row of one (group, transform). */
  lemma RowInRange(perturbed: seq<Bucket>, deltas: seq<Bucket>, baseline: map<GroupKey, Stats>,
                   flips: set<string>, ms: set<string>, alphaOa: real, alphaDeg: real,
                   g: GroupKey, t: string, m: string, p: Part, lo: real, hi: real)
    requires alphaOa > 0.0 && alphaDeg > 0.0
    requires Staged(perturbed, deltas, baseline, flips, ms)
    requires exists j :: 0 <= j < |perturbed| && perturbed[j].key.group == g && perturbed[j].key.transform == t
    requires m in ms && g in baseline && m in baseline[g]
    requires lo <= Get(baseline[g][m], p) <= hi
    requires forall k :: 0 <= k < |perturbed| && InPair(perturbed[k], g, t) ==> lo <= Get(perturbed[k].stats[m], p) <= hi
    ensures lo <= Get(ScoreRowOf(perturbed, deltas, baseline, ms, alphaOa, alphaDeg, g, t).overall[m], p) <= hi
  {
    forall b | b in Members(perturbed, g, t) ensures lo <= Get(b.stats[m], p) <= hi {
      var k :| 0 <= k < |perturbed| && perturbed[k] == b;
    }
    OverallStatsBetween(Members(perturbed, g, t), baseline[g], alphaOa, m, p, lo, hi);
  }

  /** The clean bucket of a group holds the clean rows of that group. */
  lemma CleanBucketIsBaseline(agg: seq<Bucket>, clean: string, g: GroupKey, c: Bucket)
    requires BaselineUnique(agg, clean)
    requires c in agg && InPair(c, g, clean)
    ensures g in Baseline(agg, clean) && Baseline(agg, clean)[g] == c.stats
  {
  }

  /** An unchanged part of a metric, carried over to the perturbed frame and the clean rows. */
  lemma UnchangedOnPerturbed(agg: seq<Bucket>, ms: set<string>, clean: string, g: GroupKey, t: string,
                             m: string, c: Bucket, p: Part)
    requires Uniform(agg, ms)
    requires BaselineUnique(agg, clean)
    requires m in ms
    requires c in agg && InPair(c, g, clean)
    requires forall b :: b in agg && InPair(b, g, t) ==> Get(b.stats[m], p) == Get(c.stats[m], p)
    ensures g in Baseline(agg, clean) && Baseline(agg, clean)[g] == c.stats
    ensures forall k :: 0 <= k < |Perturbed(agg, clean)| && InPair(Perturbed(agg, clean)[k], g, t) ==>
              Get(Perturbed(agg, clean)[k].stats[m], p) == Get(Baseline(agg, clean)[g][m], p)
  {
    CleanBucketIsBaseline(agg, clean, g, c);
    var perturbed := Perturbed(agg, clean);
    forall k | 0 <= k < |perturbed| && InPair(perturbed[k], g, t)
      ensures Get(perturbed[k].stats[m], p) == Get(c.stats[m], p)
    {
      assert perturbed[k] in agg;
    }
  }

  /** A worsened metric, carried over to the perturbed frame and the clean rows. */
  lemma WorseOnPerturbed(agg: seq<Bucket>, ms: set<string>, clean: string, g: GroupKey, t: string,
                         m: string, c: Bucket, higherIsBetter: bool)
    requires Uniform(agg, ms)
    requires BaselineUnique(agg, clean)
    requires m in ms
    requires c in agg && InPair(c, g, clean)
    requires forall b :: b in agg && InPair(b, g, t) ==> Worse(b.stats[m].mean, c.stats[m].mean, higherIsBetter)
    ensures g in Baseline(agg, clean) && Baseline(agg, clean)[g] == c.stats
    ensures forall k :: 0 <= k < |Perturbed(agg, clean)| && InPair(Perturbed(agg, clean)[k], g, t) ==>
              Worse(Perturbed(agg, clean)[k].stats[m].mean, Baseline(agg, clean)[g][m].mean, higherIsBetter)
  {
    CleanBucketIsBaseline(agg, clean, g, c);
    var perturbed := Perturbed(agg, clean);
    forall k | 0 <= k < |perturbed| && InPair(perturbed[k], g, t)
      ensures Worse(perturbed[k].stats[m].mean, c.stats[m].mean, higherIsBetter)
    {
      assert perturbed[k] in agg;
    }
  }

  /** A range that holds a metric, carried over to the perturbed frame and the clean rows. */
  lemma RangeOnPerturbed(agg: seq<Bucket>, ms: set<string>, clean: string, g: GroupKey, t: string,
                         m: string, c: Bucket, p: Part, lo: real, hi: real)
    requires Uniform(agg, ms)
    requires BaselineUnique(agg, clean)
    requires m in ms
    requires c in agg && InPair(c, g, clean)
    requires forall b :: b in agg && InPair(b, g, t) ==> lo <= Get(b.stats[m], p) <= hi
    ensures g in Baseline(agg, clean) && Baseline(agg, clean)[g] == c.stats
    ensures forall k :: 0 <= k < |Perturbed(agg, clean)| && InPair(Perturbed(agg, clean)[k], g, t) ==>
              lo <= Get(Perturbed(agg, clean)[k].stats[m], p) <= hi
  {
    CleanBucketIsBaseline(agg, clean, g, c);
    var perturbed := Perturbed(agg, clean);
    forall k | 0 <= k < |perturbed| && InPair(perturbed[k], g, t) ensures lo <= Get(perturbed[k].stats[m], p) <= hi {
      assert perturbed[k] in agg;
    }
  }

  /**
   * A transform that leaves a metric's mean (or its std) as it was at every
   * severity has a Degradation of zero in that part, whatever the other part
   * does.
   */
  lemma UnaffectedDegradation(agg: seq<Bucket>, metrics: MetricSpec, clean: string, alphaOa: real,
                              alphaDeg: real, i: nat, m: string, c: Bucket, p: Part)
    requires alphaOa > 0.0 && alphaDeg > 0.0
    requires Uniform(agg, metrics.Keys)
    requires BaselineUnique(agg, clean)
    requires i < |Score(agg, metrics, clean, alphaOa, alphaDeg).combined|
    requires m in metrics
    requires c in agg && InPair(c, Score(agg, metrics, clean, alphaOa, alphaDeg).combined[i].group, clean)
    requires var row := Score(agg, metrics, clean, alphaOa, alphaDeg).combined[i];
      forall b :: b in agg && InPair(b, row.group, row.transform) ==> Get(b.stats[m], p) == Get(c.stats[m], p)
    ensures Get(Score(agg, metrics, clean, alphaOa, alphaDeg).combined[i].degradation[m], p) == 0.0
  {
    var row := Score(agg, metrics, clean, alphaOa, alphaDeg).combined[i];
    var baseline, perturbed, flips := Baseline(agg, clean), Perturbed(agg, clean), HigherIsBetter(metrics);
    PerturbedScorable(agg, metrics.Keys, clean, flips);
    var deltas := Normalize(Deltas(perturbed, baseline), flips);
    UnchangedOnPerturbed(agg, metrics.Keys, clean, row.group, row.transform, m, c, p);
    ScoreStages(agg, metrics, clean, alphaOa, alphaDeg);
    ScoreRowsAt(perturbed, deltas, baseline, metrics.Keys, alphaOa, alphaDeg, i);
    RowUnaffected(perturbed, deltas, baseline, flips, metrics.Keys, alphaOa, alphaDeg, row.group, row.transform, m, p);
  }

  /**
   * A transform that leaves a metric's mean (or its std) as it was at every
   * severity scores the clean value as its Overall and zero as its
   * Degradation in that part, whatever the other part does.
   */
  lemma UnaffectedPart(agg: seq<Bucket>, metrics: MetricSpec, clean: string, alphaOa: real, alphaDeg: real,
                       i: nat, m: string, c: Bucket, p: Part)
    requires alphaOa > 0.0 && alphaDeg > 0.0
    requires Uniform(agg, metrics.Keys)
    requires BaselineUnique(agg, clean)
    requires i < |Score(agg, metrics, clean, alphaOa, alphaDeg).combined|
    requires m in metrics
    requires c in agg && InPair(c, Score(agg, metrics, clean, alphaOa, alphaDeg).combined[i].group, clean)
    requires var row := Score(agg, metrics, clean, alphaOa, alphaDeg).combined[i];
      forall b :: b in agg && InPair(b, row.group, row.transform) ==> Get(b.stats[m], p) == Get(c.stats[m], p)
    ensures Get(Score(agg, metrics, clean, alphaOa, alphaDeg).combined[i].overall[m], p) == Get(c.stats[m], p)
    ensures Get(Score(agg, metrics, clean, alphaOa, alphaDeg).combined[i].degradation[m], p) == 0.0
  {
    var v := Get(c.stats[m], p);
    OverallInRange(agg, metrics, clean, alphaOa, alphaDeg, i, m, c, p, v, v);
    UnaffectedDegradation(agg, metrics, clean, alphaOa, alphaDeg, i, m, c, p);
  }

  /**
   * A transform that leaves a metric as it was at every severity scores the
   * clean statistics as its Overall and (0, 0) as its Degradation.
   */
  lemma UnaffectedTransform(agg: seq<Bucket>, metrics: MetricSpec, clean: string, alphaOa: real, alphaDeg: real,
                            i: nat, m: string, c: Bucket)
    requires alphaOa > 0.0 && alphaDeg > 0.0
    requires Uniform(agg, metrics.Keys)
    requires BaselineUnique(agg, clean)
    requires i < |Score(agg, metrics, clean, alphaOa, alphaDeg).combined|
    requires m in metrics
    requires c in agg && InPair(c, Score(agg, metrics, clean, alphaOa, alphaDeg).combined[i].group, clean)
    requires var row := Score(agg, metrics, clean, alphaOa, alphaDeg).combined[i];
      forall b :: b in agg && InPair(b, row.group, row.transform) ==> b.stats[m] == c.stats[m]
    ensures Score(agg, metrics, clean, alphaOa, alphaDeg).combined[i].overall[m] == c.stats[m]
    ensures Score(agg, metrics, clean, alphaOa, alphaDeg).combined[i].degradation[m] == Stat(0.0, 0.0)
  {
    var row := Score(agg, metrics, clean, alphaOa, alphaDeg).combined[i];
    UnaffectedPart(agg, metrics, clean, alphaOa, alphaDeg, i, m, c, MeanPart);
    UnaffectedPart(agg, metrics, clean, alphaOa, alphaDeg, i, m, c, StdPart);
    SameParts(row.overall[m], c.stats[m]);
    SameParts(row.degradation[m], Stat(0.0, 0.0));
  }

  /** Two statistics that agree in their mean and in their std are equal. */
  lemma SameParts(x: Stat, y: Stat)
    requires Get(x, MeanPart) == Get(y, MeanPart) && Get(x, StdPart) == Get(y, StdPart)
    ensures x == y
  {
  }

  /**
   * A transform that makes a metric worse than the clean value at every
   * severity, in the metric's own direction, has a positive Degradation mean.
   */
  lemma WorsenedTransform(agg: seq<Bucket>, metrics: MetricSpec, clean: string, alphaOa: real, alphaDeg: real,
                          i: nat, m: string, c: Bucket)
    requires alphaOa > 0.0 && alphaDeg > 0.0
    requires Uniform(agg, metrics.Keys)
    requires BaselineUnique(agg, clean)
    requires i < |Score(agg, metrics, clean, alphaOa, alphaDeg).combined|
    requires m in metrics
    requires c in agg && InPair(c, Score(agg, metrics, clean, alphaOa, alphaDeg).combined[i].group, clean)
    requires var row := Score(agg, metrics, clean, alphaOa, alphaDeg).combined[i];
      forall b :: b in agg && InPair(b, row.group, row.transform) ==> Worse(b.stats[m].mean, c.stats[m].mean, metrics[m])
    ensures Score(agg, metrics, clean, alphaOa, alphaDeg).combined[i].degradation[m].mean > 0.0
  {
    var row := Score(agg, metrics, clean, alphaOa, alphaDeg).combined[i];
    var baseline, perturbed, flips := Baseline(agg, clean), Perturbed(agg, clean), HigherIsBetter(metrics);
    PerturbedScorable(agg, metrics.Keys, clean, flips);
    var deltas := Normalize(Deltas(perturbed, baseline), flips);
    WorseOnPerturbed(agg, metrics.Keys, clean, row.group, row.transform, m, c, metrics[m]);
    ScoreStages(agg, metrics, clean, alphaOa, alphaDeg);
    ScoreRowsAt(perturbed, deltas, baseline, metrics.Keys, alphaOa, alphaDeg, i);
    RowWorsened(perturbed, deltas, baseline, metrics, alphaOa, alphaDeg, row.group, row.transform, m);
  }

  /**
   * The Overall score of a metric stays within any range that holds its clean
   * value and its perturbed values (a Dice score stays within [0, 1]).
   */
  lemma OverallInRange(agg: seq<Bucket>, metrics: MetricSpec, clean: string, alphaOa: real, alphaDeg: real,
                       i: nat, m: string, c: Bucket, p: Part, lo: real, hi: real)
    requires alphaOa > 0.0 && alphaDeg > 0.0
    requires Uniform(agg, metrics.Keys)
    requires BaselineUnique(agg, clean)
    requires i < |Score(agg, metrics, clean, alphaOa, alphaDeg).combined|
    requires m in metrics
    requires c in agg && InPair(c, Score(agg, metrics, clean, alphaOa, alphaDeg).combined[i].group, clean)
    requires lo <= Get(c.stats[m], p) <= hi
    requires var row := Score(agg, metrics, clean, alphaOa, alphaDeg).combined[i];
      forall b :: b in agg && InPair(b, row.group, row.transform) ==> lo <= Get(b.stats[m], p) <= hi
    ensures lo <= Get(Score(agg, metrics, clean, alphaOa, alphaDeg).combined[i].overall[m], p) <= hi
  {
    var row := Score(agg, metrics, clean, alphaOa, alphaDeg).combined[i];
    var baseline, perturbed, flips := Baseline(agg, clean), Perturbed(agg, clean), HigherIsBetter(metrics);
    PerturbedScorable(agg, metrics.Keys, clean, flips);
    var deltas := Normalize(Deltas(perturbed, baseline), flips);
    RangeOnPerturbed(agg, metrics.Keys, clean, row.group, row.transform, m, c, p, lo, hi);
    ScoreStages(agg, metrics, clean, alphaOa, alphaDeg);
    ScoreRowsAt(perturbed, deltas, baseline, metrics.Keys, alphaOa, alphaDeg, i);
    RowInRange(perturbed, deltas, baseline, flips, metrics.Keys, alphaOa, alphaDeg, row.group, row.transform,
               m, p, lo, hi);
  }

  /** The two decay rates act separately: Overall uses only its own, Degradation only its own. */
  lemma RowAlphasIndependent(perturbed: seq<Bucket>, deltas: seq<Bucket>, baseline: map<GroupKey, Stats>,
                             ms: set<string>, alphaOa: real, alphaDeg: real, otherOa: real, otherDeg: real, i: nat)
    requires alphaOa > 0.0 && alphaDeg > 0.0 && otherOa > 0.0 && otherDeg > 0.0
    requires Scorable(perturbed, deltas, baseline, ms)
    requires i < |Pairs(perturbed)|
    ensures ScoreRows(perturbed, deltas, baseline, ms, alphaOa, alphaDeg)[i].overall ==
            ScoreRows(perturbed, deltas, baseline, ms, alphaOa, otherDeg)[i].overall
    ensures ScoreRows(perturbed, deltas, baseline, ms, alphaOa, alphaDeg)[i].degradation ==
            ScoreRows(perturbed, deltas, baseline, ms, otherOa, alphaDeg)[i].degradation
  {
  }

  /**
   * In the output of `Score`, changing the Degradation decay rate leaves every
   * Overall section as it was, and changing the Overall rate leaves every
   * Degradation section as it was.
   */
  lemma AlphasIndependent(agg: seq<Bucket>, metrics: MetricSpec, clean: string, alphaOa: real, alphaDeg: real,
                          otherOa: real, otherDeg: real, i: nat)
    requires alphaOa > 0.0 && alphaDeg > 0.0 && otherOa > 0.0 && otherDeg > 0.0
    requires Uniform(agg, metrics.Keys)
    requires BaselineUnique(agg, clean)
    requires i < |Score(agg, metrics, clean, alphaOa, alphaDeg).combined|
    ensures |Score(agg, metrics, clean, otherOa, otherDeg).combined| == |Score(agg, metrics, clean, alphaOa, alphaDeg).combined|
    ensures Score(agg, metrics, clean, alphaOa, alphaDeg).combined[i].overall ==
            Score(agg, metrics, clean, alphaOa, otherDeg).combined[i].overall
    ensures Score(agg, metrics, clean, alphaOa, alphaDeg).combined[i].degradation ==
            Score(agg, metrics, clean, otherOa, alphaDeg).combined[i].degradation
  {
    var baseline, perturbed, flips := Baseline(agg, clean), Perturbed(agg, clean), HigherIsBetter(metrics);
    PerturbedScorable(agg, metrics.Keys, clean, flips);
    var deltas := Normalize(Deltas(perturbed, baseline), flips);
    ScoreStages(agg, metrics, clean, alphaOa, alphaDeg);
    ScoreStages(agg, metrics, clean, alphaOa, otherDeg);
    ScoreStages(agg, metrics, clean, otherOa, alphaDeg);
    ScoreStages(agg, metrics, clean, otherOa, otherDeg);
    RowAlphasIndependent(perturbed, deltas, baseline, metrics.Keys, alphaOa, alphaDeg, otherOa, otherDeg, i);
  }
}
