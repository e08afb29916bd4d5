# roodmri in Dafny: benchmark metrics and dataset generation

roodmri benchmarks brain-MRI segmentation models against corrupted inputs.
`DatasetGenerator` takes a test set of image/label files and writes one copy
of every sample per transform and per severity level. Each copy is numbered
with a subject ID. `calculate_metrics` turns the per-sample segmentation
scores of such a benchmark into two scores per (group, transform). The
*Overall* score is a severity-weighted mean that includes the clean result.
The *Degradation* score is a severity-weighted mean of the change from the
clean result, oriented so that a worsening is positive. A per-group rollup
averages both scores over the transforms.

The project has these modules:

- `Wrappers`: `Option` and `Result`.
- `Seqs`: filtering and de-duplicating sequences.
- `Scoring`: sums, means, the weights `alpha^severity` and the weighted means they define, with their laws.
- `Metrics`: the data model and `calculate_metrics` as functions:
  - aggregation per (group, transform, severity);
  - clean rows and the baseline;
  - the perturbed frame, deltas and the direction flip;
  - the Overall and Degradation sections;
  - the join and the rollup;
  - the explicit error cases.
- `MetricsLaws`: what the computation promises, stage by stage and end to end.
- `Pipeline`: `calculate_metrics` as the source runs it. A `Frame` class has its clean rows dropped in place, and a loop negates the mean column of every higher-is-better metric. The method is proved to compute `Metrics.Calculate`.
- `FileList`: `is_file_list`, over a small model of Python values.
- `Generator`:
  - the `DatasetGenerator` class: its constructor checks, the default settings and the label-to-subject-ID table;
  - the naming and severity-level logic of `generate_dataset`, as the sequence of samples a run saves.

Numbers are exact reals. A failed check of the source becomes a `Failure` value, never a precondition.

## Model

| member | source | states |
|---|---|---|
| Metrics.MissingMetrics | roodmri/metrics/calculate.py:72-73 | the metric columns absent from some row; empty exactly when every row has every metric of `metric_cols` |
| Metrics.RowKeys | roodmri/metrics/calculate.py:72-73 | the groupby keys: distinct, every row's (group, transform, severity) among them, each the key of some row |
| Metrics.StatsOf | roodmri/metrics/calculate.py:72-73 | a bucket holds exactly the metrics of `metric_cols` and no other column |
| Metrics.BucketOf | roodmri/metrics/calculate.py:72-73 | a bucket's key is its groupby key, its rows are non-empty, and each metric's mean is the arithmetic mean of that metric over the bucket's rows |
| Metrics.Aggregate | roodmri/metrics/calculate.py:72-73 | one bucket per distinct key of the input, in order, each built by `BucketOf`, all holding exactly the metrics |
| Metrics.AggregateKeys | roodmri/metrics/calculate.py:72-73 | the aggregated keys are distinct and are exactly the keys of the input rows |
| Metrics.FirstBaselineError | roodmri/metrics/calculate.py:74-75 | no error exactly when every listed group has one clean bucket; an error names a group with none or with several |
| Metrics.BaselineError | roodmri/metrics/calculate.py:74-75 | no error exactly when every group of the frame has exactly one clean bucket |
| Metrics.CleanStats | roodmri/metrics/calculate.py:74-75 | the statistics of the one clean bucket of a group |
| Metrics.Baseline | roodmri/metrics/calculate.py:74-75 | the clean rows are keyed by group alone: one entry per group of the frame, equal to that group's clean bucket |
| Metrics.Perturbed | roodmri/metrics/calculate.py:76 | dropping the clean label keeps exactly the buckets of other transforms |
| Metrics.Members | roodmri/metrics/calculate.py:80-84 | the buckets of one (group, transform), the unit of every `groupby(...).agg('sum')` |
| Metrics.Series | roodmri/metrics/calculate.py:77-79 | one (severity, value) point per bucket, the severity being the bucket's own |
| Metrics.Pairs | roodmri/metrics/calculate.py:80-84 | the (group, transform) index of the summed frames: distinct, and exactly the pairs that have buckets |
| Scoring.Pow | roodmri/metrics/calculate.py:79 | a weight `alpha^severity` is positive for a positive alpha |
| Scoring.PowOfOne | roodmri/metrics/calculate.py:79 | with alpha 1 every severity weighs 1 |
| Scoring.PowStrictlyDecreasing | roodmri/metrics/calculate.py:79 | for 0 < alpha < 1 a higher severity weighs strictly less |
| Scoring.PowStrictlyIncreasing | roodmri/metrics/calculate.py:79 | for alpha > 1 a higher severity weighs strictly more |
| Scoring.PowStep | roodmri/metrics/calculate.py:79 | one severity step scales the weight down for alpha < 1 and up for alpha > 1 |
| Scoring.TotalWeight | roodmri/metrics/calculate.py:80-81 | the summed weights are non-negative, and positive when a pair has at least one severity |
| Scoring.WeightedTotalBounds | roodmri/metrics/calculate.py:83-84 | a weighted sum of values in [lo, hi] lies between lo and hi times the summed weights |
| Scoring.WeightedTotalPositive | roodmri/metrics/calculate.py:93-94 | a weighted sum of positive values is positive |
| Scoring.OverallScore | roodmri/metrics/calculate.py:83-85 | with no perturbed severity the Overall score is the clean value; with alpha 1 it is the plain mean of the clean value and the perturbed values |
| Scoring.OverallBetween | roodmri/metrics/calculate.py:83-85 | (weighted sum + clean) / (summed weights + 1) lies within any range holding the clean value and every perturbed value |
| Scoring.OverallOfUnchanged | roodmri/metrics/calculate.py:83-85 | when every severity equals the clean value, the Overall score is the clean value, for any alpha |
| Scoring.WeightedMeanBetween | roodmri/metrics/calculate.py:93-95 | the weighted mean of the degradation lies between its smallest and largest values |
| Scoring.WeightedMeanOfZeros | roodmri/metrics/calculate.py:93-95 | zero changes give a zero degradation, for any alpha |
| Scoring.WeightedMeanPositive | roodmri/metrics/calculate.py:93-95 | positive changes give a positive degradation |
| Scoring.UniformWeights | roodmri/metrics/calculate.py:79-81 | with alpha 1 the summed weights count the severities and the weighted sum is the plain sum |
| Scoring.WeightedMean | roodmri/metrics/calculate.py:93-95 | with alpha 1 the Degradation is the plain mean over severities |
| Scoring.MeanBetween | roodmri/metrics/calculate.py:99 | a mean lies between the smallest and largest value averaged |
| Scoring.MeanOfConstant | roodmri/metrics/calculate.py:99 | the mean of equal values is that value |
| Metrics.OverallStats | roodmri/metrics/calculate.py:83-86 | the Overall section holds exactly the metrics of the clean row |
| MetricsLaws.OverallStatsOf | roodmri/metrics/calculate.py:83-85 | each Overall mean and std is the weighted score of that column's series with the clean value folded in |
| MetricsLaws.OverallStatsBetween | roodmri/metrics/calculate.py:83-85 | an Overall entry stays within any range holding its clean value and its perturbed values |
| MetricsLaws.OverallStatsUnchanged | roodmri/metrics/calculate.py:83-85 | a metric that no severity changes has Overall equal to its clean statistics |
| Metrics.DeltaStats | roodmri/metrics/calculate.py:88 | the difference frame has the same metrics as the perturbed bucket |
| Metrics.Deltas | roodmri/metrics/calculate.py:88 | `agg - clean_rows`: bucket for bucket, each minus the clean statistics of its own group, keys kept |
| Metrics.HigherIsBetter | roodmri/metrics/calculate.py:89-90 | exactly the metrics of `metric_cols` marked True |
| Metrics.Flip | roodmri/metrics/calculate.py:89-92 | only the mean is negated, only for flipped metrics; the std and all other metrics are unchanged |
| Metrics.Normalize | roodmri/metrics/calculate.py:89-92 | the flip applied to every bucket, keys and order kept |
| MetricsLaws.DeltaSign | roodmri/metrics/calculate.py:88-92 | the std delta is never flipped; the flipped mean delta is positive exactly when the metric got worse in its own direction, and zero exactly when it is unchanged |
| MetricsLaws.DeltaMember | roodmri/metrics/calculate.py:88-92 | every bucket of the flipped differences is the flipped difference of a perturbed bucket of the same pair |
| Metrics.DegradationStats | roodmri/metrics/calculate.py:93-96 | the Degradation section holds exactly the metrics of `metric_cols` |
| MetricsLaws.DeltaOfUnchanged | roodmri/metrics/calculate.py:88-92 | a mean (or std) equal to its clean value has a flipped delta of zero, whichever the metric's direction |
| MetricsLaws.DegradationStatsOf | roodmri/metrics/calculate.py:93-95 | each Degradation mean and std is the weighted mean of that column's flipped deltas |
| MetricsLaws.DegradationOfUnchanged | roodmri/metrics/calculate.py:88-95 | a metric whose mean (or std) equals the clean one at every severity has a Degradation of zero in that part, whatever the other part does, for any alpha |
| MetricsLaws.DegradationOfWorse | roodmri/metrics/calculate.py:88-95 | a metric worse than clean at every severity, in its own direction, has a positive Degradation mean |
| Metrics.ScoreRowOf | roodmri/metrics/calculate.py:83-98 | the joined row of a pair: Overall over its perturbed buckets with the clean row and alpha_oa, Degradation over its flipped differences with alpha_deg |
| Metrics.ScoreRows | roodmri/metrics/calculate.py:83-98 | `combined`: one row per (group, transform) pair, in order, each the joined row of that pair |
| Metrics.RowsOfGroup | roodmri/metrics/calculate.py:99 | exactly the rows of `combined` of one group |
| Metrics.RollupStats | roodmri/metrics/calculate.py:99 | a rolled-up section holds exactly the metrics |
| Metrics.RowGroups | roodmri/metrics/calculate.py:99 | the rollup's groups: distinct, each from `combined`, every group of `combined` among them |
| Metrics.GroupRowOf | roodmri/metrics/calculate.py:99 | a group's rollup row averages each section over the group's rows only |
| Metrics.Rollup | roodmri/metrics/calculate.py:99 | `combined_agg`: one row per group, in order |
| MetricsLaws.RollupStatsOf | roodmri/metrics/calculate.py:99 | a rolled-up mean or std is the plain mean of that column over the rows |
| MetricsLaws.RollupIsMean | roodmri/metrics/calculate.py:99 | a group's rollup entry, in each section, for each metric and for the mean and the std, is the unweighted mean of that entry over exactly the rows of `combined` that belong to the group |
| MetricsLaws.RollupBetween | roodmri/metrics/calculate.py:99 | a rolled-up entry lies within any range holding that entry for every transform of the group |
| MetricsLaws.RollupOfConstant | roodmri/metrics/calculate.py:99 | if every transform of a group has the same entry, the rollup has that entry |
| Metrics.Score | roodmri/metrics/calculate.py:74-99 | every row of `combined` holds exactly the metrics in both sections |
| Metrics.Calculate | roodmri/metrics/calculate.py:19-100 | fails with an invalid decay rate exactly when an alpha is not positive; otherwise fails with a missing column exactly when a metric column is absent; otherwise fails with a missing clean label (the KeyError of `xs` at line 74) exactly when no row carries the clean label, the empty table included |
| MetricsLaws.NoCleanBucket | roodmri/metrics/calculate.py:74-75 | a group has no clean bucket exactly when no input row of that group carries the clean label |
| MetricsLaws.ManyCleanBuckets | roodmri/metrics/calculate.py:74-75 | a group has several clean buckets exactly when its clean rows have two different severities |
| MetricsLaws.BaselineUniqueRows | roodmri/metrics/calculate.py:72-75 | the baseline is well defined exactly when every group of the input has clean rows at one severity only |
| MetricsLaws.CalculateSteps | roodmri/metrics/calculate.py:72-99 | a success had positive alphas, every metric column, a clean row and unique clean rows per group, and is the score of the aggregated frame |
| MetricsLaws.CalculateSucceeds | roodmri/metrics/calculate.py:19-100 | success exactly when both alphas are positive, every metric column is present, some row carries the clean label and every group has clean rows at one severity |
| MetricsLaws.MissingBaselineMeans | roodmri/metrics/calculate.py:74-76 | a missing-baseline failure names a group that occurs in the input and has no clean row |
| MetricsLaws.DuplicateBaselineMeans | roodmri/metrics/calculate.py:74-75 | a duplicate-baseline failure names a group with clean rows at two severities |
| MetricsLaws.ScoreRowsShape | roodmri/metrics/calculate.py:83-98 | `combined` has no clean row, no repeated (group, transform), and every metric in both sections |
| MetricsLaws.RollupRowsShape | roodmri/metrics/calculate.py:99 | `combined_agg` has one row per group of `combined`, no other, and every metric in both sections |
| MetricsLaws.ScoreShape | roodmri/metrics/calculate.py:74-99 | both outputs have that shape for every scorable frame |
| MetricsLaws.CalculateShape | roodmri/metrics/calculate.py:19-100 | every successful result has that shape |
| MetricsLaws.ScoreRowsAt | roodmri/metrics/calculate.py:83-98 | row i of `combined` is the joined row of a pair that has perturbed buckets |
| MetricsLaws.ScoreStages | roodmri/metrics/calculate.py:74-98 | the score is built from the baseline, the perturbed frame and the flipped differences, which meet the conditions of the row lemmas |
| MetricsLaws.RowUnaffected | roodmri/metrics/calculate.py:88-95 | a mean (or std) no severity of the pair changes has a Degradation of zero in that part |
| MetricsLaws.RowWorsened | roodmri/metrics/calculate.py:88-95 | a metric every severity of the pair worsens has a positive Degradation mean |
| MetricsLaws.RowInRange | roodmri/metrics/calculate.py:83-85 | the pair's Overall entry stays within a range holding the clean and perturbed values |
| MetricsLaws.UnchangedOnPerturbed | roodmri/metrics/calculate.py:74-76 | the clean bucket of a group is its baseline, and a mean (or std) equal to the clean one survives the drop with that equality |
| MetricsLaws.WorseOnPerturbed | roodmri/metrics/calculate.py:74-76 | worse-than-clean on the aggregated frame is worse-than-baseline on the perturbed frame |
| MetricsLaws.RangeOnPerturbed | roodmri/metrics/calculate.py:74-76 | a range that the aggregated buckets of a pair respect is respected after the drop |
| MetricsLaws.UnaffectedDegradation | roodmri/metrics/calculate.py:74-98 | end to end: a transform that leaves a metric's mean (or std) as it was at every severity has a Degradation of zero in that part, whatever the other part does |
| MetricsLaws.UnaffectedPart | roodmri/metrics/calculate.py:74-98 | end to end: such a transform also scores the clean value as the Overall of that part |
| MetricsLaws.UnaffectedTransform | roodmri/metrics/calculate.py:74-98 | end to end: a transform that leaves a metric as it was at every severity scores the clean value as Overall and (0, 0) as Degradation |
| MetricsLaws.WorsenedTransform | roodmri/metrics/calculate.py:74-98 | end to end: a transform that worsens a metric at every severity has a positive Degradation mean |
| MetricsLaws.OverallInRange | roodmri/metrics/calculate.py:74-86 | end to end: an Overall score stays within any range holding the clean and perturbed values, such as [0, 1] for a Dice score |
| MetricsLaws.AlphasIndependent | roodmri/metrics/calculate.py:79-95 | changing alpha_deg leaves every Overall section as it was, and changing alpha_oa leaves every Degradation section as it was |
| Pipeline.Frame.DropTransform | roodmri/metrics/calculate.py:76 | the in-place drop leaves the frame equal to its perturbed part |
| Pipeline.Frame.NegateMean | roodmri/metrics/calculate.py:91-92 | the in-place assignment negates one metric's mean column and nothing else |
| Pipeline.NormalizeOneMore | roodmri/metrics/calculate.py:89-92 | negating one more metric after a set of flips is flipping the larger set at once |
| Pipeline.FlipDirections | roodmri/metrics/calculate.py:89-92 | the loop over `metric_cols` leaves the degradation frame flipped exactly on the higher-is-better metrics |
| Pipeline.ScoreFrame | roodmri/metrics/calculate.py:74-99 | on a checked frame, the in-place drop and flip yield exactly `Metrics.Score`, and the frame is left holding its perturbed rows |
| Pipeline.CalculateMetrics | roodmri/metrics/calculate.py:19-100 | the step-by-step computation returns exactly `Metrics.Calculate` |
| FileList.CheckEntry | roodmri/data/utils.py:10-15 | one dictionary passes exactly when its keys are `image` and `label` and both values are strings; it fails with the key error exactly when it does not have two keys including both, and with the string error exactly when the keys are right and some value is not a string |
| FileList.IsFileList | roodmri/data/utils.py:1-16 | never `Success(false)`; it succeeds exactly when the value is a non-empty list of dictionaries whose first item is a well-formed entry; a non-list, an empty list and a non-dictionary item each fail with their own error; on a list of dictionaries it fails with the key error or the string error exactly when the first item fails that check |
| FileList.OnlyFirstItemChecked | roodmri/data/utils.py:7-16 | two lists of dictionaries with the same first item get the same answer |
| FileList.LaterItemsUnchecked | roodmri/data/utils.py:7-16 | a second item with any keys and values still passes |
| Generator.NatToString | roodmri/data/generator.py:90 | `str(n)` is a non-empty string of digits with no leading zero |
| Generator.ParseNatToString | roodmri/data/generator.py:90 | `str(n)` reads back as n |
| Generator.ZFill | roodmri/data/generator.py:90 | `zfill` yields the longer of the width and the input, zeros on the left of the input |
| Generator.ParseLeadingZeros | roodmri/data/generator.py:90 | leading zeros do not change the number read |
| Generator.SubjectId | roodmri/data/generator.py:90 | a subject ID is all digits, has length max(6, digits of i+1), and reads back as i+1 |
| Generator.SubjectIdWidth | roodmri/data/generator.py:90 | IDs are six characters up to 999999 and the plain number beyond |
| Generator.SubjectIdInjective | roodmri/data/generator.py:88-91 | different samples get different IDs |
| Generator.Mappings | roodmri/data/generator.py:88-91 | succeeds exactly when every sample has a usable label, then covers every sample's label; a failure names the first sample without a label or with an unhashable one |
| Generator.MappingsContents | roodmri/data/generator.py:88-91 | one entry per distinct label; a repeated label keeps the ID of its last sample |
| Generator.MappingsKeys | roodmri/data/generator.py:88-91 | the table's keys are exactly the samples' labels |
| Generator.MappingsLast | roodmri/data/generator.py:88-91 | the sample with the last occurrence of a label is the one whose ID the table keeps |
| Generator.DistinctLabelsKeepOrder | roodmri/data/generator.py:88-91 | with distinct labels, sample k is subject `SubjectId(k)` |
| Generator.MappingsIds | roodmri/data/generator.py:88-91 | every ID in the table is the subject ID of some sample |
| Generator.BuildMappings | roodmri/data/generator.py:88-91 | the loop builds exactly `Mappings` |
| Generator.MappingsStep | roodmri/data/generator.py:88-91 | one more sample (re)maps its label to its own subject ID and leaves the other entries as they were |
| Generator.MappingsStop | roodmri/data/generator.py:88-91 | once a sample lacks a usable label, the samples after it do not change the failure |
| Generator.DatasetGenerator.constructor | roodmri/data/generator.py:76-91 | the object it builds holds its arguments and is valid: its table is `Mappings` of its samples |
| Generator.DatasetGenerator.Create | roodmri/data/generator.py:73-91 | an invalid file list or a non-string out path is rejected, in that order; otherwise it succeeds exactly when the labels are usable; the settings default to the given defaults; the new object's table is `Mappings` of its samples |
| Generator.LevelParams | roodmri/data/generator.py:110-115 | at severity index i every controlled parameter is set to its i-th value, in controller order; it fails exactly when some list is too short, naming such a parameter |
| Generator.SetParams | roodmri/data/generator.py:113-115 | the loop over the controller computes exactly `LevelParams` |
| Generator.LevelParamsStop | roodmri/data/generator.py:113-115 | once one parameter list is too short, the later parameters do not change the outcome |
| Generator.LevelSaves | roodmri/data/generator.py:123-137 | one saved sample per test sample, in order, each under the subject ID of its label |
| Generator.SaveLevel | roodmri/data/generator.py:123-137 | the loop over the samples computes exactly `LevelSaves` |
| Generator.RunTransform | roodmri/data/generator.py:108-141 | the loop over severity levels computes exactly `TransformRun` |
| Generator.RunLevel | roodmri/data/generator.py:113-141 | one severity level computes exactly the next step of `Levels`: the saved samples or the missing-value error |
| Generator.LevelsSucceed | roodmri/data/generator.py:110-115 | the first n levels run exactly when every controller list has at least n values |
| Generator.LevelsFailure | roodmri/data/generator.py:110-115 | a failing level is an IndexError of this transform, at an index below the levels run, naming a parameter whose list is too short for it |
| Generator.TransformFailure | roodmri/data/generator.py:107-115 | a failing transform names itself, and fails with StopIteration exactly when its controller is empty |
| Generator.LevelsStop | roodmri/data/generator.py:110-115 | after a failing level no later level runs |
| Generator.TransformSucceeds | roodmri/data/generator.py:108-115 | a transform runs to the end exactly when its controller is non-empty and no list is shorter than the first |
| Generator.GenerateSucceeds | roodmri/data/generator.py:107-115 | a run finishes exactly when every transform does |
| Generator.GenerateStop | roodmri/data/generator.py:107-115 | after a failing transform no later transform runs |
| Generator.LevelsSaved | roodmri/data/generator.py:110-137 | every saved sample carries its transform, a level from 1 to n, that level's parameter values, a subject ID from the table, and its directory and file names |
| Generator.LevelsComplete | roodmri/data/generator.py:110-137 | n finished levels save n times the number of samples, every (level, sample) among them |
| Generator.TransformSaved | roodmri/data/generator.py:107-137 | the same for a whole transform, finished or not, with the severity count taken from the first controller list |
| Generator.TransformComplete | roodmri/data/generator.py:107-137 | a transform that runs to the end saves every sample at each of its severity levels, severities times samples in all |
| Generator.GenerateCount | roodmri/data/generator.py:107-141 | a finished run saves every sample once per severity level of every transform: the total number of levels times the number of samples |
| Generator.GenerateSaved | roodmri/data/generator.py:107-141 | every sample a run saves comes from one of its transforms, and a finished run holds every sample of every transform |
| Generator.ImageAndLabelApart | roodmri/data/generator.py:134-137 | the image and the label of a sample get different file names |
| Generator.SaveLayout | roodmri/data/generator.py:126-137 | a sample's directory lies inside `out_path`, and both of its files lie inside that directory under different names that start with the subject ID |
| Generator.SaveDirInjective | roodmri/data/generator.py:126 | `{out}/{transform}_{level}/{id}` determines the transform, the level and the subject ID |
| Generator.SavedDirsDistinct | roodmri/data/generator.py:124-126 | two saved samples share a directory only if they share transform, level and subject |
| Generator.DatasetGenerator.GenerateDataset | roodmri/data/generator.py:98-143 | the nested loops produce exactly `Generate` over the object's settings, samples, table and out path |

## Left out

- Floating point. Values are exact reals, so rounding and NaN are not modelled.
- The std column. pandas takes the sample standard deviation with a square root. The model takes it from a caller-supplied function `spread`, and only its mean column is tied to the data.
- Metrics.Calculate: rejects an alpha that is not positive with `InvalidDecayRate`. The source does not check this: with alpha 0 the Degradation division is 0/0.
- Metrics.BaselineError: when some group has no clean row but another group has one, pandas aligns the first group to NaN rows. When a group's clean rows come at several severities, pandas gives duplicate labels. The model fails with `MissingBaseline` or `DuplicateBaseline` instead. When no row at all carries the clean label, the source raises a KeyError at line 74, and the model fails with `MissingCleanLabel`.
- Metrics.Calculate: the path without grouping columns is not modelled. There `xs` at line 74 leaves a one-level index and `droplevel(severity_col)` at line 75 raises a ValueError; the model takes each row's grouping values as its group key, so with no grouping columns it scores every row under the empty key and returns one rollup row for it instead of failing.
- pandas layout details are not modelled: column MultiIndex labels, the sort order of the groupby result, and the concat with the `Overall`/`Degradation` level. The two sections are record fields.
- Image work is not modelled:
  - loading, transforming and writing NIfTI files;
  - `deepcopy` of the transform, and pre- and post-transforms;
  - the device, timing, `mkdir` and every `print`.
- Generator.DatasetGenerator.GenerateDataset: `rsetattr`/`rgetattr` on the transform object become the recorded (parameter, value) pairs of each level. A run is the sequence of samples it would save, including those saved before an error.
- Generator.LevelSaves: the loader's `filename_or_obj` is taken to be the label value given in the input list. Path normalisation by the loader is not modelled.
- Generator.SaveDir: `Path` joining is written as `/` concatenation. `Path` normalisation of `out_path` is not modelled.
- `save_filename_mappings` writes a CSV file and is not modelled. The insertion order of `filename_mappings` only matters there, so the table is a map.
- `roodmri/transforms/defaults.py` is not part of this model. `DEFAULT_TRANSFORM_SETTINGS` is the `defaults` parameter of `Create`.
- FileList.Value: dictionary keys are strings. Python values other than strings, numbers, None, dicts and lists are not modelled.
