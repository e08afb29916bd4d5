/**
 * `DatasetGenerator` of roodmri/data/generator.py: the checks and the
 * label-to-subject-ID table of its constructor, and the naming and
 * severity-level logic of `generate_dataset`. Loading, transforming and
 * writing images is not modelled; a run is the sequence of samples it saves,
 * each with the transform parameters of its severity level and the
 * directory and file names it is written under.
 */
module Generator {
  import opened Wrappers
  import opened FileList

  // ---------------------------------------------------------------------
  // Decimal strings: `str(n)`, `zfill` and reading an ID back
  // ---------------------------------------------------------------------

  predicate IsDigit(c: char) { '0' <= c <= '9' }

  predicate AllDigits(s: string) { forall i :: 0 <= i < |s| ==> IsDigit(s[i]) }

  function DigitChar(d: nat): (c: char)
    requires d < 10
    ensures IsDigit(c)
  {
    ('0' as int + d) as char
  }

  function DigitValue(c: char): nat
    requires IsDigit(c)
  {
    c as int - '0' as int
  }

  /** `str(n)` for a non-negative integer: its decimal digits, no leading zero. */
  function NatToString(n: nat): (s: string)
    ensures |s| >= 1 && AllDigits(s)
    ensures n >= 10 ==> s[0] != '0'
  {
    if n < 10 then [DigitChar(n)] else NatToString(n / 10) + [DigitChar(n % 10)]
  }

  /** The number a string of decimal digits denotes (leading zeros allowed). */
  function ParseDecimal(s: string): nat
    requires AllDigits(s)
  {
    if s == [] then 0 else 10 * ParseDecimal(s[..|s| - 1]) + DigitValue(s[|s| - 1])
  }

  function Pow10(k: nat): (p: nat)
    ensures p >= 1
  {
    if k == 0 then 1 else 10 * Pow10(k - 1)
  }

  /** `str(n)` reads back as `n`. */
  lemma {:induction false} ParseNatToString(n: nat)
    ensures ParseDecimal(NatToString(n)) == n
  {
    if n >= 10 {
      var s := NatToString(n);
      assert s[..|s| - 1] == NatToString(n / 10);
      ParseNatToString(n / 10);
    }
  }

  /** Below `10^k`, `str(n)` has at most `k` digits. */
  lemma {:induction false} NatToStringShort(n: nat, k: nat)
    requires k >= 1 && n < Pow10(k)
    ensures |NatToString(n)| <= k
  {
    if n >= 10 {
      NatToStringShort(n / 10, k - 1);
    }
  }

  /** From `10^k` on, `str(n)` has more than `k` digits. */
  lemma {:induction false} NatToStringLong(n: nat, k: nat)
    requires n >= Pow10(k)
    ensures |NatToString(n)| > k
  {
    if k > 0 {
      NatToStringLong(n / 10, k - 1);
    }
  }

  function Zeros(k: nat): (z: string)
    ensures |z| == k && forall i :: 0 <= i < k ==> z[i] == '0'
  {
    seq(k, _ => '0')
  }

  /** `s.zfill(width)` for an unsigned string: zeros on the left up to `width` characters. */
  function ZFill(s: string, width: nat): (r: string)
    ensures |r| == if |s| >= width then |s| else width
    ensures r == Zeros(|r| - |s|) + s
  {
    if |s| >= width then s else Zeros(width - |s|) + s
  }

  lemma {:induction false} ParseZeros(k: nat)
    ensures ParseDecimal(Zeros(k)) == 0
  {
    if k > 0 {
      assert Zeros(k)[..k - 1] == Zeros(k - 1);
      ParseZeros(k - 1);
    }
  }

  /** Leading zeros do not change the number a digit string denotes. */
  lemma {:induction false} ParseLeadingZeros(k: nat, s: string)
    requires AllDigits(s)
    ensures AllDigits(Zeros(k) + s)
    ensures ParseDecimal(Zeros(k) + s) == ParseDecimal(s)
  {
    if s == [] {
      assert Zeros(k) + s == Zeros(k);
      ParseZeros(k);
    } else {
      var t := Zeros(k) + s;
      assert t[..|t| - 1] == Zeros(k) + s[..|s| - 1];
      ParseLeadingZeros(k, s[..|s| - 1]);
    }
  }

  const IdWidth: nat := 6

  /**
   * The subject ID of the `i`-th test sample (from 0), `str(i + 1).zfill(6)`:
   * all digits, as long as the longer of six and the number of digits of
   * `i + 1`, and it reads back as `i + 1`.
   */
  function SubjectId(i: nat): (id: string)
    ensures AllDigits(id)
    ensures |id| == if |NatToString(i + 1)| >= IdWidth then |NatToString(i + 1)| else IdWidth
    ensures ParseDecimal(id) == i + 1
  {
    var s := NatToString(i + 1);
    var id := ZFill(s, IdWidth);
    ParseLeadingZeros(|id| - |s|, s);
    ParseNatToString(i + 1);
    id
  }

  /** The first 999999 samples get six-character IDs; after that the IDs grow. */
  lemma SubjectIdWidth(i: nat)
    ensures i + 1 < Pow10(IdWidth) ==> |SubjectId(i)| == IdWidth
    ensures i + 1 >= Pow10(IdWidth) ==> SubjectId(i) == NatToString(i + 1) && |SubjectId(i)| > IdWidth
  {
    if i + 1 < Pow10(IdWidth) {
      NatToStringShort(i + 1, IdWidth);
    } else {
      NatToStringLong(i + 1, IdWidth);
    }
  }

  /** Different samples get different subject IDs. */
  lemma SubjectIdInjective(i: nat, j: nat)
    requires SubjectId(i) == SubjectId(j)
    ensures i == j
  {
    assert ParseDecimal(SubjectId(i)) == i + 1;
  }

  // ---------------------------------------------------------------------
  // The constructor: checks and `filename_mappings`
  // ---------------------------------------------------------------------

  /** Why `DatasetGenerator(...)` raised. */
  datatype InitError =
    | InvalidFileList(cause: FileListError)  // line 74
    | OutPathNotString                       // line 75
    | MissingLabel(index: nat)               // line 90, KeyError
    | UnhashableLabel(index: nat)            // line 90, TypeError: a list or dict cannot key a dict

  /** The Python values a dictionary can be keyed by, among those modelled. */
  predicate Hashable(v: Value) { v.Str? || v.Num? || v.NoneValue? }

  predicate HasLabel(v: Value) { v.Dict? && LabelKey in v.entries }

  function LabelOf(v: Value): Value
    requires HasLabel(v)
  {
    v.entries[LabelKey]
  }

  /** Every sample has a label, and the table has an ID for it. */
  predicate Labelled(items: seq<Value>, mappings: map<Value, string>)
  {
    forall j :: 0 <= j < |items| ==> HasLabel(items[j]) && LabelOf(items[j]) in mappings
  }

  /** Every sample has a label a dictionary can be keyed by. */
  predicate LabelsUsable(items: seq<Value>)
  {
    forall j :: 0 <= j < |items| ==> HasLabel(items[j]) && Hashable(LabelOf(items[j]))
  }

  /** The labels of the samples. */
  function LabelSet(items: seq<Value>): set<Value>
    requires LabelsUsable(items)
  {
    if items == [] then {} else LabelSet(items[..|items| - 1]) + {LabelOf(items[|items| - 1])}
  }

  /**
   * The loop of lines 88-91: sample `i` maps its label to `SubjectId(i)`; a
   * later sample with the same label overwrites the entry. It fails at the
   * first sample without a usable label.
   */
  function Mappings(items: seq<Value>): (r: Result<map<Value, string>, InitError>)
    requires AllDicts(items)
    ensures r.Success? <==> LabelsUsable(items)
    ensures r.Success? ==> Labelled(items, r.value)
    ensures r.Failure? ==> r.error.MissingLabel? || r.error.UnhashableLabel?
    ensures r.Failure? ==> && r.error.index < |items|
                           && LabelsUsable(items[..r.error.index])
                           && (r.error.MissingLabel? <==> !HasLabel(items[r.error.index]))
                           && (r.error.UnhashableLabel? ==> !Hashable(LabelOf(items[r.error.index])))
  {
    if items == [] then Success(map[])
    else
      var i := |items| - 1;
      var prefix := items[..i];
      match Mappings(prefix)
      case Failure(e) =>
        assert items[..e.index] == prefix[..e.index];
        Failure(e)
      case Success(m) =>
        var d := items[i].entries;
        if LabelKey !in d then
          assert items[..i] == prefix;
          Failure(MissingLabel(i))
        else if !Hashable(d[LabelKey]) then
          assert items[..i] == prefix;
          Failure(UnhashableLabel(i))
        else
          var m' := m[d[LabelKey] := SubjectId(i)];
          assert LabelsUsable(items) && Labelled(items, m') by {
            forall j | 0 <= j < i ensures items[j] == prefix[j] {
            }
          }
          Success(m')
  }

  /** A sample whose label no later sample repeats. */
  predicate LastWithLabel(items: seq<Value>, k: nat)
    requires LabelsUsable(items) && k < |items|
  {
    forall k' :: k < k' < |items| ==> LabelOf(items[k']) != LabelOf(items[k])
  }

  /**
   * The table has one entry per distinct label, and a repeated label keeps the
   * ID of its last sample.
   */
  lemma MappingsContents(items: seq<Value>)
    requires AllDicts(items) && LabelsUsable(items)
    ensures Mappings(items).value.Keys == LabelSet(items)
    ensures forall k :: 0 <= k < |items| && LastWithLabel(items, k) ==>
              Mappings(items).value[LabelOf(items[k])] == SubjectId(k)
  {
    MappingsKeys(items);
    forall k | 0 <= k < |items| && LastWithLabel(items, k)
      ensures Mappings(items).value[LabelOf(items[k])] == SubjectId(k)
    {
      MappingsLast(items, k);
    }
  }

  /** The table's keys are the samples' labels. */
  lemma {:induction false} MappingsKeys(items: seq<Value>)
    requires AllDicts(items) && LabelsUsable(items)
    ensures Mappings(items).value.Keys == LabelSet(items)
  {
    if items != [] {
      var i := |items| - 1;
      var prefix := items[..i];
      MappingsKeys(prefix);
      assert Mappings(items).value == Mappings(prefix).value[LabelOf(items[i]) := SubjectId(i)];
    }
  }

  /** The last sample with a given label is the one whose ID the table keeps. */
  lemma {:induction false} MappingsLast(items: seq<Value>, k: nat)
    requires AllDicts(items) && LabelsUsable(items)
    requires k < |items| && LastWithLabel(items, k)
    ensures LabelOf(items[k]) in Mappings(items).value
    ensures Mappings(items).value[LabelOf(items[k])] == SubjectId(k)
  {
    var i := |items| - 1;
    var prefix := items[..i];
    MappingsStep(items);
    if k < i {
      assert prefix[k] == items[k];
      assert LastWithLabel(prefix, k) by {
        forall k' | k < k' < |prefix| ensures LabelOf(prefix[k']) != LabelOf(prefix[k]) {
          assert prefix[k'] == items[k'];
        }
      }
      MappingsLast(prefix, k);
      assert LabelOf(items[i]) != LabelOf(items[k]);
    }
  }

  /** One step of the loop of lines 88-91: the last sample's label is (re)mapped to its ID. */
  lemma MappingsStep(items: seq<Value>)
    requires AllDicts(items) && LabelsUsable(items) && items != []
    ensures LabelsUsable(items[..|items| - 1])
    ensures Mappings(items).value ==
            Mappings(items[..|items| - 1]).value[LabelOf(items[|items| - 1]) := SubjectId(|items| - 1)]
  {
    var prefix := items[..|items| - 1];
    assert forall j :: 0 <= j < |prefix| ==> prefix[j] == items[j];
  }

  /** When no two samples share a label, sample `k` is subject `SubjectId(k)`. */
  lemma DistinctLabelsKeepOrder(items: seq<Value>, k: nat)
    requires AllDicts(items) && LabelsUsable(items)
    requires forall a, b :: 0 <= a < b < |items| ==> LabelOf(items[a]) != LabelOf(items[b])
    requires k < |items|
    ensures Mappings(items).value[LabelOf(items[k])] == SubjectId(k)
  {
    MappingsContents(items);
  }

  // ---------------------------------------------------------------------
  // Transform settings and a run of `generate_dataset`
  // ---------------------------------------------------------------------

  /** One entry of a `severity_controller`: a transform attribute and its value per severity level. */
  datatype Param = Param(name: string, values: seq<Value>)

  /** One entry of `transform_settings`, with its `severity_controller` in insertion order. */
  datatype TransformSpec = TransformSpec(name: string, controller: seq<Param>)

  /** `transform_settings`, in insertion order. */
  type Settings = seq<TransformSpec>

  /** Why `generate_dataset` stopped. */
  datatype GenerateError =
    | EmptyController(transform: string)                                 // line 110, StopIteration
    | MissingSeverityValue(transform: string, param: string, index: nat)  // line 114, IndexError

  /** One saved sample: both of its files are written into `saveDir`. */
  datatype Saved = Saved(transform: string, level: nat, params: seq<(string, Value)>, subjectId: string,
                         saveDir: string, imageFile: string, labelFile: string)

  /** The samples saved, in order, and the error that ended the run early, if any. */
  datatype Run = Run(saved: seq<Saved>, error: Option<GenerateError>)

  /** The number of severity levels: the length of the first controller list. */
  function Severities(t: TransformSpec): nat
    requires |t.controller| > 0
  {
    |t.controller[0].values|
  }

  /** A transform that `generate_dataset` runs to the end: every controller list is as long as the first. */
  predicate Controllable(t: TransformSpec)
  {
    |t.controller| > 0 && forall k :: 0 <= k < |t.controller| ==> |t.controller[k].values| >= Severities(t)
  }

  /**
   * Lines 113-115 at severity index `i`: each controlled attribute is set to
   * its `i`-th value, in controller order; the first list too short for `i`
   * raises.
   */
  function LevelParams(transform: string, controller: seq<Param>, i: nat): (r: Result<seq<(string, Value)>, GenerateError>)
    ensures r.Success? <==> forall k :: 0 <= k < |controller| ==> i < |controller[k].values|
    ensures r.Success? ==> |r.value| == |controller|
    ensures r.Success? ==> forall k :: 0 <= k < |controller| ==> r.value[k] == (controller[k].name, controller[k].values[i])
    ensures r.Failure? ==> exists k :: && 0 <= k < |controller|
                                       && i >= |controller[k].values|
                                       && r.error == MissingSeverityValue(transform, controller[k].name, i)
  {
    if controller == [] then Success([])
    else
      var last := controller[|controller| - 1];
      var prefix := controller[..|controller| - 1];
      match LevelParams(transform, prefix, i)
      case Failure(e) => Failure(e)
      case Success(ps) =>
        if i < |last.values| then Success(ps + [(last.name, last.values[i])])
        else Failure(MissingSeverityValue(transform, last.name, i))
  }

  /** Line 126: `out_path / f'{transform_name}_{i+1}/{subject_id}'`. */
  function SaveDir(out: string, transform: string, level: nat, subjectId: string): string
  {
    out + "/" + transform + "_" + NatToString(level) + "/" + subjectId
  }

  const NiftiSuffix: string := ".nii.gz"

  /** Line 137: `f'{subject_id}_{transform_name}_{i+1}_{label}.nii.gz'`. */
  function FileName(subjectId: string, transform: string, level: nat, kind: string): string
  {
    subjectId + "_" + transform + "_" + NatToString(level) + "_" + kind + NiftiSuffix
  }

  /** Lines 126-139 for one sample: its directory and the files of its image and its label. */
  function Save(out: string, transform: string, level: nat, ps: seq<(string, Value)>, subjectId: string): Saved
  {
    var dir := SaveDir(out, transform, level, subjectId);
    Saved(transform, level, ps, subjectId, dir,
          dir + "/" + FileName(subjectId, transform, level, ImageKey),
          dir + "/" + FileName(subjectId, transform, level, LabelKey))
  }

  /** The image and the label of a sample are written to different files. */
  lemma ImageAndLabelApart(subjectId: string, transform: string, level: nat)
    ensures FileName(subjectId, transform, level, ImageKey) != FileName(subjectId, transform, level, LabelKey)
  {
    var p := subjectId + "_" + transform + "_" + NatToString(level) + "_";
    assert FileName(subjectId, transform, level, ImageKey)[|p|] == 'i';
    assert FileName(subjectId, transform, level, LabelKey)[|p|] == 'l';
  }

  /**
   * A sample's directory lies inside `out_path`, and both of its files lie
   * inside that directory, under different names that start with the
   * subject ID.
   */
  lemma SaveLayout(out: string, transform: string, level: nat, ps: seq<(string, Value)>, subjectId: string)
    ensures var r := Save(out, transform, level, ps, subjectId);
      && out + "/" <= r.saveDir
      && r.saveDir + "/" + subjectId + "_" <= r.imageFile
      && r.saveDir + "/" + subjectId + "_" <= r.labelFile
      && r.imageFile != r.labelFile
  {
    var dir := SaveDir(out, transform, level, subjectId);
    var image := FileName(subjectId, transform, level, ImageKey);
    var labelFile := FileName(subjectId, transform, level, LabelKey);
    ImageAndLabelApart(subjectId, transform, level);
    assert (dir + "/" + image)[|dir| + 1..] == image;
    assert dir + "/" + image == (dir + "/" + subjectId + "_") + (image[|subjectId| + 1..]);
    assert dir + "/" + labelFile == (dir + "/" + subjectId + "_") + (labelFile[|subjectId| + 1..]);
  }

  /** Lines 123-141 at one severity level: every sample, in order, under its subject ID. */
  function LevelSaves(items: seq<Value>, mappings: map<Value, string>, out: string, transform: string,
                      level: nat, ps: seq<(string, Value)>): (r: seq<Saved>)
    requires Labelled(items, mappings)
    ensures |r| == |items|
    ensures forall j :: 0 <= j < |items| ==> r[j] == Save(out, transform, level, ps, mappings[LabelOf(items[j])])
  {
    if items == [] then []
    else
      var prefix := items[..|items| - 1];
      assert Labelled(prefix, mappings) by {
        forall j | 0 <= j < |prefix| ensures HasLabel(prefix[j]) && LabelOf(prefix[j]) in mappings {
          assert prefix[j] == items[j];
        }
      }
      LevelSaves(prefix, mappings, out, transform, level, ps)
        + [Save(out, transform, level, ps, mappings[LabelOf(items[|items| - 1])])]
  }

  /** The first `n` severity levels of one transform (levels are numbered from 1 in names). */
  function Levels(t: TransformSpec, n: nat, items: seq<Value>, mappings: map<Value, string>, out: string): Run
    requires Labelled(items, mappings)
  {
    if n == 0 then Run([], None)
    else
      var prev := Levels(t, n - 1, items, mappings, out);
      if prev.error.Some? then prev
      else
        match LevelParams(t.name, t.controller, n - 1)
        case Failure(e) => Run(prev.saved, Some(e))
        case Success(ps) => Run(prev.saved + LevelSaves(items, mappings, out, t.name, n, ps), None)
  }

  /** Lines 108-141 for one transform. */
  function TransformRun(t: TransformSpec, items: seq<Value>, mappings: map<Value, string>, out: string): Run
    requires Labelled(items, mappings)
  {
    if |t.controller| == 0 then Run([], Some(EmptyController(t.name)))
    else Levels(t, Severities(t), items, mappings, out)
  }

  lemma Distribute(a: nat, b: nat, k: nat)
    ensures (a + b) * k == a * k + b * k
  {
  }

  /** The severity levels of all the transforms, counted over those with a controller. */
  function TotalLevels(settings: Settings): nat
  {
    if settings == [] then 0
    else
      var last := settings[|settings| - 1];
      TotalLevels(settings[..|settings| - 1]) + (if |last.controller| > 0 then Severities(last) else 0)
  }

  /** `generate_dataset`: the transforms in order, stopping at the first error. */
  function Generate(settings: Settings, items: seq<Value>, mappings: map<Value, string>, out: string): Run
    requires Labelled(items, mappings)
  {
    if settings == [] then Run([], None)
    else
      var prev := Generate(settings[..|settings| - 1], items, mappings, out);
      if prev.error.Some? then prev
      else
        var tr := TransformRun(settings[|settings| - 1], items, mappings, out);
        Run(prev.saved + tr.saved, tr.error)
  }

  // ---------------------------------------------------------------------
  // What a run does
  // ---------------------------------------------------------------------

  /** The first `n` levels run without error exactly when every controller list has at least `n` values. */
  lemma {:induction false} LevelsSucceed(t: TransformSpec, n: nat, items: seq<Value>, mappings: map<Value, string>,
                                         out: string)
    requires Labelled(items, mappings)
    ensures Levels(t, n, items, mappings, out).error.None? <==>
            forall k :: 0 <= k < |t.controller| ==> n <= |t.controller[k].values|
  {
    if n > 0 {
      LevelsSucceed(t, n - 1, items, mappings, out);
    }
  }

  /** A transform runs to the end exactly when it is controllable. */
  lemma TransformSucceeds(t: TransformSpec, items: seq<Value>, mappings: map<Value, string>, out: string)
    requires Labelled(items, mappings)
    ensures TransformRun(t, items, mappings, out).error.None? <==> Controllable(t)
  {
    if |t.controller| > 0 {
      LevelsSucceed(t, Severities(t), items, mappings, out);
    }
  }

  /** `generate_dataset` finishes exactly when every transform is controllable. */
  lemma {:induction false} GenerateSucceeds(settings: Settings, items: seq<Value>, mappings: map<Value, string>,
                                            out: string)
    requires Labelled(items, mappings)
    ensures Generate(settings, items, mappings, out).error.None? <==>
            forall k :: 0 <= k < |settings| ==> Controllable(settings[k])
  {
    if settings != [] {
      var prefix := settings[..|settings| - 1];
      GenerateSucceeds(prefix, items, mappings, out);
      TransformSucceeds(settings[|settings| - 1], items, mappings, out);
      assert forall k :: 0 <= k < |prefix| ==> prefix[k] == settings[k];
    }
  }

  /** A severity level that fails names the transform and a controller list too short for it. */
  lemma {:induction false} LevelsFailure(t: TransformSpec, n: nat, items: seq<Value>, mappings: map<Value, string>,
                                         out: string)
    requires Labelled(items, mappings)
    ensures var e := Levels(t, n, items, mappings, out).error;
      e.Some? ==> && e.value.MissingSeverityValue? && e.value.transform == t.name && e.value.index < n
                  && exists k :: 0 <= k < |t.controller| && t.controller[k].name == e.value.param
                                 && e.value.index >= |t.controller[k].values|
  {
    if n > 0 {
      LevelsFailure(t, n - 1, items, mappings, out);
    }
  }

  /**
   * A transform that fails names itself, and fails with `StopIteration`
   * exactly when its controller is empty.
   */
  lemma TransformFailure(t: TransformSpec, items: seq<Value>, mappings: map<Value, string>, out: string)
    requires Labelled(items, mappings)
    ensures var e := TransformRun(t, items, mappings, out).error;
      e.Some? ==> e.value.transform == t.name && (e.value.EmptyController? <==> |t.controller| == 0)
  {
    if |t.controller| > 0 {
      LevelsFailure(t, Severities(t), items, mappings, out);
    }
  }

  /** A run that finishes saves every sample once per severity level of every transform. */
  lemma {:induction false} GenerateCount(settings: Settings, items: seq<Value>, mappings: map<Value, string>,
                                         out: string)
    requires Labelled(items, mappings)
    ensures Generate(settings, items, mappings, out).error.None? ==>
              |Generate(settings, items, mappings, out).saved| == TotalLevels(settings) * |items|
  {
    if settings != [] {
      var prefix := settings[..|settings| - 1];
      var t := settings[|settings| - 1];
      GenerateCount(prefix, items, mappings, out);
      var prev := Generate(prefix, items, mappings, out);
      var tr := TransformRun(t, items, mappings, out);
      if prev.error.None? && tr.error.None? {
        TransformSucceeds(t, items, mappings, out);
        TransformComplete(t, items, mappings, out);
        assert Generate(settings, items, mappings, out).saved == prev.saved + tr.saved;
        assert TotalLevels(settings) == TotalLevels(prefix) + Severities(t);
        Distribute(TotalLevels(prefix), Severities(t), |items|);
      }
    }
  }

  /** What every sample saved by the first `n` levels of a transform looks like. */
  predicate SavedBy(s: Saved, t: TransformSpec, n: nat, mappings: map<Value, string>, out: string)
  {
    && s.transform == t.name
    && 1 <= s.level <= n
    && LevelParams(t.name, t.controller, s.level - 1) == Success(s.params)
    && s.subjectId in mappings.Values
    && s == Save(out, t.name, s.level, s.params, s.subjectId)
  }

  /** Every sample saved at level `l` carries that level's parameter values and its own names. */
  lemma {:induction false} LevelsSaved(t: TransformSpec, n: nat, items: seq<Value>, mappings: map<Value, string>,
                                       out: string)
    requires Labelled(items, mappings)
    ensures forall s :: s in Levels(t, n, items, mappings, out).saved ==> SavedBy(s, t, n, mappings, out)
  {
    if n > 0 {
      LevelsSaved(t, n - 1, items, mappings, out);
      var prev := Levels(t, n - 1, items, mappings, out);
      if prev.error.None? && LevelParams(t.name, t.controller, n - 1).Success? {
        var ps := LevelParams(t.name, t.controller, n - 1).value;
        var added := LevelSaves(items, mappings, out, t.name, n, ps);
        forall s | s in added ensures SavedBy(s, t, n, mappings, out) {
          var j :| 0 <= j < |added| && added[j] == s;
          assert mappings[LabelOf(items[j])] in mappings.Values;
        }
      }
    }
  }

  /** Every level up to `n`, for every sample, is saved once the first `n` levels have run without error. */
  lemma {:induction false} LevelsComplete(t: TransformSpec, n: nat, items: seq<Value>, mappings: map<Value, string>,
                                          out: string)
    requires Labelled(items, mappings)
    requires Levels(t, n, items, mappings, out).error.None?
    ensures |Levels(t, n, items, mappings, out).saved| == n * |items|
    ensures forall i :: 0 <= i < n ==>
              && LevelParams(t.name, t.controller, i).Success?
              && forall j :: 0 <= j < |items| ==>
                   Save(out, t.name, i + 1, LevelParams(t.name, t.controller, i).value, mappings[LabelOf(items[j])])
                     in Levels(t, n, items, mappings, out).saved
  {
    if n > 0 {
      LevelsComplete(t, n - 1, items, mappings, out);
      var prev := Levels(t, n - 1, items, mappings, out);
      var ps := LevelParams(t.name, t.controller, n - 1).value;
      var added := LevelSaves(items, mappings, out, t.name, n, ps);
      var all := Levels(t, n, items, mappings, out).saved;
      assert all == prev.saved + added;
      assert (n - 1) * |items| + |items| == n * |items|;
      forall i, j | 0 <= i < n && 0 <= j < |items|
        ensures Save(out, t.name, i + 1, LevelParams(t.name, t.controller, i).value, mappings[LabelOf(items[j])]) in all
      {
        if i == n - 1 {
          assert added[j] in all;
        }
      }
    }
  }

  /** What every sample saved by a transform looks like, whether or not the transform finished. */
  lemma TransformSaved(t: TransformSpec, items: seq<Value>, mappings: map<Value, string>, out: string)
    requires Labelled(items, mappings)
    ensures forall s :: s in TransformRun(t, items, mappings, out).saved ==>
              |t.controller| > 0 && SavedBy(s, t, Severities(t), mappings, out)
  {
    if |t.controller| > 0 {
      LevelsSaved(t, Severities(t), items, mappings, out);
    }
  }

  /**
   * A controllable transform saves every sample at every one of its severity
   * levels, and nothing else: `Severities(t)` times the number of samples.
   */
  lemma TransformComplete(t: TransformSpec, items: seq<Value>, mappings: map<Value, string>, out: string)
    requires Labelled(items, mappings)
    requires Controllable(t)
    ensures |TransformRun(t, items, mappings, out).saved| == Severities(t) * |items|
    ensures forall i, j :: 0 <= i < Severities(t) && 0 <= j < |items| ==>
              Save(out, t.name, i + 1, LevelParams(t.name, t.controller, i).value, mappings[LabelOf(items[j])])
                in TransformRun(t, items, mappings, out).saved
  {
    TransformSucceeds(t, items, mappings, out);
    LevelsComplete(t, Severities(t), items, mappings, out);
  }

  /**
   * The samples a run saves are exactly those its transforms save: each one
   * comes from a transform of the settings, and a finished run holds every
   * transform's samples.
   */
  lemma {:induction false} GenerateSaved(settings: Settings, items: seq<Value>, mappings: map<Value, string>,
                                         out: string)
    requires Labelled(items, mappings)
    ensures forall s :: s in Generate(settings, items, mappings, out).saved ==>
              exists k :: 0 <= k < |settings| && s in TransformRun(settings[k], items, mappings, out).saved
    ensures Generate(settings, items, mappings, out).error.None? ==>
              forall k :: 0 <= k < |settings| ==>
                forall s :: s in TransformRun(settings[k], items, mappings, out).saved ==>
                  s in Generate(settings, items, mappings, out).saved
  {
    if settings != [] {
      var last := |settings| - 1;
      var prefix := settings[..last];
      GenerateSaved(prefix, items, mappings, out);
      var prev := Generate(prefix, items, mappings, out);
      var all := Generate(settings, items, mappings, out);
      forall s | s in all.saved
        ensures exists k :: 0 <= k < |settings| && s in TransformRun(settings[k], items, mappings, out).saved
      {
        if s in prev.saved {
          var k :| 0 <= k < |prefix| && s in TransformRun(prefix[k], items, mappings, out).saved;
          assert prefix[k] == settings[k];
        } else {
          assert s in TransformRun(settings[last], items, mappings, out).saved;
        }
      }
      if all.error.None? {
        forall k, s | 0 <= k < |settings| && s in TransformRun(settings[k], items, mappings, out).saved
          ensures s in all.saved
        {
          if k < last {
            assert prefix[k] == settings[k];
          }
        }
      }
    }
  }

  /** Once a sample fails the check of lines 88-91, the later samples change nothing. */
  lemma {:induction false} MappingsStop(items: seq<Value>, k: nat)
    requires AllDicts(items)
    requires k <= |items| && Mappings(items[..k]).Failure?
    ensures Mappings(items) == Mappings(items[..k])
    decreases |items| - k
  {
    if k < |items| {
      var prefix := items[..|items| - 1];
      assert prefix[..k] == items[..k];
      MappingsStop(prefix, k);
    } else {
      assert items[..k] == items;
    }
  }

  /** Once a parameter list is too short for index `i`, the later parameters are not looked at. */
  lemma {:induction false} LevelParamsStop(transform: string, controller: seq<Param>, k: nat, i: nat)
    requires k <= |controller|
    requires LevelParams(transform, controller[..k], i).Failure?
    ensures LevelParams(transform, controller, i) == LevelParams(transform, controller[..k], i)
    decreases |controller| - k
  {
    if k < |controller| {
      var prefix := controller[..|controller| - 1];
      assert prefix[..k] == controller[..k];
      LevelParamsStop(transform, prefix, k, i);
    } else {
      assert controller[..k] == controller;
    }
  }

  /** Once a severity level fails, no later level runs. */
  lemma {:induction false} LevelsStop(t: TransformSpec, m: nat, n: nat, items: seq<Value>,
                                      mappings: map<Value, string>, out: string)
    requires Labelled(items, mappings)
    requires m <= n && Levels(t, m, items, mappings, out).error.Some?
    ensures Levels(t, n, items, mappings, out) == Levels(t, m, items, mappings, out)
  {
    if m < n {
      LevelsStop(t, m, n - 1, items, mappings, out);
    }
  }

  /** Once a transform fails, no later transform runs. */
  lemma {:induction false} GenerateStop(settings: Settings, k: nat, items: seq<Value>,
                                        mappings: map<Value, string>, out: string)
    requires Labelled(items, mappings)
    requires k <= |settings| && Generate(settings[..k], items, mappings, out).error.Some?
    ensures Generate(settings, items, mappings, out) == Generate(settings[..k], items, mappings, out)
    decreases |settings| - k
  {
    if k < |settings| {
      var prefix := settings[..|settings| - 1];
      assert prefix[..k] == settings[..k];
      GenerateStop(prefix, k, items, mappings, out);
    } else {
      assert settings[..k] == settings;
    }
  }

  // ---------------------------------------------------------------------
  // Names
  // ---------------------------------------------------------------------

  /** In `a + [c] + s` with no `c` in `s`, position `|a|` holds the last `c`. */
  lemma LastSeparator(a: string, s: string, c: char)
    requires c !in s
    ensures (a + [c] + s)[|a|] == c
    ensures forall i :: |a| < i < |a| + 1 + |s| ==> (a + [c] + s)[i] != c
  {
    var x := a + [c] + s;
    forall i | |a| < i < |x| ensures x[i] != c {
      assert x[i] == s[i - |a| - 1];
    }
  }

  /** Splitting at the last separator: what follows it holds no separator. */
  lemma SplitAtLast(a: string, s: string, b: string, t: string, c: char)
    requires c !in s && c !in t
    requires a + [c] + s == b + [c] + t
    ensures a == b && s == t
  {
    var x := a + [c] + s;
    LastSeparator(a, s, c);
    LastSeparator(b, t, c);
    assert |a| == |b|;
    assert a == x[..|a|];
    assert b == (b + [c] + t)[..|b|];
    assert s == x[|a| + 1..];
    assert t == (b + [c] + t)[|b| + 1..];
  }

  lemma NoSeparator(s: string, c: char)
    requires AllDigits(s) && !IsDigit(c)
    ensures c !in s
  {
  }

  /**
   * Under one output path, the directory of a saved sample determines its
   * transform, its severity level and its subject ID: no two (transform,
   * level, subject) triples share a directory.
   */
  lemma SaveDirInjective(out: string, t1: string, l1: nat, id1: string, t2: string, l2: nat, id2: string)
    requires AllDigits(id1) && AllDigits(id2)
    requires SaveDir(out, t1, l1, id1) == SaveDir(out, t2, l2, id2)
    ensures t1 == t2 && l1 == l2 && id1 == id2
  {
    var d1 := NatToString(l1);
    var d2 := NatToString(l2);
    NoSeparator(id1, '/');
    NoSeparator(id2, '/');
    SplitAtLast(out + "/" + t1 + "_" + d1, id1, out + "/" + t2 + "_" + d2, id2, '/');
    NoSeparator(d1, '_');
    NoSeparator(d2, '_');
    SplitAtLast(out + "/" + t1, d1, out + "/" + t2, d2, '_');
    var p := out + "/";
    assert t1 == (p + t1)[|p|..];
    assert t2 == (p + t2)[|p|..];
    ParseNatToString(l1);
    ParseNatToString(l2);
  }

  /** Two samples of a run share a directory only if they share transform, level and subject. */
  lemma SavedDirsDistinct(s1: Saved, s2: Saved, t1: TransformSpec, t2: TransformSpec, n1: nat, n2: nat,
                          items: seq<Value>, mappings: map<Value, string>, out: string)
    requires AllDicts(items) && Mappings(items) == Success(mappings)
    requires SavedBy(s1, t1, n1, mappings, out) && SavedBy(s2, t2, n2, mappings, out)
    requires s1.saveDir == s2.saveDir
    ensures s1.transform == s2.transform && s1.level == s2.level && s1.subjectId == s2.subjectId
  {
    MappingsIds(items);
    SaveDirInjective(out, s1.transform, s1.level, s1.subjectId, s2.transform, s2.level, s2.subjectId);
  }

  /** Every ID in the table is the subject ID of one of the samples. */
  lemma {:induction false} MappingsIds(items: seq<Value>)
    requires AllDicts(items) && Mappings(items).Success?
    ensures forall id :: id in Mappings(items).value.Values ==> exists i: nat :: i < |items| && id == SubjectId(i)
  {
    if items != [] {
      var i := |items| - 1;
      MappingsIds(items[..i]);
      var m := Mappings(items).value;
      var prev := Mappings(items[..i]).value;
      forall id | id in m.Values ensures exists k: nat :: k < |items| && id == SubjectId(k) {
        var v :| v in m && m[v] == id;
        if v == LabelOf(items[i]) {
          assert id == SubjectId(i);
        } else {
          assert id in prev.Values;
        }
      }
    }
  }

  // ---------------------------------------------------------------------
  // The class
  // ---------------------------------------------------------------------

  class DatasetGenerator {
    var inputFiles: seq<Value>
    var outPath: string
    var transformSettings: Settings
    var filenameMappings: map<Value, string>

    /** The state the constructor leaves: the table is the one the sample list determines. */
    ghost predicate Valid()
      reads this
    {
      AllDicts(inputFiles) && Mappings(inputFiles) == Success(filenameMappings)
    }

    constructor (inputFiles: seq<Value>, outPath: string, transformSettings: Settings,
                 filenameMappings: map<Value, string>)
      requires AllDicts(inputFiles) && Mappings(inputFiles) == Success(filenameMappings)
      ensures Valid()
      ensures this.inputFiles == inputFiles && this.outPath == outPath
      ensures this.transformSettings == transformSettings && this.filenameMappings == filenameMappings
    {
      this.inputFiles := inputFiles;
      this.outPath := outPath;
      this.transformSettings := transformSettings;
      this.filenameMappings := filenameMappings;
    }

    /**
     * `DatasetGenerator(input_files, out_path, transform_settings)`: the two
     * asserts, the default settings when none are given, and the table of
     * lines 88-91.
     */
    static method Create(inputFiles: Value, outPath: Value, transformSettings: Option<Settings>, defaults: Settings)
      returns (r: Result<DatasetGenerator, InitError>)
      ensures IsFileList(inputFiles).Failure? ==> r == Failure(InvalidFileList(IsFileList(inputFiles).error))
      ensures IsFileList(inputFiles).Success? && !outPath.Str? ==> r == Failure(OutPathNotString)
      ensures IsFileList(inputFiles).Success? && outPath.Str? ==>
                && inputFiles.List? && AllDicts(inputFiles.items)
                && (r.Success? <==> LabelsUsable(inputFiles.items))
                && (r.Failure? ==> r == Failure(Mappings(inputFiles.items).error))
      ensures r.Success? ==> && fresh(r.value)
                             && r.value.Valid()
                             && r.value.inputFiles == inputFiles.items
                             && r.value.outPath == outPath.s
                             && r.value.transformSettings == (if transformSettings.Some? then transformSettings.value else defaults)
    {
      var check := IsFileList(inputFiles);
      if check.Failure? {
        return Failure(InvalidFileList(check.error));
      }
      if !outPath.Str? {
        return Failure(OutPathNotString);
      }
      var settings := if transformSettings.Some? then transformSettings.value else defaults;
      var mappings := BuildMappings(inputFiles.items);
      if mappings.Failure? {
        return Failure(mappings.error);
      }
      var g := new DatasetGenerator(inputFiles.items, outPath.s, settings, mappings.value);
      return Success(g);
    }

    /** `generate_dataset()`: the samples it saves and the error that stops it, if any. */
    method GenerateDataset() returns (run: Run)
      requires Valid()
      ensures Labelled(inputFiles, filenameMappings)
      ensures run == Generate(transformSettings, inputFiles, filenameMappings, outPath)
    {
      var items := inputFiles;
      var mappings := filenameMappings;
      var settings := transformSettings;
      var saved: seq<Saved> := [];
      var k := 0;
      while k < |settings|
        invariant 0 <= k <= |settings|
        invariant Generate(settings[..k], items, mappings, outPath) == Run(saved, None)
      {
        var t := settings[k];
        assert settings[..k + 1][..k] == settings[..k];
        var tr := RunTransform(t, items, mappings, outPath);
        saved := saved + tr.saved;
        if tr.error.Some? {
          assert Generate(settings[..k + 1], items, mappings, outPath) == Run(saved, tr.error);
          GenerateStop(settings, k + 1, items, mappings, outPath);
          return Run(saved, tr.error);
        }
        k := k + 1;
      }
      assert settings[..k] == settings;
      return Run(saved, None);
    }
  }

  /** The loop of lines 88-91. */
  method BuildMappings(items: seq<Value>) returns (r: Result<map<Value, string>, InitError>)
    requires AllDicts(items)
    ensures r == Mappings(items)
  {
    var mappings: map<Value, string> := map[];
    var i := 0;
    while i < |items|
      invariant 0 <= i <= |items|
      invariant Mappings(items[..i]) == Success(mappings)
    {
      assert items[..i + 1][..i] == items[..i];
      var d := items[i].entries;
      if LabelKey !in d {
        MappingsStop(items, i + 1);
        return Failure(MissingLabel(i));
      }
      if !Hashable(d[LabelKey]) {
        MappingsStop(items, i + 1);
        return Failure(UnhashableLabel(i));
      }
      mappings := mappings[d[LabelKey] := SubjectId(i)];
      i := i + 1;
    }
    assert items[..i] == items;
    return Success(mappings);
  }

  /** Lines 113-115: the attribute values of severity index `i`. */
  method SetParams(transform: string, controller: seq<Param>, i: nat) returns (r: Result<seq<(string, Value)>, GenerateError>)
    ensures r == LevelParams(transform, controller, i)
  {
    var ps: seq<(string, Value)> := [];
    var k := 0;
    while k < |controller|
      invariant 0 <= k <= |controller|
      invariant LevelParams(transform, controller[..k], i) == Success(ps)
    {
      assert controller[..k + 1][..k] == controller[..k];
      var p := controller[k];
      if i >= |p.values| {
        LevelParamsStop(transform, controller, k + 1, i);
        return Failure(MissingSeverityValue(transform, p.name, i));
      }
      ps := ps + [(p.name, p.values[i])];
      k := k + 1;
    }
    assert controller[..k] == controller;
    return Success(ps);
  }

  /** Lines 123-141: one pass over the samples at one severity level. */
  method SaveLevel(items: seq<Value>, mappings: map<Value, string>, out: string, transform: string, level: nat,
                   ps: seq<(string, Value)>)
    returns (saved: seq<Saved>)
    requires Labelled(items, mappings)
    ensures saved == LevelSaves(items, mappings, out, transform, level, ps)
  {
    saved := [];
    var j := 0;
    while j < |items|
      invariant 0 <= j <= |items|
      invariant |saved| == j
      invariant forall j' :: 0 <= j' < j ==> saved[j'] == Save(out, transform, level, ps, mappings[LabelOf(items[j'])])
    {
      var subjectId := mappings[LabelOf(items[j])];
      saved := saved + [Save(out, transform, level, ps, subjectId)];
      j := j + 1;
    }
  }

  /** Lines 108-141 for one transform: its severity levels in order. */
  method RunTransform(t: TransformSpec, items: seq<Value>, mappings: map<Value, string>, out: string)
    returns (run: Run)
    requires Labelled(items, mappings)
    ensures run == TransformRun(t, items, mappings, out)
  {
    if |t.controller| == 0 {
      return Run([], Some(EmptyController(t.name)));
    }
    var n := |t.controller[0].values|;
    var saved: seq<Saved> := [];
    var i := 0;
    while i < n
      invariant 0 <= i <= n
      invariant Levels(t, i, items, mappings, out) == Run(saved, None)
    {
      var r := RunLevel(t, i, items, mappings, out, saved);
      if r.error.Some? {
        LevelsStop(t, i + 1, n, items, mappings, out);
        return r;
      }
      saved := r.saved;
      i := i + 1;
    }
    return Run(saved, None);
  }

  /** Lines 113-141 for severity index `i`, after the levels before it saved `saved`. */
  method RunLevel(t: TransformSpec, i: nat, items: seq<Value>, mappings: map<Value, string>, out: string,
                  saved: seq<Saved>)
    returns (r: Run)
    requires Labelled(items, mappings)
    requires Levels(t, i, items, mappings, out) == Run(saved, None)
    ensures r == Levels(t, i + 1, items, mappings, out)
  {
    var ps := SetParams(t.name, t.controller, i);
    if ps.Failure? {
      return Run(saved, Some(ps.error));
    }
    var level := SaveLevel(items, mappings, out, t.name, i + 1, ps.value);
    return Run(saved + level, None);
  }
}
