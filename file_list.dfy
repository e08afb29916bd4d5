/**
 * `is_file_list` of roodmri/data/utils.py: the check that the test set handed
 * to the dataset generator is a non-empty list of `{'image': ..., 'label': ...}`
 * dictionaries of strings.
 *
 * Each failed `assert` of the source becomes an error value. Because the
 * `return True` sits inside the `for` loop, only the first dictionary's keys
 * and values are examined; the others are only required to be dictionaries.
 */
module FileList {
  import opened Wrappers

  /** The Python values the validator can meet (dictionary keys are strings here). */
  datatype Value =
    | Str(s: string)
    | Num(x: real)
    | NoneValue
    | Dict(entries: map<string, Value>)
    | List(items: seq<Value>)

  /** Which `assert` of `is_file_list` failed. */
  datatype FileListError =
    | NotAList        // line 3
    | EmptyList       // line 4
    | ItemNotDict     // lines 5-6
    | WrongKeys       // lines 10-13
    | NonStringValue  // lines 14-15

  const ImageKey: string := "image"
  const LabelKey: string := "label"

  /** One well-formed test-set entry: exactly the keys 'image' and 'label', both mapped to strings. */
  predicate IsEntry(v: Value)
  {
    && v.Dict?
    && v.entries.Keys == {ImageKey, LabelKey}
    && forall k :: k in v.entries ==> v.entries[k].Str?
  }

  /** Every item of the list is a dictionary. */
  predicate AllDicts(items: seq<Value>)
  {
    forall i :: 0 <= i < |items| ==> items[i].Dict?
  }

  /** A set of two elements that holds `a` and `b`, two different values, is `{a, b}`. */
  lemma TwoElements<T>(s: set<T>, a: T, b: T)
    requires a != b && a in s && b in s
    requires |s| == 2
    ensures s == {a, b}
  {
    var rest := s - {a, b};
    assert s == rest + {a, b};
    assert |s| == |rest| + |{a, b}|;
  }

  /** The checks of lines 10-15 on one dictionary, in the source's order. */
  function CheckEntry(item: map<string, Value>): (r: Option<FileListError>)
    ensures r.None? <==> IsEntry(Dict(item))
    ensures r == Some(WrongKeys) <==> !(|item| == 2 && ImageKey in item && LabelKey in item)
    ensures r == Some(NonStringValue) <==>
              (|item| == 2 && ImageKey in item && LabelKey in item && exists k :: k in item && !item[k].Str?)
    ensures r.Some? ==> r.value == WrongKeys || r.value == NonStringValue
  {
    if !(|item| == 2 && ImageKey in item && LabelKey in item) then
      assert IsEntry(Dict(item)) ==> |item| == 2 by {
        if IsEntry(Dict(item)) {
          assert item.Keys == {ImageKey, LabelKey};
        }
      }
      Some(WrongKeys)
    else if !(forall k :: k in item ==> item[k].Str?) then
      Some(NonStringValue)
    else
      TwoElements(item.Keys, ImageKey, LabelKey);
      None
  }

  /**
   * `is_file_list(input_files)`: `Success(true)` or the first failed check.
   * It never answers `Success(false)`, and it succeeds exactly when the
   * value is a non-empty list of dictionaries whose FIRST item is a
   * well-formed entry.
   */
  function IsFileList(v: Value): (r: Result<bool, FileListError>)
    ensures r.Success? ==> r.value
    ensures r.Success? <==> v.List? && |v.items| > 0 && AllDicts(v.items) && IsEntry(v.items[0])
    ensures !v.List? ==> r == Failure(NotAList)
    ensures v.List? && |v.items| == 0 ==> r == Failure(EmptyList)
    ensures v.List? && |v.items| > 0 && !AllDicts(v.items) ==> r == Failure(ItemNotDict)
    ensures v.List? && |v.items| > 0 && AllDicts(v.items) ==>
              var first := v.items[0].entries;
              && (r == Failure(WrongKeys) <==> !(|first| == 2 && ImageKey in first && LabelKey in first))
              && (r == Failure(NonStringValue) <==>
                    (|first| == 2 && ImageKey in first && LabelKey in first && exists k :: k in first && !first[k].Str?))
  {
    if !v.List? then Failure(NotAList)
    else if |v.items| == 0 then Failure(EmptyList)
    else if !AllDicts(v.items) then Failure(ItemNotDict)
    else
      match CheckEntry(v.items[0].entries)
      case Some(e) => Failure(e)
      case None => Success(true)
  }

  /**
   * The items after the first are only required to be dictionaries: two lists
   * of dictionaries with the same first item get the same answer, whatever
   * their other items hold.
   */
  lemma OnlyFirstItemChecked(v: Value, w: Value)
    requires v.List? && w.List?
    requires |v.items| > 0 && |w.items| > 0
    requires AllDicts(v.items) && AllDicts(w.items)
    requires v.items[0] == w.items[0]
    ensures IsFileList(v) == IsFileList(w)
  {
  }

  /** A later item with the wrong keys or a non-string value still passes. */
  lemma LaterItemsUnchecked(first: Value, later: map<string, Value>)
    requires IsEntry(first)
    ensures IsFileList(List([first, Dict(later)])) == Success(true)
  {
  }
}
