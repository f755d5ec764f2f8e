/** One page of a Bitbucket diffstat response and the set of file paths it
    mentions (bitbucket_hook_diffstat/main.py, extract_changed_paths). */
module DiffstatPage {

  /** A JSON object member that may be missing, present with `null`, or
      present with a value. */
  datatype Field<T> = Absent | Null | Present(value: T)

  /** The `old` or `new` side of a diffstat entry: the file it names. */
  datatype FileRef = FileRef(path: string)

  /** One diffstat entry (an element of the page's `values` list). The
      JSON keys are `old` and `new`; both are Dafny keywords, hence the names. */
  datatype Record = Record(oldFile: Field<FileRef>, newFile: Field<FileRef>)

  /** A parsed diffstat page: its `values` list and its optional `next` link. */
  datatype Page = Page(values: seq<Record>, next: Option<string>)

  datatype Option<T> = None | Some(value: T)

  /** The path a side contributes: its `path` when the side is present and
      not null, nothing otherwise. */
  function SidePath(side: Field<FileRef>): set<string>
  {
    if side.Present? then {side.value.path} else {}
  }

  /** The paths one diffstat entry contributes. */
  function RecordPaths(r: Record): (s: set<string>)
    ensures r.oldFile.Present? ==> r.oldFile.value.path in s
    ensures r.newFile.Present? ==> r.newFile.value.path in s
    ensures forall p :: p in s ==>
              (r.oldFile.Present? && p == r.oldFile.value.path) ||
              (r.newFile.Present? && p == r.newFile.value.path)
    ensures s == {} <==> !r.oldFile.Present? && !r.newFile.Present?
  {
    SidePath(r.oldFile) + SidePath(r.newFile)
  }

  /** The union of the paths contributed by the entries of `values`, folded
      in list order. */
  function PagePaths(values: seq<Record>): set<string>
  {
    if values == [] then {}
    else PagePaths(values[..|values| - 1]) + RecordPaths(values[|values| - 1])
  }

  /** A path belongs to a page's path set exactly when some entry of the page
      contributes it. */
  lemma {:induction false} PagePathsMembership(values: seq<Record>, p: string)
    ensures p in PagePaths(values) <==>
            exists i :: 0 <= i < |values| && p in RecordPaths(values[i])
  {
    if values != [] {
      var init := values[..|values| - 1];
      PagePathsMembership(init, p);
      if p in PagePaths(values) && p !in RecordPaths(values[|values| - 1]) {
        var i :| 0 <= i < |init| && p in RecordPaths(init[i]);
        assert values[i] == init[i];
      }
      if exists i :: 0 <= i < |values| && p in RecordPaths(values[i]) {
        var i :| 0 <= i < |values| && p in RecordPaths(values[i]);
        if i < |values| - 1 {
          assert init[i] == values[i];
        }
      }
    }
  }

  /** extract_changed_paths: walks the page's entries and adds the `old`
      path of each entry whose `old` is present and not null, then its `new`
      path under the same condition. */
  method ExtractChangedPaths(page: Page) returns (paths: set<string>)
    ensures paths == PagePaths(page.values)
    ensures forall p :: p in paths <==>
              exists i :: 0 <= i < |page.values| && p in RecordPaths(page.values[i])
  {
    var values := page.values;
    paths := {};
    for i := 0 to |values|
      invariant paths == PagePaths(values[..i])
    {
      var item := values[i];
      if item.oldFile.Present? {
        paths := paths + {item.oldFile.value.path};
      }
      if item.newFile.Present? {
        paths := paths + {item.newFile.value.path};
      }
      assert values[..i + 1][..i] == values[..i];
    }
    assert values[..|values|] == values;
    forall p
      ensures p in paths <==>
              exists i :: 0 <= i < |values| && p in RecordPaths(values[i])
    {
      PagePathsMembership(values, p);
    }
  }
}
