/**
 * `expand_selected_fields`: flattens the tree of fields a GraphQL request
 * selects into slash-separated paths, used to decide eager loading.
 */
module SelectionPaths {
  import opened Wrappers

  /**
   * A node of the selection tree.  `SelectedField` is a selected field; any
   * other selection (a fragment spread, an inline fragment) is an
   * `OtherSelection`, whose `name` and `typeCondition` are None when the
   * selection has no attribute of that name.
   */
  datatype Selection =
    | SelectedField(name: string, selections: seq<Selection>)
    | OtherSelection(otherName: Option<string>, typeCondition: Option<string>, selections: seq<Selection>)

  /** `getattr(selection, "name", getattr(selection, "type_condition", "?"))` */
  function Segment(s: Selection): string {
    match s
    case SelectedField(n, _) => n
    case OtherSelection(n, tc, _) =>
      if n.Some? then n.value else if tc.Some? then tc.value else "?"
  }

  predicate IsLeafField(s: Selection) {
    s.SelectedField? && s.selections == []
  }

  /** Leaf paths first, in selection order, then each subtree's paths in selection order. */
  function ExpandSelectedFields(sels: seq<Selection>, prefix: string): seq<string>
    decreases sels, 1
  {
    LeafPaths(sels, prefix) + NestedPaths(sels, prefix)
  }

  /** `prefix + name` for every selected field without sub-selections. */
  function LeafPaths(sels: seq<Selection>, prefix: string): seq<string>
  {
    if sels == [] then []
    else (if IsLeafField(sels[0]) then [prefix + sels[0].name] else [])
         + LeafPaths(sels[1..], prefix)
  }

  /** The concatenated expansions of the selections that have sub-selections. */
  function NestedPaths(sels: seq<Selection>, prefix: string): seq<string>
    decreases sels, 0
  {
    if sels == [] then []
    else
      (if sels[0].selections != []
       then ExpandSelectedFields(sels[0].selections, prefix + Segment(sels[0]) + "/")
       else [])
      + NestedPaths(sels[1..], prefix)
  }

  /** The default prefix of `expand_selected_fields`. */
  function ExpandFromRoot(sels: seq<Selection>): seq<string> {
    ExpandSelectedFields(sels, "/")
  }

  /** The number of selected fields without sub-selections anywhere in the forest. */
  function LeafCount(sels: seq<Selection>): nat
    decreases sels, 1
  {
    if sels == [] then 0
    else (if IsLeafField(sels[0]) then 1 else 0) + SubtreeLeaves(sels[0]) + LeafCount(sels[1..])
  }

  function SubtreeLeaves(s: Selection): nat
    decreases s, 0
  {
    LeafCount(s.selections)
  }

  // ---------------------------------------------------------------------

  /** The number of paths is the number of leaf `SelectedField`s in the tree. */
  lemma {:induction false} PathCountIsLeafCount(sels: seq<Selection>, prefix: string)
    ensures |ExpandSelectedFields(sels, prefix)| == LeafCount(sels)
    decreases sels, 1
  {
    LeafAndNestedCount(sels, prefix);
  }

  lemma {:induction false} LeafAndNestedCount(sels: seq<Selection>, prefix: string)
    ensures |LeafPaths(sels, prefix)| + |NestedPaths(sels, prefix)| == LeafCount(sels)
    decreases sels, 0
  {
    if sels != [] {
      LeafAndNestedCount(sels[1..], prefix);
      var s0 := sels[0];
      assert |LeafPaths(sels, prefix)|
          == (if IsLeafField(s0) then 1 else 0) + |LeafPaths(sels[1..], prefix)|;
      if s0.selections != [] {
        var sub := prefix + Segment(s0) + "/";
        PathCountIsLeafCount(s0.selections, sub);
        assert |NestedPaths(sels, prefix)|
            == |ExpandSelectedFields(s0.selections, sub)| + |NestedPaths(sels[1..], prefix)|;
      } else {
        assert SubtreeLeaves(s0) == 0;
        assert |NestedPaths(sels, prefix)| == |NestedPaths(sels[1..], prefix)|;
      }
    }
  }

  predicate AllStartWith(paths: seq<string>, prefix: string) {
    forall i :: 0 <= i < |paths| ==> prefix <= paths[i]
  }

  /**
   * Every path begins with the prefix; a selection with sub-selections
   * contributes only paths below `prefix + segment + "/"`.
   */
  lemma {:induction false} PathsStartWithPrefix(sels: seq<Selection>, prefix: string)
    ensures AllStartWith(ExpandSelectedFields(sels, prefix), prefix)
    decreases sels, 1
  {
    LeafPathsStartWithPrefix(sels, prefix);
    NestedPathsStartWithPrefix(sels, prefix);
  }

  lemma {:induction false} LeafPathsStartWithPrefix(sels: seq<Selection>, prefix: string)
    ensures AllStartWith(LeafPaths(sels, prefix), prefix)
  {
    if sels != [] {
      LeafPathsStartWithPrefix(sels[1..], prefix);
    }
  }

  lemma {:induction false} NestedPathsStartWithPrefix(sels: seq<Selection>, prefix: string)
    ensures AllStartWith(NestedPaths(sels, prefix), prefix)
    decreases sels, 0
  {
    if sels != [] {
      NestedPathsStartWithPrefix(sels[1..], prefix);
      if sels[0].selections != [] {
        var sub := prefix + Segment(sels[0]) + "/";
        PathsStartWithPrefix(sels[0].selections, sub);
        PrefixTransitive(ExpandSelectedFields(sels[0].selections, sub), prefix, sub);
      }
    }
  }

  lemma PrefixTransitive(paths: seq<string>, prefix: string, sub: string)
    requires prefix <= sub && AllStartWith(paths, sub)
    ensures AllStartWith(paths, prefix)
  {
  }

  /** A selection with sub-selections yields no path of its own, only paths under it. */
  lemma NestedSelectionPaths(s: Selection, prefix: string)
    requires s.selections != []
    ensures ExpandSelectedFields([s], prefix)
         == ExpandSelectedFields(s.selections, prefix + Segment(s) + "/")
    ensures AllStartWith(ExpandSelectedFields([s], prefix), prefix + Segment(s) + "/")
  {
    var sub := prefix + Segment(s) + "/";
    PathsStartWithPrefix(s.selections, sub);
    assert [s][1..] == [];
    assert LeafPaths([s], prefix) == [] + LeafPaths([], prefix) == [];
    assert NestedPaths([s], prefix) == ExpandSelectedFields(s.selections, sub) + NestedPaths([], prefix);
  }

  /** A selected field without sub-selections yields exactly `prefix + name`. */
  lemma LeafSelectionPath(name: string, prefix: string)
    ensures ExpandSelectedFields([SelectedField(name, [])], prefix) == [prefix + name]
  {
    var s := [SelectedField(name, [])];
    assert s[1..] == [];
    assert LeafPaths(s, prefix) == [prefix + name] + LeafPaths([], prefix);
    assert NestedPaths(s, prefix) == [] + NestedPaths([], prefix);
  }

  /**
   * A selection that is not a field and has nothing under it yields no path;
   * one without `name` and `type_condition` attributes appears as `?`.
   */
  lemma OtherSelectionPaths(prefix: string, leaf: string)
    ensures ExpandSelectedFields([OtherSelection(None, Some("T"), [])], prefix) == []
    ensures ExpandSelectedFields([OtherSelection(None, None, [SelectedField(leaf, [])])], prefix)
         == [prefix + "?/" + leaf]
  {
    var empty := [OtherSelection(None, Some("T"), [])];
    assert empty[1..] == [];
    assert LeafPaths(empty, prefix) == [] + LeafPaths([], prefix);
    assert NestedPaths(empty, prefix) == [] + NestedPaths([], prefix);
    var anon := OtherSelection(None, None, [SelectedField(leaf, [])]);
    NestedSelectionPaths(anon, prefix);
    LeafSelectionPath(leaf, prefix + "?" + "/");
    assert prefix + "?" + "/" + leaf == prefix + "?/" + leaf;
  }

  /** A dataset query selecting `id` and `datafiles { name }`. */
  lemma ExpandExample()
    ensures ExpandFromRoot([SelectedField("datasets", [SelectedField("id", []),
                              SelectedField("datafiles", [SelectedField("name", [])])])])
         == ["/datasets/id", "/datasets/datafiles/name"]
  {
    var name := SelectedField("name", []);
    var files := SelectedField("datafiles", [name]);
    var id := SelectedField("id", []);
    var sets := SelectedField("datasets", [id, files]);
    assert "/" + "datasets" + "/" == "/datasets/";
    assert "/datasets/" + "id" == "/datasets/id";
    assert "/datasets/" + "datafiles" + "/" == "/datasets/datafiles/";
    assert "/datasets/datafiles/" + "name" == "/datasets/datafiles/name";
    LeafSelectionPath("name", "/datasets/datafiles/");
    NestedSelectionPaths(files, "/datasets/");
    assert ExpandSelectedFields([files], "/datasets/") == ["/datasets/datafiles/name"];
    assert [id, files][1..] == [files] && [files][1..] == [];
    assert LeafPaths([files], "/datasets/") == [];
    assert LeafPaths([id, files], "/datasets/") == ["/datasets/id"];
    assert NestedPaths([files], "/datasets/") == ExpandSelectedFields(files.selections, "/datasets/datafiles/");
    assert NestedPaths([id, files], "/datasets/") == ["/datasets/datafiles/name"];
    assert ExpandSelectedFields([id, files], "/datasets/") == ["/datasets/id", "/datasets/datafiles/name"];
    NestedSelectionPaths(sets, "/");
  }
}
