/** `tools/compare.py`: flatten two YAML documents to the dotted paths of
    their leaves and compare the two sets of paths. */
module Compare {
  import opened Common
  import opened Document
  import opened Environment

  /** The path of `key` below `parent`; at the top there is no leading dot,
      and below a key that is the empty string neither. */
  function FullKey(parent: string, key: string): string {
    if parent == "" then key else parent + "." + key
  }

  /** The dotted path a key path from the root spells, below `parent`. */
  function Dotted(parent: string, ks: seq<string>): string
    decreases |ks|
  {
    if ks == [] then parent else Dotted(FullKey(parent, ks[0]), ks[1..])
  }

  /** What `get_all_keys(d, parent)` returns: for each entry in order, its
      own path when its value is not a dict, otherwise the paths below it. */
  function LeafPaths(d: Doc, parent: string): seq<string>
    decreases d
  {
    if d == [] then []
    else
      var full := FullKey(parent, d[0].key);
      (if d[0].value.Mapping? then LeafPaths(d[0].value.entries, full) else [full]) + LeafPaths(d[1..], parent)
  }

  /** The key path `ks` leads through the entries of `d`, and of the dicts
      below, to a value that is not a dict. */
  predicate ReachesLeaf(d: Doc, ks: seq<string>)
    decreases d
  {
    |ks| > 0 &&
    exists i :: 0 <= i < |d| && d[i].key == ks[0] &&
                (if d[i].value.Mapping? then ReachesLeaf(d[i].value.entries, ks[1..]) else |ks| == 1)
  }

  /** `get_all_keys`: the loop over `data.items()`, recursing into dict
      values and appending the path of every other value. */
  method GetAllKeys(data: Doc, parentKey: string) returns (keys: seq<string>)
    ensures keys == LeafPaths(data, parentKey)
    decreases data
  {
    keys := [];
    for i := 0 to |data|
      invariant keys == LeafPaths(data[..i], parentKey)
    {
      var entry := data[i];
      var fullKey := FullKey(parentKey, entry.key);
      if entry.value.Mapping? {
        var nested := GetAllKeys(entry.value.entries, fullKey);
        keys := keys + nested;
      } else {
        keys := keys + [fullKey];
      }
      LeafPathsAppend(data[..i], [data[i]], parentKey);
      assert data[..i + 1] == data[..i] + [data[i]];
    }
    assert data[..|data|] == data;
  }

  // ---------------------------------------------------------------------
  // Properties of the flattening

  /** Depth-first order: the paths of a concatenation are the paths of its
      first part followed by those of its second. */
  lemma {:induction false} LeafPathsAppend(a: Doc, b: Doc, parent: string)
    ensures LeafPaths(a + b, parent) == LeafPaths(a, parent) + LeafPaths(b, parent)
  {
    if a == [] {
      assert a + b == b;
    } else {
      assert (a + b)[0] == a[0];
      assert (a + b)[1..] == a[1..] + b;
      LeafPathsAppend(a[1..], b, parent);
    }
  }

  /** A dict value contributes exactly the paths below it, in one block,
      and an empty one contributes nothing. */
  lemma NestedBlock(k: string, es: Doc, rest: Doc, parent: string)
    ensures LeafPaths([Entry(k, Mapping(es))] + rest, parent) == LeafPaths(es, FullKey(parent, k)) + LeafPaths(rest, parent)
    ensures LeafPaths([Entry(k, Mapping([]))] + rest, parent) == LeafPaths(rest, parent)
  {
    assert ([Entry(k, Mapping(es))] + rest)[1..] == rest;
    assert ([Entry(k, Mapping([]))] + rest)[1..] == rest;
  }

  /** A leaf reached from the rest of a document is reached from it too. */
  lemma ReachesLeafTail(d: Doc, ks: seq<string>)
    requires |d| > 0 && ReachesLeaf(d[1..], ks)
    ensures ReachesLeaf(d, ks)
  {
    var i :| 0 <= i < |d[1..]| && d[1..][i].key == ks[0] &&
             (if d[1..][i].value.Mapping? then ReachesLeaf(d[1..][i].value.entries, ks[1..]) else |ks| == 1);
    assert d[i + 1] == d[1..][i];
  }

  /** Every path `get_all_keys` returns spells a key path to a leaf. */
  lemma {:induction false} LeafPathsSound(d: Doc, parent: string, p: string)
    requires p in LeafPaths(d, parent)
    ensures exists ks :: ReachesLeaf(d, ks) && Dotted(parent, ks) == p
    decreases d
  {
    var full := FullKey(parent, d[0].key);
    var head := if d[0].value.Mapping? then LeafPaths(d[0].value.entries, full) else [full];
    assert LeafPaths(d, parent) == head + LeafPaths(d[1..], parent);
    if p in head {
      if d[0].value.Mapping? {
        LeafPathsSound(d[0].value.entries, full, p);
        var ks' :| ReachesLeaf(d[0].value.entries, ks') && Dotted(full, ks') == p;
        var ks := [d[0].key] + ks';
        assert ks[1..] == ks';
        assert ReachesLeaf(d, ks);
        assert Dotted(parent, ks) == p;
      } else {
        var ks := [d[0].key];
        assert ks[1..] == [];
        assert ReachesLeaf(d, ks);
        assert Dotted(parent, ks) == p;
      }
    } else {
      LeafPathsSound(d[1..], parent, p);
      var ks :| ReachesLeaf(d[1..], ks) && Dotted(parent, ks) == p;
      ReachesLeafTail(d, ks);
    }
  }

  /** Every leaf's dotted key path is among the paths `get_all_keys`
      returns. */
  lemma {:induction false} LeafPathsComplete(d: Doc, parent: string, ks: seq<string>)
    requires ReachesLeaf(d, ks)
    ensures Dotted(parent, ks) in LeafPaths(d, parent)
    decreases d
  {
    var i :| 0 <= i < |d| && d[i].key == ks[0] &&
             (if d[i].value.Mapping? then ReachesLeaf(d[i].value.entries, ks[1..]) else |ks| == 1);
    var full := FullKey(parent, d[0].key);
    var head := if d[0].value.Mapping? then LeafPaths(d[0].value.entries, full) else [full];
    assert LeafPaths(d, parent) == head + LeafPaths(d[1..], parent);
    if i == 0 {
      assert Dotted(parent, ks) == Dotted(full, ks[1..]);
      if d[0].value.Mapping? {
        LeafPathsComplete(d[0].value.entries, full, ks[1..]);
      } else {
        assert ks[1..] == [];
      }
      assert Dotted(parent, ks) in head;
    } else {
      assert d[1..][i - 1] == d[i];
      assert ReachesLeaf(d[1..], ks);
      LeafPathsComplete(d[1..], parent, ks);
    }
  }

  /** The flattening is lossy: a top-level key containing a dot and the
      nested key path it spells give the same path. */
  lemma DottedKeysCollide()
    ensures LeafPaths([Entry("a.b", Scalar("1"))], "") == LeafPaths([Entry("a", Mapping([Entry("b", Scalar("1"))]))], "")
  {
    var nested := [Entry("b", Scalar("1"))];
    assert FullKey("a", "b") == "a.b";
    assert nested[1..] == [];
    assert LeafPaths(nested, "a") == ["a.b"] + LeafPaths([], "a");
    var outer := [Entry("a", Mapping(nested))];
    assert outer[1..] == [];
    assert LeafPaths(outer, "") == LeafPaths(nested, "a") + LeafPaths([], "");
    var flat := [Entry("a.b", Scalar("1"))];
    assert flat[1..] == [];
    assert LeafPaths(flat, "") == ["a.b"] + LeafPaths([], "");
  }

  // ---------------------------------------------------------------------
  // compare_yaml_fields

  /** How a comparison ends: a file did not load (`None`), the two field
      sets are equal, or they differ by the two set differences. */
  datatype Comparison =
    | LoadFailed
    | SameFields
    | DifferentFields(onlyFirst: set<string>, onlySecond: set<string>)

  /** The set a document's leaf paths form. */
  function FieldSet(d: Doc): set<string> {
    set p | p in LeafPaths(d, "")
  }

  /** Some key path from the root spells `p` and leads to a leaf. */
  ghost predicate SpellsLeaf(d: Doc, p: string) {
    exists ks :: ReachesLeaf(d, ks) && Dotted("", ks) == p
  }

  /** `load_yaml` gives `None`: the text does not parse, or is empty. */
  predicate Unloaded(l: Loaded) {
    l.Malformed? || l.Null?
  }

  /** `compare_yaml_fields` on the two loaded documents; a loaded document
      that is not a dict makes `get_all_keys` raise. */
  function CompareYamlFieldSet(first: Loaded, second: Loaded): (r: Result<Comparison, PyError>)
    ensures r == Ok(LoadFailed) <==> Unloaded(first) || Unloaded(second)
    ensures r.Err? <==> !Unloaded(first) && !Unloaded(second) && (first.NotMapping? || second.NotMapping?)
    ensures r.Ok? && !r.value.LoadFailed? ==> first.MappingDoc? && second.MappingDoc?
    ensures r == Ok(SameFields) <==>
              first.MappingDoc? && second.MappingDoc? && FieldSet(first.doc) == FieldSet(second.doc)
    ensures r.Ok? && r.value.DifferentFields? ==>
              r.value.onlyFirst == FieldSet(first.doc) - FieldSet(second.doc) &&
              r.value.onlySecond == FieldSet(second.doc) - FieldSet(first.doc) &&
              (r.value.onlyFirst != {} || r.value.onlySecond != {})
  {
    if Unloaded(first) || Unloaded(second) then Ok(LoadFailed)
    else if !first.MappingDoc? || !second.MappingDoc? then Err(AttributeError("items"))
    else
      var keys1 := FieldSet(first.doc);
      var keys2 := FieldSet(second.doc);
      if keys1 == keys2 then Ok(SameFields)
      else
        assert keys1 - keys2 == {} && keys2 - keys1 == {} ==> keys1 <= keys2 && keys2 <= keys1;
        Ok(DifferentFields(keys1 - keys2, keys2 - keys1))
  }

  /** The value `compare_yaml_fields` returns. */
  function Verdict(c: Comparison): bool {
    c.SameFields?
  }

  /** Two dicts compare equal exactly when the same dotted paths lead to
      leaves in both. */
  lemma SameFieldsMeansSameLeaves(a: Doc, b: Doc)
    ensures CompareYamlFieldSet(MappingDoc(a), MappingDoc(b)) == Ok(SameFields) <==>
              forall p :: SpellsLeaf(a, p) <==> SpellsLeaf(b, p)
  {
    forall p ensures p in FieldSet(a) <==> SpellsLeaf(a, p) {
      LeafPathsIff(a, p);
    }
    forall p ensures p in FieldSet(b) <==> SpellsLeaf(b, p) {
      LeafPathsIff(b, p);
    }
  }

  /** Both directions of the characterisation of `get_all_keys`. */
  lemma LeafPathsIff(d: Doc, p: string)
    ensures p in LeafPaths(d, "") <==> SpellsLeaf(d, p)
  {
    if p in LeafPaths(d, "") {
      LeafPathsSound(d, "", p);
    }
    if exists ks :: ReachesLeaf(d, ks) && Dotted("", ks) == p {
      var ks :| ReachesLeaf(d, ks) && Dotted("", ks) == p;
      LeafPathsComplete(d, "", ks);
    }
  }
}
