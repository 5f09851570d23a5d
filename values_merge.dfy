/** The values-merge engine (`YamlMerger`): backfill chart defaults into the
    live release values, let the user's override file win, then pin the
    platform version fields and drop the provenance marker. */
module ValuesMerge {
  import opened Common
  import opened Document

  const UserSupplied := "USER-SUPPLIED VALUES"
  const Global := "global"
  const ByocZipVersion := "byocZipVersion"
  const Image := "image"
  const Tag := "tag"

  predicate IsMapping(v: Option<Value>) {
    v.Some? && v.value.Mapping?
  }

  // ---------------------------------------------------------------------
  // Backfill: `_merge_new_fields`

  /** One assignment of the backfill loop for the default entry `e`. */
  function BackfillStep(source: Doc, e: Entry): Doc
    decreases e, 0
  {
    match Get(source, e.key)
    case None => Put(source, e.key, e.value)
    case Some(cur) =>
      if e.value.Mapping? && cur.Mapping? then
        Put(source, e.key, Mapping(Backfill(cur.entries, e.value.entries)))
      else source
  }

  /** `source` after the backfill loop has visited every entry of `newFields`. */
  function Backfill(source: Doc, newFields: Doc): Doc
    decreases newFields, 1
  {
    if newFields == [] then source
    else Backfill(BackfillStep(source, newFields[0]), newFields[1..])
  }

  /** `_merge_new_fields`: the loop over `new_fields.items()`, assigning into
      `source` and recursing where both sides are mappings. */
  method MergeNewFields(source: Doc, newFields: Doc) returns (merged: Doc)
    ensures merged == Backfill(source, newFields)
    decreases newFields
  {
    merged := source;
    var i := 0;
    while i < |newFields|
      invariant 0 <= i <= |newFields|
      invariant Backfill(merged, newFields[i..]) == Backfill(source, newFields)
    {
      var e := newFields[i];
      assert newFields[i..][0] == e && newFields[i..][1..] == newFields[i + 1..];
      match Get(merged, e.key) {
        case None =>
          merged := Put(merged, e.key, e.value);
        case Some(cur) =>
          if e.value.Mapping? && cur.Mapping? {
            var sub := MergeNewFields(cur.entries, e.value.entries);
            merged := Put(merged, e.key, Mapping(sub));
          }
      }
      i := i + 1;
    }
  }

  /** Key by key: a default never replaces an existing value unless both are
      mappings, in which case they are backfilled recursively; a missing key
      takes the default's value. */
  lemma {:induction false} BackfillGet(source: Doc, newFields: Doc, k: string)
    requires DistinctKeys(newFields)
    ensures Get(newFields, k).None? ==> Get(Backfill(source, newFields), k) == Get(source, k)
    ensures Get(source, k).None? ==> Get(Backfill(source, newFields), k) == Get(newFields, k)
    ensures Get(source, k).Some? && Get(newFields, k).Some? &&
            !(Get(source, k).value.Mapping? && Get(newFields, k).value.Mapping?) ==>
              Get(Backfill(source, newFields), k) == Get(source, k)
    ensures IsMapping(Get(source, k)) && IsMapping(Get(newFields, k)) ==>
              Get(Backfill(source, newFields), k) ==
              Some(Mapping(Backfill(Get(source, k).value.entries, Get(newFields, k).value.entries)))
    decreases newFields
  {
    if newFields != [] {
      var e := newFields[0];
      var next := BackfillStep(source, e);
      assert newFields == [e] + newFields[1..];
      DistinctCons(e, newFields[1..]);
      BackfillGet(next, newFields[1..], k);
    }
  }

  /** Key order: the live keys first, in their order, then each default key
      that was missing, in the defaults' order. */
  lemma {:induction false} BackfillKeys(source: Doc, newFields: Doc)
    ensures Keys(Backfill(source, newFields)) == Keys(source) + Fresh(Keys(source), newFields)
    decreases newFields
  {
    if newFields != [] {
      var e := newFields[0];
      var next := BackfillStep(source, e);
      assert Backfill(source, newFields) == Backfill(next, newFields[1..]);
      BackfillKeys(next, newFields[1..]);
      var later := Fresh(Keys(next), newFields[1..]);
      if e.key in Keys(source) {
        assert Keys(next) == Keys(source);
        assert Fresh(Keys(source), newFields) == Fresh(Keys(source), newFields[1..]);
      } else {
        assert Keys(next) == Keys(source) + [e.key];
        assert Fresh(Keys(source), newFields) == [e.key] + later;
        assert Keys(source) + [e.key] + later == Keys(source) + ([e.key] + later);
      }
    }
  }

  /** A backfilled dict is still a dict. */
  lemma {:induction false} BackfillDistinct(source: Doc, newFields: Doc)
    requires DistinctKeys(source)
    ensures DistinctKeys(Backfill(source, newFields))
    decreases newFields
  {
    if newFields != [] {
      var e := newFields[0];
      match Get(source, e.key) {
        case None => PutDistinct(source, e.key, e.value);
        case Some(cur) =>
          if e.value.Mapping? && cur.Mapping? {
            PutDistinct(source, e.key, Mapping(Backfill(cur.entries, e.value.entries)));
          }
      }
      BackfillDistinct(BackfillStep(source, e), newFields[1..]);
    }
  }

  /** A value found in a well-formed mapping is well formed. */
  lemma WellFormedGet(d: Doc, k: string)
    requires WellFormed(Mapping(d)) && Get(d, k).Some?
    ensures WellFormed(Get(d, k).value)
  {
    var i :| 0 <= i < |d| && d[i] == Entry(k, Get(d, k).value);
  }

  /** `p` is absent from `d`, and no leaf of `d` lies on the way to it: the
      last prefix of `p` that `d` holds is a mapping. */
  predicate Unreached(d: Doc, p: seq<string>)
    decreases p
  {
    p != [] &&
    match Get(d, p[0])
    case None => true
    case Some(Mapping(es)) => Unreached(es, p[1..])
    case Some(_) => false
  }

  lemma {:induction false} UnreachedAbsent(d: Doc, p: seq<string>)
    requires Unreached(d, p)
    ensures Lookup(Mapping(d), p) == None
    decreases p
  {
    LookupStep(d, p[0], p[1..]);
    assert p == [p[0]] + p[1..];
    match Get(d, p[0]) {
      case None =>
      case Some(v) => UnreachedAbsent(v.entries, p[1..]);
    }
  }

  /** Every path of the live values survives the backfill, and a leaf
      (non-mapping value) keeps its value, at every depth. */
  lemma {:induction false} BackfillKeepsPaths(source: Doc, newFields: Doc, p: seq<string>)
    requires WellFormed(Mapping(newFields)) && Lookup(Mapping(source), p).Some?
    ensures Lookup(Mapping(Backfill(source, newFields)), p).Some?
    ensures !Lookup(Mapping(source), p).value.Mapping? ==>
              Lookup(Mapping(Backfill(source, newFields)), p) == Lookup(Mapping(source), p)
    decreases p
  {
    if p != [] {
      var k, rest := p[0], p[1..];
      assert p == [k] + rest;
      LookupStep(source, k, rest);
      LookupStep(Backfill(source, newFields), k, rest);
      BackfillGet(source, newFields, k);
      if IsMapping(Get(source, k)) && IsMapping(Get(newFields, k)) && rest != [] {
        WellFormedGet(newFields, k);
        BackfillKeepsPaths(Get(source, k).value.entries, Get(newFields, k).value.entries, rest);
      }
    }
  }

  /** Where the live values have a gap, the result holds exactly what the
      defaults hold there. */
  lemma {:induction false} BackfillFillsGaps(source: Doc, newFields: Doc, p: seq<string>)
    requires WellFormed(Mapping(newFields)) && Unreached(source, p)
    ensures Lookup(Mapping(Backfill(source, newFields)), p) == Lookup(Mapping(newFields), p)
    decreases p
  {
    var k, rest := p[0], p[1..];
    assert p == [k] + rest;
    LookupStep(source, k, rest);
    LookupStep(newFields, k, rest);
    LookupStep(Backfill(source, newFields), k, rest);
    BackfillGet(source, newFields, k);
    match Get(source, k) {
      case None =>
      case Some(cv) =>
        UnreachedAbsent(cv.entries, rest);
        if IsMapping(Get(newFields, k)) {
          WellFormedGet(newFields, k);
          BackfillFillsGaps(cv.entries, Get(newFields, k).value.entries, rest);
        }
    }
  }

  // ---------------------------------------------------------------------
  // Override: `_apply_overrides`

  /** One assignment of the override loop for the override entry `e`. */
  function OverrideStep(data: Doc, e: Entry): Doc
    decreases e, 0
  {
    match Get(data, e.key)
    case Some(Mapping(cur)) =>
      if e.value.Mapping? then Put(data, e.key, Mapping(Override(cur, e.value.entries)))
      else Put(data, e.key, e.value)
    case _ => Put(data, e.key, e.value)
  }

  /** `data` after the override loop has visited every entry of `overrides`. */
  function Override(data: Doc, overrides: Doc): Doc
    decreases overrides, 1
  {
    if overrides == [] then data
    else Override(OverrideStep(data, overrides[0]), overrides[1..])
  }

  /** `_apply_overrides`: the loop over `overrides.items()`. */
  method ApplyOverrides(data: Doc, overrides: Doc) returns (result: Doc)
    ensures result == Override(data, overrides)
    decreases overrides
  {
    result := data;
    var i := 0;
    while i < |overrides|
      invariant 0 <= i <= |overrides|
      invariant Override(result, overrides[i..]) == Override(data, overrides)
    {
      var e := overrides[i];
      assert overrides[i..][0] == e && overrides[i..][1..] == overrides[i + 1..];
      var cur := Get(result, e.key);
      if e.value.Mapping? && cur.Some? && cur.value.Mapping? {
        var sub := ApplyOverrides(cur.value.entries, e.value.entries);
        result := Put(result, e.key, Mapping(sub));
      } else {
        result := Put(result, e.key, e.value);
      }
      i := i + 1;
    }
  }

  /** Key by key: keys the override file does not mention are unchanged; an
      override value that is not a mapping, or whose target is absent or not a
      mapping, replaces the target; two mappings are overridden recursively. */
  lemma {:induction false} OverrideGet(data: Doc, overrides: Doc, k: string)
    requires DistinctKeys(overrides)
    ensures Get(overrides, k).None? ==> Get(Override(data, overrides), k) == Get(data, k)
    ensures Get(overrides, k).Some? && !(IsMapping(Get(overrides, k)) && IsMapping(Get(data, k))) ==>
              Get(Override(data, overrides), k) == Get(overrides, k)
    ensures IsMapping(Get(overrides, k)) && IsMapping(Get(data, k)) ==>
              Get(Override(data, overrides), k) ==
              Some(Mapping(Override(Get(data, k).value.entries, Get(overrides, k).value.entries)))
    decreases overrides
  {
    if overrides != [] {
      var e := overrides[0];
      var rest := overrides[1..];
      assert overrides == [e] + rest;
      DistinctCons(e, rest);
      var next := OverrideStep(data, e);
      assert Override(data, overrides) == Override(next, rest);
      OverrideGet(next, rest, k);
      if e.key == k {
        assert Get(overrides, k) == Some(e.value) && Get(rest, k).None?;
      } else {
        assert Get(overrides, k) == Get(rest, k) && Get(next, k) == Get(data, k);
      }
    }
  }

  /** Key order: the existing keys first, then each override key that was new. */
  lemma {:induction false} OverrideKeys(data: Doc, overrides: Doc)
    ensures Keys(Override(data, overrides)) == Keys(data) + Fresh(Keys(data), overrides)
    decreases overrides
  {
    if overrides != [] {
      var e := overrides[0];
      var next := OverrideStep(data, e);
      assert Override(data, overrides) == Override(next, overrides[1..]);
      OverrideKeys(next, overrides[1..]);
      var later := Fresh(Keys(next), overrides[1..]);
      if e.key in Keys(data) {
        assert Keys(next) == Keys(data);
        assert Fresh(Keys(data), overrides) == Fresh(Keys(data), overrides[1..]);
      } else {
        assert Keys(next) == Keys(data) + [e.key];
        assert Fresh(Keys(data), overrides) == [e.key] + later;
        assert Keys(data) + [e.key] + later == Keys(data) + ([e.key] + later);
      }
    }
  }

  /** An overridden dict is still a dict. */
  lemma {:induction false} OverrideDistinct(data: Doc, overrides: Doc)
    requires DistinctKeys(data)
    ensures DistinctKeys(Override(data, overrides))
    decreases overrides
  {
    if overrides != [] {
      var e := overrides[0];
      match Get(data, e.key) {
        case Some(Mapping(cur)) =>
          if e.value.Mapping? {
            PutDistinct(data, e.key, Mapping(Override(cur, e.value.entries)));
          } else {
            PutDistinct(data, e.key, e.value);
          }
        case _ => PutDistinct(data, e.key, e.value);
      }
      OverrideDistinct(OverrideStep(data, e), overrides[1..]);
    }
  }

  /** Every leaf of the override file is in the result at its path. */
  lemma {:induction false} OverrideLeafWins(data: Doc, overrides: Doc, p: seq<string>)
    requires WellFormed(Mapping(overrides))
    requires Lookup(Mapping(overrides), p).Some? && !Lookup(Mapping(overrides), p).value.Mapping?
    ensures Lookup(Mapping(Override(data, overrides)), p) == Lookup(Mapping(overrides), p)
    decreases p
  {
    var k, rest := p[0], p[1..];
    assert p == [k] + rest;
    LookupStep(overrides, k, rest);
    LookupStep(Override(data, overrides), k, rest);
    OverrideGet(data, overrides, k);
    if IsMapping(Get(overrides, k)) && IsMapping(Get(data, k)) {
      WellFormedGet(overrides, k);
      OverrideLeafWins(Get(data, k).value.entries, Get(overrides, k).value.entries, rest);
    }
  }

  /** Outside what the override file reaches, the data is unchanged. */
  lemma {:induction false} OverrideKeepsUnreached(data: Doc, overrides: Doc, p: seq<string>)
    requires WellFormed(Mapping(overrides)) && Unreached(overrides, p)
    ensures Lookup(Mapping(Override(data, overrides)), p) == Lookup(Mapping(data), p)
    decreases p
  {
    var k, rest := p[0], p[1..];
    assert p == [k] + rest;
    LookupStep(data, k, rest);
    LookupStep(overrides, k, rest);
    LookupStep(Override(data, overrides), k, rest);
    OverrideGet(data, overrides, k);
    match Get(overrides, k) {
      case None =>
      case Some(ov) =>
        UnreachedAbsent(ov.entries, rest);
        WellFormedGet(overrides, k);
        if IsMapping(Get(data, k)) {
          OverrideKeepsUnreached(Get(data, k).value.entries, ov.entries, rest);
        }
    }
  }

  // ---------------------------------------------------------------------
  // merge and save_merged_yaml

  /** `merge()`: backfill, then the override pass when the override data is
      non-empty. */
  function Merged(current: Doc, defaults: Doc, overrides: Doc): Doc {
    var merged := Backfill(current, defaults);
    if overrides == [] then merged else Override(merged, overrides)
  }

  /** Skipping the override pass for empty override data is unobservable.
      (An unfolding of the definitions, kept as a statement of the guard.) */
  lemma MergeSkipsOnlyNoOps(current: Doc, defaults: Doc)
    ensures Merged(current, defaults, []) == Override(Backfill(current, defaults), [])
  {
  }

  /** `d[a][b]` read from a dict. */
  function Index2(d: Doc, a: string, b: string): (r: Result<Value, PyError>)
    ensures r.Ok? <==> Lookup(Mapping(d), [a, b]).Some?
    ensures r.Ok? ==> Lookup(Mapping(d), [a, b]) == Some(r.value)
  {
    LookupStep(d, a, [b]);
    match Get(d, a)
    case None => Err(KeyError(a))
    case Some(Mapping(es)) =>
      LookupStep(es, b, []);
      (match Get(es, b)
       case None => Err(KeyError(b))
       case Some(v) => Ok(v))
    case Some(_) => Err(TypeError)
  }

  /** `d[a][b] = v` on a dict. */
  function SetIndex2(d: Doc, a: string, b: string, v: Value): (r: Result<Doc, PyError>)
    ensures r.Ok? <==> IsMapping(Get(d, a))
    ensures r.Ok? ==> Keys(r.value) == Keys(d)
    ensures r.Ok? ==> Lookup(Mapping(r.value), [a, b]) == Some(v)
    ensures r.Ok? ==> forall k :: k != a ==> Get(r.value, k) == Get(d, k)
    ensures r.Ok? ==> IsMapping(Get(r.value, a))
    ensures r.Ok? ==> forall k :: k != b ==> Get(Get(r.value, a).value.entries, k) == Get(Get(d, a).value.entries, k)
  {
    match Get(d, a)
    case None => Err(KeyError(a))
    case Some(Mapping(es)) =>
      SetNested(d, a, es, b, v);
      Ok(Put(d, a, Mapping(Put(es, b, v))))
    case Some(_) => Err(TypeError)
  }

  /** Writing `v` at `b` inside the mapping `es` held at `a` puts `v` at
      that path. */
  lemma SetNested(d: Doc, a: string, es: Doc, b: string, v: Value)
    ensures Lookup(Mapping(Put(d, a, Mapping(Put(es, b, v)))), [a, b]) == Some(v)
  {
    var inner := Put(es, b, v);
    var r := Put(d, a, Mapping(inner));
    assert Lookup(Mapping(inner), [b]) == Some(v) by {
      LookupStep(inner, b, []);
      assert [b] + [] == [b];
    }
    LookupStep(r, a, [b]);
    assert [a] + [b] == [a, b];
  }

  /** `merged[a][b] = pins[a][b]`: the right-hand side is read first, then
      the target is indexed, as in Python. */
  function Pin(merged: Doc, pins: Doc, a: string, b: string): (r: Result<Doc, PyError>)
    ensures r.Ok? <==> Lookup(Mapping(pins), [a, b]).Some? && IsMapping(Get(merged, a))
    ensures r.Ok? ==> Lookup(Mapping(r.value), [a, b]) == Lookup(Mapping(pins), [a, b])
    ensures r.Ok? ==> Keys(r.value) == Keys(merged) && IsMapping(Get(r.value, a))
    ensures r.Ok? ==> forall k :: k != a ==> Get(r.value, k) == Get(merged, k)
  {
    var v :- Index2(pins, a, b);
    SetIndex2(merged, a, b, v)
  }

  /** `del d[UserSupplied]`. */
  function StripMarker(d: Doc): (r: Result<Doc, PyError>)
    ensures r.Ok? <==> UserSupplied in Keys(d)
    ensures r.Ok? ==> forall k :: k != UserSupplied ==> Get(r.value, k) == Get(d, k)
    ensures r.Ok? && DistinctKeys(d) ==> DistinctKeys(r.value) && UserSupplied !in Keys(r.value)
    ensures r.Ok? && DistinctKeys(d) ==> Keys(r.value) == Without(Keys(d), UserSupplied)
  {
    if UserSupplied in Keys(d) then
      if DistinctKeys(d) then
        RemoveDistinct(d, UserSupplied);
        Ok(Remove(d, UserSupplied))
      else Ok(Remove(d, UserSupplied))
    else Err(KeyError(UserSupplied))
  }

  /** The pinning and marker deletion of `save_merged_yaml`, with the pinned
      values read from `pins`. */
  function PinAndStrip(merged: Doc, pins: Doc): Result<Doc, PyError> {
    var m1 :- Pin(merged, pins, Global, ByocZipVersion);
    var m2 :- Pin(m1, pins, Image, Tag);
    StripMarker(m2)
  }

  /** A path below a top-level key depends only on that key's entry. */
  lemma LookupBelow(d: Doc, e: Doc, a: string, b: string)
    requires Get(d, a) == Get(e, a)
    ensures Lookup(Mapping(d), [a, b]) == Lookup(Mapping(e), [a, b])
  {
    LookupStep(d, a, [b]);
    LookupStep(e, a, [b]);
  }

  /** Pinning succeeds exactly when both pinned fields exist in `pins`, the
      merged document has mappings to write them into and it carries the
      marker; it then holds the pinned values and every other top-level
      entry of `merged`. */
  lemma PinAndStripSpec(merged: Doc, pins: Doc)
    ensures var r := PinAndStrip(merged, pins);
            (r.Ok? <==>
               Lookup(Mapping(pins), [Global, ByocZipVersion]).Some? && IsMapping(Get(merged, Global)) &&
               Lookup(Mapping(pins), [Image, Tag]).Some? && IsMapping(Get(merged, Image)) &&
               UserSupplied in Keys(merged)) &&
            (r.Ok? ==>
               Lookup(Mapping(r.value), [Global, ByocZipVersion]) == Lookup(Mapping(pins), [Global, ByocZipVersion]) &&
               Lookup(Mapping(r.value), [Image, Tag]) == Lookup(Mapping(pins), [Image, Tag]) &&
               (forall k :: k != Global && k != Image && k != UserSupplied ==> Get(r.value, k) == Get(merged, k)))
  {
    assert Global != Image by { assert Global[0] != Image[0]; }
    assert UserSupplied != Global && UserSupplied != Image by {
      assert UserSupplied[0] != Global[0] && UserSupplied[0] != Image[0];
    }
    var p1 := Pin(merged, pins, Global, ByocZipVersion);
    if p1.Ok? {
      var m1 := p1.value;
      var p2 := Pin(m1, pins, Image, Tag);
      if p2.Ok? {
        var m2 := p2.value;
        var p3 := StripMarker(m2);
        if p3.Ok? {
          var r := p3.value;
          LookupBelow(r, m2, Global, ByocZipVersion);
          LookupBelow(m2, m1, Global, ByocZipVersion);
          LookupBelow(r, m2, Image, Tag);
        }
      }
    }
  }

  /** `save_merged_yaml` of `src/helm_manager.py` under value semantics: the
      merge, then `global.byocZipVersion` and `image.tag` set to the
      defaults' values, then the provenance marker deleted. */
  function SaveMerged(current: Doc, defaults: Doc, overrides: Doc): Result<Doc, PyError> {
    PinAndStrip(Merged(current, defaults, overrides), defaults)
  }

  /** The saved document pins both version fields to the chart defaults,
      carries no marker key, and keeps every other top-level entry of the
      merge; it fails exactly when a pinned field or the marker is missing. */
  lemma SaveMergedSpec(current: Doc, defaults: Doc, overrides: Doc)
    requires DistinctKeys(current)
    ensures var r := SaveMerged(current, defaults, overrides);
            var merged := Merged(current, defaults, overrides);
            (r.Ok? <==>
               Lookup(Mapping(defaults), [Global, ByocZipVersion]).Some? && IsMapping(Get(merged, Global)) &&
               Lookup(Mapping(defaults), [Image, Tag]).Some? && IsMapping(Get(merged, Image)) &&
               UserSupplied in Keys(merged)) &&
            (r.Ok? ==>
               Lookup(Mapping(r.value), [Global, ByocZipVersion]) == Lookup(Mapping(defaults), [Global, ByocZipVersion]) &&
               Lookup(Mapping(r.value), [Image, Tag]) == Lookup(Mapping(defaults), [Image, Tag]) &&
               UserSupplied !in Keys(r.value) && DistinctKeys(r.value) &&
               Keys(r.value) == Without(Keys(merged), UserSupplied))
  {
    var merged := Merged(current, defaults, overrides);
    BackfillDistinct(current, defaults);
    OverrideDistinct(Backfill(current, defaults), overrides);
    PinAndStripSpec(merged, defaults);
    PinAndStripKeys(merged, defaults);
  }

  /** Pinning keeps a dict a dict and its keys in order; the deletion then
      takes out only the marker. */
  lemma PinAndStripKeys(merged: Doc, pins: Doc)
    requires DistinctKeys(merged)
    ensures var r := PinAndStrip(merged, pins);
            r.Ok? ==> DistinctKeys(r.value) && UserSupplied !in Keys(r.value) &&
                      Keys(r.value) == Without(Keys(merged), UserSupplied)
  {
    var r := PinAndStrip(merged, pins);
    if r.Ok? {
      var zip := Index2(pins, Global, ByocZipVersion).value;
      var m1 := SetIndex2(merged, Global, ByocZipVersion, zip).value;
      var tag := Index2(pins, Image, Tag).value;
      var m2 := SetIndex2(m1, Image, Tag, tag).value;
      PutDistinct(merged, Global, Mapping(Put(Get(merged, Global).value.entries, ByocZipVersion, zip)));
      PutDistinct(m1, Image, Mapping(Put(Get(m1, Image).value.entries, Tag, tag)));
    }
  }

  /** The dict `save_merged_yaml` has rewritten when it stops: the merge,
      pinned as far as the pins got, and without the marker once both pins
      succeeded. */
  function PinAndStripState(merged: Doc, pins: Doc): (r: Doc)
    ensures PinAndStrip(merged, pins).Ok? ==> r == PinAndStrip(merged, pins).value
    ensures PinAndStrip(merged, pins).Err? && !IsMapping(Get(merged, Global)) ==> r == merged
  {
    match Pin(merged, pins, Global, ByocZipVersion)
    case Err(_) => merged
    case Ok(m1) =>
      match Pin(m1, pins, Image, Tag)
      case Err(_) => m1
      case Ok(m2) => if UserSupplied in Keys(m2) then Remove(m2, UserSupplied) else m2
  }

  /** `save_merged_yaml` of `src/helmmanager.py`: the merge minus the marker,
      with no pinning. */
  function SaveMergedLegacy(current: Doc, defaults: Doc, overrides: Doc): (r: Result<Doc, PyError>)
    ensures r.Ok? <==> UserSupplied in Keys(Merged(current, defaults, overrides))
    ensures r.Ok? ==> forall k :: k != UserSupplied ==> Get(r.value, k) == Get(Merged(current, defaults, overrides), k)
    ensures r.Ok? && DistinctKeys(current) ==> UserSupplied !in Keys(r.value)
    ensures r.Ok? && DistinctKeys(current) ==>
              Keys(r.value) == Without(Keys(Merged(current, defaults, overrides)), UserSupplied)
  {
    var merged := Merged(current, defaults, overrides);
    if DistinctKeys(current) then
      BackfillDistinct(current, defaults);
      OverrideDistinct(Backfill(current, defaults), overrides);
      StripMarker(merged)
    else StripMarker(merged)
  }

  // ---------------------------------------------------------------------
  // The pinning as written: shared subtrees

  /** The defaults document after the Python merge has run: a default subtree
      that `_merge_new_fields` inserted into the live values is the same dict
      object afterwards, so an override pass that recurses into it rewrites
      the defaults as well. */
  function AliasedDefaults(current: Doc, defaults: Doc, overrides: Doc): (r: Doc)
    ensures Keys(r) == Keys(defaults)
    decreases defaults
  {
    if defaults == [] then []
    else
      var e := defaults[0];
      var v :=
        match (Get(current, e.key), e.value, Get(overrides, e.key))
        case (None, Mapping(des), Some(Mapping(oes))) => Mapping(Override(des, oes))
        case (Some(Mapping(ces)), Mapping(des), Some(Mapping(oes))) => Mapping(AliasedDefaults(ces, des, oes))
        case _ => e.value;
      [Entry(e.key, v)] + AliasedDefaults(current, defaults[1..], overrides)
  }

  /** The defaults dict after `merge()`: unchanged when the override pass is
      skipped, otherwise with its shared subtrees rewritten. */
  function DefaultsAfterMerge(current: Doc, defaults: Doc, overrides: Doc): (r: Doc)
    ensures Keys(r) == Keys(defaults)
    ensures overrides == [] ==> r == defaults
  {
    if overrides == [] then defaults else AliasedDefaults(current, defaults, overrides)
  }

  /** `save_merged_yaml` of `src/helm_manager.py` as written: the pins read
      the defaults after the merge has rewritten their shared subtrees. */
  function SaveMergedAsWritten(current: Doc, defaults: Doc, overrides: Doc): Result<Doc, PyError> {
    PinAndStrip(Merged(current, defaults, overrides), DefaultsAfterMerge(current, defaults, overrides))
  }

  /** The save as written pins both fields to what the defaults hold after
      the merge, carries no marker and keeps the merge's other keys in
      order; it fails exactly when a pinned field, a target mapping or the
      marker is missing. */
  lemma SaveMergedAsWrittenSpec(current: Doc, defaults: Doc, overrides: Doc)
    requires DistinctKeys(current)
    ensures var r := SaveMergedAsWritten(current, defaults, overrides);
            var merged := Merged(current, defaults, overrides);
            var pins := DefaultsAfterMerge(current, defaults, overrides);
            (r.Ok? <==>
               Lookup(Mapping(pins), [Global, ByocZipVersion]).Some? && IsMapping(Get(merged, Global)) &&
               Lookup(Mapping(pins), [Image, Tag]).Some? && IsMapping(Get(merged, Image)) &&
               UserSupplied in Keys(merged)) &&
            (r.Ok? ==>
               Lookup(Mapping(r.value), [Global, ByocZipVersion]) == Lookup(Mapping(pins), [Global, ByocZipVersion]) &&
               Lookup(Mapping(r.value), [Image, Tag]) == Lookup(Mapping(pins), [Image, Tag]) &&
               UserSupplied !in Keys(r.value) && DistinctKeys(r.value) &&
               Keys(r.value) == Without(Keys(merged), UserSupplied))
  {
    var merged := Merged(current, defaults, overrides);
    var pins := DefaultsAfterMerge(current, defaults, overrides);
    BackfillDistinct(current, defaults);
    OverrideDistinct(Backfill(current, defaults), overrides);
    PinAndStripSpec(merged, pins);
    PinAndStripKeys(merged, pins);
  }

  /** The aliasing leaves an entry of the defaults alone unless the live
      values lack it (or are a mapping there) and the override recurses into it. */
  lemma {:induction false} AliasedDefaultsGet(current: Doc, defaults: Doc, overrides: Doc, k: string)
    ensures Get(AliasedDefaults(current, defaults, overrides), k) ==
            match Get(defaults, k)
            case None => None
            case Some(dv) =>
              Some(match (Get(current, k), dv, Get(overrides, k))
                   case (None, Mapping(des), Some(Mapping(oes))) => Mapping(Override(des, oes))
                   case (Some(Mapping(ces)), Mapping(des), Some(Mapping(oes))) => Mapping(AliasedDefaults(ces, des, oes))
                   case _ => dv)
    decreases defaults
  {
    if defaults != [] {
      AliasedDefaultsGet(current, defaults[1..], overrides, k);
    }
  }

  /** When the live values already hold mappings under `global` and `image`
      and the defaults' pinned values are not mappings, the aliasing cannot
      reach the pinned values: the code as written pins the defaults. */
  lemma AsWrittenAgrees(current: Doc, defaults: Doc, overrides: Doc)
    requires IsMapping(Get(current, Global)) && IsMapping(Get(current, Image))
    requires Lookup(Mapping(defaults), [Global, ByocZipVersion]).Some? ==>
               !Lookup(Mapping(defaults), [Global, ByocZipVersion]).value.Mapping?
    requires Lookup(Mapping(defaults), [Image, Tag]).Some? ==>
               !Lookup(Mapping(defaults), [Image, Tag]).value.Mapping?
    ensures SaveMergedAsWritten(current, defaults, overrides) == SaveMerged(current, defaults, overrides)
  {
    if overrides != [] {
      var ad := AliasedDefaults(current, defaults, overrides);
      assert DefaultsAfterMerge(current, defaults, overrides) == ad;
      PinnedUntouched(current, defaults, overrides, Global, ByocZipVersion);
      PinnedUntouched(current, defaults, overrides, Image, Tag);
      SamePins(Merged(current, defaults, overrides), ad, defaults);
    }
  }

  /** The save reads only the two pinned fields of `pins`. */
  lemma SamePins(merged: Doc, p: Doc, q: Doc)
    requires Index2(p, Global, ByocZipVersion) == Index2(q, Global, ByocZipVersion)
    requires Index2(p, Image, Tag) == Index2(q, Image, Tag)
    ensures PinAndStrip(merged, p) == PinAndStrip(merged, q)
  {
    assert Pin(merged, p, Global, ByocZipVersion) == Pin(merged, q, Global, ByocZipVersion);
    var m1 := Pin(merged, p, Global, ByocZipVersion);
    if m1.Ok? {
      assert Pin(m1.value, p, Image, Tag) == Pin(m1.value, q, Image, Tag);
    }
  }

  /** Reading a pinned field from the aliased defaults gives what the
      defaults held, errors included, when the live values hold a mapping
      above it. */
  lemma PinnedUntouched(current: Doc, defaults: Doc, overrides: Doc, a: string, b: string)
    requires IsMapping(Get(current, a))
    requires Lookup(Mapping(defaults), [a, b]).Some? ==> !Lookup(Mapping(defaults), [a, b]).value.Mapping?
    ensures Index2(AliasedDefaults(current, defaults, overrides), a, b) == Index2(defaults, a, b)
  {
    LookupStep(defaults, a, [b]);
    AliasedDefaultsGet(current, defaults, overrides, a);
    match (Get(current, a), Get(defaults, a), Get(overrides, a)) {
      case (Some(Mapping(ces)), Some(Mapping(des)), Some(Mapping(oes))) =>
        LookupStep(des, b, []);
        AliasedDefaultsGet(ces, des, oes, b);
      case _ =>
    }
  }

  /** The live values have no `global` mapping, the chart defaults pin
      `byocZipVersion` "2" and the override file sets it to "1". */
  const LiveValues: Doc :=
    [Entry(UserSupplied, Scalar("true")), Entry(Image, Mapping([Entry(Tag, Scalar("a"))]))]
  const ChartDefaults: Doc :=
    [Entry(Global, Mapping([Entry(ByocZipVersion, Scalar("2"))])), Entry(Image, Mapping([Entry(Tag, Scalar("b"))]))]
  const UserOverrides: Doc :=
    [Entry(Global, Mapping([Entry(ByocZipVersion, Scalar("1"))]))]

  lemma KeyLiterals()
    ensures Global != Image && Global != UserSupplied && Image != UserSupplied
    ensures Tag != ByocZipVersion
  {
    assert Global[0] != Image[0] && Global[0] != UserSupplied[0] && Image[0] != UserSupplied[0];
    assert Tag[0] != ByocZipVersion[0];
  }

  /** When the live values lack `global`, the code as written "pins"
      `global.byocZipVersion` to the override file's value, not the chart
      default's. */
  lemma AsWrittenPinsOverride(current: Doc, defaults: Doc, overrides: Doc)
    requires DistinctKeys(defaults) && WellFormed(Mapping(overrides))
    requires Get(current, Global) == None && IsMapping(Get(defaults, Global))
    requires IsMapping(Get(overrides, Global))
    requires Lookup(Mapping(overrides), [Global, ByocZipVersion]).Some?
    requires !Lookup(Mapping(overrides), [Global, ByocZipVersion]).value.Mapping?
    ensures var r := SaveMergedAsWritten(current, defaults, overrides);
            r.Ok? ==> Lookup(Mapping(r.value), [Global, ByocZipVersion]) == Lookup(Mapping(overrides), [Global, ByocZipVersion])
  {
    var ad := AliasedDefaults(current, defaults, overrides);
    AliasedZip(current, defaults, overrides);
    assert overrides != [];
    PinAndStripSpec(Merged(current, defaults, overrides), ad);
  }

  /** The aliased defaults hold the override's `global.byocZipVersion`. */
  lemma AliasedZip(current: Doc, defaults: Doc, overrides: Doc)
    requires WellFormed(Mapping(overrides))
    requires Get(current, Global) == None && IsMapping(Get(defaults, Global))
    requires IsMapping(Get(overrides, Global))
    requires Lookup(Mapping(overrides), [Global, ByocZipVersion]).Some?
    requires !Lookup(Mapping(overrides), [Global, ByocZipVersion]).value.Mapping?
    ensures Lookup(Mapping(AliasedDefaults(current, defaults, overrides)), [Global, ByocZipVersion]) ==
            Lookup(Mapping(overrides), [Global, ByocZipVersion])
  {
    var ad := AliasedDefaults(current, defaults, overrides);
    var des := Get(defaults, Global).value.entries;
    var oes := Get(overrides, Global).value.entries;
    AliasedDefaultsGet(current, defaults, overrides, Global);
    assert Get(ad, Global) == Some(Mapping(Override(des, oes)));
    WellFormedGet(overrides, Global);
    LookupStep(overrides, Global, [ByocZipVersion]);
    LookupStep(oes, ByocZipVersion, []);
    OverrideGet(des, oes, ByocZipVersion);
    LookupStep(ad, Global, [ByocZipVersion]);
    LookupStep(Override(des, oes), ByocZipVersion, []);
  }

  /** In the scenario's merged document both pinned keys hold mappings and
      the marker is present. */
  lemma CounterexampleMerged(live: Doc, defaults: Doc, overrides: Doc)
    requires live == LiveValues && defaults == ChartDefaults && overrides == UserOverrides
    ensures var merged := Merged(live, defaults, overrides);
            IsMapping(Get(merged, Global)) && IsMapping(Get(merged, Image)) && UserSupplied in Keys(merged)
  {
    KeyLiterals();
    assert DistinctKeys(defaults) && DistinctKeys(overrides);
    var backfilled := Backfill(live, defaults);
    assert Get(live, Global) == None && IsMapping(Get(defaults, Global));
    assert IsMapping(Get(live, Image)) && IsMapping(Get(defaults, Image));
    assert Get(defaults, UserSupplied) == None && Get(live, UserSupplied).Some?;
    assert Get(overrides, Image) == None && Get(overrides, UserSupplied) == None;
    assert IsMapping(Get(overrides, Global));
    BackfillGet(live, defaults, Global);
    BackfillGet(live, defaults, Image);
    BackfillGet(live, defaults, UserSupplied);
    OverrideGet(backfilled, overrides, Global);
    OverrideGet(backfilled, overrides, Image);
    OverrideGet(backfilled, overrides, UserSupplied);
  }

  lemma CounterexampleAliasedTag(live: Doc, defaults: Doc, overrides: Doc)
    requires live == LiveValues && defaults == ChartDefaults && overrides == UserOverrides
    ensures Lookup(Mapping(AliasedDefaults(live, defaults, overrides)), [Image, Tag]).Some?
  {
    var ad := AliasedDefaults(live, defaults, overrides);
    var tagB := [Entry(Tag, Scalar("b"))];
    AliasedDefaultsGet(live, defaults, overrides, Image);
    assert Get(overrides, Image) == None;
    assert Get(defaults, Image) == Some(Mapping(tagB));
    LookupStep(ad, Image, [Tag]);
    LookupStep(tagB, Tag, []);
  }

  lemma CounterexampleAliasedZip(live: Doc, defaults: Doc, overrides: Doc)
    requires live == LiveValues && defaults == ChartDefaults && overrides == UserOverrides
    ensures Lookup(Mapping(AliasedDefaults(live, defaults, overrides)), [Global, ByocZipVersion]) == Some(Scalar("1"))
  {
    KeyLiterals();
    var zip1 := [Entry(ByocZipVersion, Scalar("1"))];
    assert WellFormed(Mapping(overrides));
    assert Get(live, Global) == None && IsMapping(Get(defaults, Global)) && IsMapping(Get(overrides, Global));
    LookupStep(overrides, Global, [ByocZipVersion]);
    LookupStep(zip1, ByocZipVersion, []);
    AliasedZip(live, defaults, overrides);
  }

  lemma CounterexampleAsWritten(live: Doc, defaults: Doc, overrides: Doc)
    requires live == LiveValues && defaults == ChartDefaults && overrides == UserOverrides
    ensures SaveMergedAsWritten(live, defaults, overrides).Ok?
    ensures Lookup(Mapping(SaveMergedAsWritten(live, defaults, overrides).value), [Global, ByocZipVersion]) ==
            Some(Scalar("1"))
  {
    CounterexampleMerged(live, defaults, overrides);
    CounterexampleAliasedTag(live, defaults, overrides);
    CounterexampleAliasedZip(live, defaults, overrides);
    assert overrides != [];
    PinAndStripSpec(Merged(live, defaults, overrides), AliasedDefaults(live, defaults, overrides));
  }

  lemma CounterexampleValueSemantics(live: Doc, defaults: Doc, overrides: Doc)
    requires live == LiveValues && defaults == ChartDefaults && overrides == UserOverrides
    ensures SaveMerged(live, defaults, overrides).Ok?
    ensures Lookup(Mapping(SaveMerged(live, defaults, overrides).value), [Global, ByocZipVersion]) ==
            Some(Scalar("2"))
  {
    KeyLiterals();
    CounterexampleMerged(live, defaults, overrides);
    var zip2 := [Entry(ByocZipVersion, Scalar("2"))];
    LookupStep(defaults, Global, [ByocZipVersion]);
    LookupStep(zip2, ByocZipVersion, []);
    LookupStep(defaults, Image, [Tag]);
    PinAndStripSpec(Merged(live, defaults, overrides), defaults);
  }

  /** As written, the "pin" keeps the override's value "1"; with value
      semantics it is the chart default "2". */
  lemma PinCounterexample()
    ensures SaveMergedAsWritten(LiveValues, ChartDefaults, UserOverrides).Ok?
    ensures Lookup(Mapping(SaveMergedAsWritten(LiveValues, ChartDefaults, UserOverrides).value),
                   [Global, ByocZipVersion]) == Some(Scalar("1"))
    ensures SaveMerged(LiveValues, ChartDefaults, UserOverrides).Ok?
    ensures Lookup(Mapping(SaveMerged(LiveValues, ChartDefaults, UserOverrides).value),
                   [Global, ByocZipVersion]) == Some(Scalar("2"))
  {
    CounterexampleAsWritten(LiveValues, ChartDefaults, UserOverrides);
    CounterexampleValueSemantics(LiveValues, ChartDefaults, UserOverrides);
  }

  // ---------------------------------------------------------------------
  // The merger object

  /** `YamlMerger`: the live values, the chart defaults and the override
      data, loaded once; `merge()` rewrites the live values in place, and
      with them the default subtrees the backfill shared into them. */
  class YamlMerger {
    var sourceData: Doc
    var newFieldsData: Doc
    var overrideData: Doc

    /** Without an override file the override data is the empty mapping. */
    constructor(source: Doc, newFields: Doc, overrides: Option<Doc>)
      ensures sourceData == source && newFieldsData == newFields
      ensures overrideData == if overrides.Some? then overrides.value else []
    {
      sourceData := source;
      newFieldsData := newFields;
      overrideData := if overrides.Some? then overrides.value else [];
    }

    /** `merge()`: the result is the live values object itself, backfilled
        and then overridden; the override pass also rewrites the default
        subtrees that the backfill inserted into the live values. */
    method Merge() returns (merged: Doc)
      modifies this
      ensures merged == Merged(old(sourceData), old(newFieldsData), old(overrideData))
      ensures sourceData == merged
      ensures newFieldsData == DefaultsAfterMerge(old(sourceData), old(newFieldsData), old(overrideData))
      ensures overrideData == old(overrideData)
    {
      var source := sourceData;
      merged := MergeNewFields(sourceData, newFieldsData);
      if overrideData != [] {
        merged := ApplyOverrides(merged, overrideData);
        newFieldsData := AliasedDefaults(source, newFieldsData, overrideData);
      }
      sourceData := merged;
    }

    /** `save_merged_yaml`: the document handed to the writer, or the
        exception raised before it, with the pins read from the defaults as
        the merge left them.  `merged_data` is the live values object, so it
        is left pinned as far as the pins got and, on success, without the
        marker. */
    method SaveMergedYaml() returns (written: Result<Doc, PyError>)
      modifies this
      ensures written == SaveMergedAsWritten(old(sourceData), old(newFieldsData), old(overrideData))
      ensures newFieldsData == DefaultsAfterMerge(old(sourceData), old(newFieldsData), old(overrideData))
      ensures sourceData == PinAndStripState(Merged(old(sourceData), old(newFieldsData), old(overrideData)),
                                             DefaultsAfterMerge(old(sourceData), old(newFieldsData), old(overrideData)))
      ensures written.Ok? ==> sourceData == written.value
    {
      var merged := Merge();
      var zip := Index2(newFieldsData, Global, ByocZipVersion);
      if zip.Err? {
        return Err(zip.error);
      }
      var pinned := SetIndex2(merged, Global, ByocZipVersion, zip.value);
      if pinned.Err? {
        return Err(pinned.error);
      }
      sourceData := pinned.value;
      var tag := Index2(newFieldsData, Image, Tag);
      if tag.Err? {
        return Err(tag.error);
      }
      pinned := SetIndex2(sourceData, Image, Tag, tag.value);
      if pinned.Err? {
        return Err(pinned.error);
      }
      sourceData := pinned.value;
      if UserSupplied !in Keys(sourceData) {
        return Err(KeyError(UserSupplied));
      }
      sourceData := Remove(sourceData, UserSupplied);
      written := Ok(sourceData);
    }
  }
}
