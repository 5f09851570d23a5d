/** YAML documents as the merge engine sees them: ordered mappings from string
    keys to scalars, lists or nested mappings.  Entry order is the Python
    dict's insertion order, which the writer keeps (`sort_keys=False`). */
module Document {
  import opened Common

  datatype Value =
    | Scalar(text: string)
    | List(items: seq<Value>)
    | Mapping(entries: seq<Entry>)

  datatype Entry = Entry(key: string, value: Value)

  /** A top-level document: the mapping a YAML file loads to. */
  type Doc = seq<Entry>

  /** The keys of `d` in iteration order. */
  function Keys(d: Doc): (ks: seq<string>)
    ensures |ks| == |d|
    ensures forall i :: 0 <= i < |d| ==> ks[i] == d[i].key
  {
    if d == [] then [] else [d[0].key] + Keys(d[1..])
  }

  /** No key occurs twice: `d` is the entry list of a real dict. */
  predicate DistinctKeys(d: Doc) {
    forall i, j :: 0 <= i < j < |d| ==> d[i].key != d[j].key
  }

  /** Every mapping inside `v`, at every depth, has distinct keys. */
  predicate WellFormed(v: Value) {
    match v
    case Scalar(_) => true
    case List(items) => forall i :: 0 <= i < |items| ==> WellFormed(items[i])
    case Mapping(es) =>
      DistinctKeys(es) && forall i :: 0 <= i < |es| ==> WellFormed(es[i].value)
  }

  /** `d.get(k)`. */
  function Get(d: Doc, k: string): (r: Option<Value>)
    ensures r.None? <==> k !in Keys(d)
    ensures r.Some? ==> Entry(k, r.value) in d
  {
    if d == [] then None
    else if d[0].key == k then Some(d[0].value)
    else Get(d[1..], k)
  }

  /** In a dict, the entry at position `i` is what `Get` finds for its key. */
  lemma {:induction false} GetDistinct(d: Doc, i: nat)
    requires DistinctKeys(d) && i < |d|
    ensures Get(d, d[i].key) == Some(d[i].value)
  {
    if i > 0 {
      assert d[1..][i - 1] == d[i];
      GetDistinct(d[1..], i - 1);
    }
  }

  /** Python `d[k] = v`: an existing key keeps its place, a new key goes last. */
  function Put(d: Doc, k: string, v: Value): (r: Doc)
    ensures forall k' :: Get(r, k') == if k' == k then Some(v) else Get(d, k')
    ensures Keys(r) == if k in Keys(d) then Keys(d) else Keys(d) + [k]
  {
    if d == [] then [Entry(k, v)]
    else if d[0].key == k then
      var r := [Entry(k, v)] + d[1..];
      assert r[1..] == d[1..];
      r
    else
      var rest := Put(d[1..], k, v);
      var r := [d[0]] + rest;
      assert r[0] == d[0] && r[1..] == rest;
      r
  }

  /** The keys `ks` other than `k`, in their order. */
  function Without(ks: seq<string>, k: string): (r: seq<string>)
    ensures forall k' :: k' in r <==> k' in ks && k' != k
  {
    if ks == [] then []
    else if ks[0] == k then Without(ks[1..], k)
    else [ks[0]] + Without(ks[1..], k)
  }

  /** Python `del d[k]` on a key that is present: in a dict, the other keys
      stay in their order. */
  function Remove(d: Doc, k: string): (r: Doc)
    ensures forall k' :: k' != k ==> Get(r, k') == Get(d, k')
    ensures |r| == if k in Keys(d) then |d| - 1 else |d|
    ensures DistinctKeys(d) ==> Keys(r) == Without(Keys(d), k)
  {
    if d == [] then []
    else if d[0].key == k then
      DistinctCons(d[0], d[1..]);
      assert [d[0]] + d[1..] == d;
      WithoutAbsent(Keys(d[1..]), k);
      d[1..]
    else
      DistinctCons(d[0], d[1..]);
      assert [d[0]] + d[1..] == d;
      var r := [d[0]] + Remove(d[1..], k);
      assert r[1..] == Remove(d[1..], k);
      r
  }

  /** Nothing to leave out. */
  lemma {:induction false} WithoutAbsent(ks: seq<string>, k: string)
    ensures k !in ks ==> Without(ks, k) == ks
  {
    if ks != [] {
      WithoutAbsent(ks[1..], k);
    }
  }

  /** A dict is a first entry whose key is new, followed by a dict. */
  lemma DistinctCons(e: Entry, d: Doc)
    ensures DistinctKeys([e] + d) <==> e.key !in Keys(d) && DistinctKeys(d)
  {
    if e.key !in Keys(d) && DistinctKeys(d) {
      DistinctConsIntro(e, d);
    }
    if DistinctKeys([e] + d) {
      DistinctConsElim(e, d);
    }
  }

  lemma DistinctConsIntro(e: Entry, d: Doc)
    requires e.key !in Keys(d) && DistinctKeys(d)
    ensures DistinctKeys([e] + d)
  {
    var c := [e] + d;
    forall i, j | 0 <= i < j < |c| ensures c[i].key != c[j].key {
      assert c[j] == d[j - 1];
      if i > 0 { assert c[i] == d[i - 1]; }
    }
  }

  lemma DistinctConsElim(e: Entry, d: Doc)
    requires DistinctKeys([e] + d)
    ensures e.key !in Keys(d) && DistinctKeys(d)
  {
    var c := [e] + d;
    forall i | 0 <= i < |d| ensures d[i].key != e.key { assert c[0] == e && c[i + 1] == d[i]; }
    forall i, j | 0 <= i < j < |d| ensures d[i].key != d[j].key { assert c[i + 1] == d[i] && c[j + 1] == d[j]; }
  }

  /** Assignment keeps a dict a dict. */
  lemma {:induction false} PutDistinct(d: Doc, k: string, v: Value)
    requires DistinctKeys(d)
    ensures DistinctKeys(Put(d, k, v))
  {
    if d != [] {
      assert d == [d[0]] + d[1..];
      DistinctCons(d[0], d[1..]);
      if d[0].key == k {
        DistinctCons(Entry(k, v), d[1..]);
      } else {
        PutDistinct(d[1..], k, v);
        DistinctCons(d[0], Put(d[1..], k, v));
      }
    }
  }

  /** `del d[k]` keeps a dict a dict and leaves no entry for `k`. */
  lemma {:induction false} RemoveDistinct(d: Doc, k: string)
    requires DistinctKeys(d)
    ensures DistinctKeys(Remove(d, k)) && k !in Keys(Remove(d, k))
  {
    if d != [] {
      assert d == [d[0]] + d[1..];
      DistinctCons(d[0], d[1..]);
      if d[0].key != k {
        RemoveDistinct(d[1..], k);
        assert Get(Remove(d[1..], k), d[0].key) == Get(d[1..], d[0].key) == None;
        DistinctCons(d[0], Remove(d[1..], k));
      }
    }
  }

  /** The value reached by following the key path `path` from `v`. */
  function Lookup(v: Value, path: seq<string>): Option<Value>
    decreases path
  {
    if path == [] then Some(v)
    else match v
      case Mapping(es) =>
        (match Get(es, path[0])
         case Some(w) => Lookup(w, path[1..])
         case None => None)
      case _ => None
  }

  /** A step into an entry of a mapping. */
  lemma LookupStep(es: Doc, k: string, rest: seq<string>)
    ensures Lookup(Mapping(es), [k] + rest) ==
            match Get(es, k) case Some(w) => Lookup(w, rest) case None => None
  {
    assert ([k] + rest)[1..] == rest;
  }

  /** Keys of `n` that are neither in `ks` nor earlier in `n`: the keys a
      sequence of assignments from `n` appends to a dict whose keys are `ks`. */
  function Fresh(ks: seq<string>, n: Doc): (r: seq<string>)
    decreases n
    ensures forall k :: k in r <==> k !in ks && k in Keys(n)
  {
    if n == [] then []
    else if n[0].key in ks then Fresh(ks, n[1..])
    else [n[0].key] + Fresh(ks + [n[0].key], n[1..])
  }

  /** Two dicts with the same keys in the same order and the same lookups are
      the same document. */
  lemma {:induction false} Extensionality(a: Doc, b: Doc)
    requires DistinctKeys(a) && Keys(a) == Keys(b)
    requires forall k :: Get(a, k) == Get(b, k)
    ensures a == b
  {
    forall i | 0 <= i < |a|
      ensures a[i] == b[i]
    {
      GetDistinct(a, i);
      assert Keys(a)[i] == Keys(b)[i];
      assert Get(b, b[i].key) == Some(a[i].value);
      assert DistinctKeys(b) by {
        forall p, q | 0 <= p < q < |b| ensures b[p].key != b[q].key {
          assert Keys(a)[p] == Keys(b)[p] && Keys(a)[q] == Keys(b)[q];
        }
      }
      GetDistinct(b, i);
    }
  }
}
