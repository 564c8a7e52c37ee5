/** JSON-like values as the adapters build and receive them, and the few
    Python dict operations they use.

    A Python dict keeps its entries in insertion order, and that order is
    visible in what the adapters send (filter terms, tool properties), so an
    object is an association list rather than a map. Reading a key finds its
    first entry; `d[k] = v` overwrites that entry in place or appends a new
    one, as Python does. */
module JsonValue {
  import opened Wrappers

  datatype Json =
    | Null
    | Bool(b: bool)
    | Int(i: int)
    | Float(r: real)
    | Str(s: string)
    | Arr(items: seq<Json>)
    | Obj(fields: seq<(string, Json)>)

  /** The entries of a dict, in insertion order. */
  type Dict = seq<(string, Json)>

  function Keys(d: Dict): set<string>
  {
    if |d| == 0 then {} else {d[0].0} + Keys(d[1..])
  }

  /** A key is present exactly when some entry carries it. */
  lemma {:induction false} KeysMembership(d: Dict, k: string)
    ensures k in Keys(d) <==> exists i :: 0 <= i < |d| && d[i].0 == k
  {
    if |d| > 0 {
      KeysMembership(d[1..], k);
      if k in Keys(d[1..]) {
        var i :| 0 <= i < |d[1..]| && d[1..][i].0 == k;
        assert d[i + 1].0 == k;
      }
      if exists i :: 0 <= i < |d| && d[i].0 == k {
        var i :| 0 <= i < |d| && d[i].0 == k;
        if i > 0 {
          assert d[1..][i - 1].0 == k;
        }
      }
    }
  }

  /** The keys of a two-entry dict literal. */
  lemma KeysOfPair(a: (string, Json), b: (string, Json))
    ensures Keys([a, b]) == {a.0, b.0}
  {
    var d: Dict := [a, b];
    var tail: Dict := [b];
    assert tail[1..] == [];
    assert Keys(tail) == {b.0} + Keys(tail[1..]);
    assert d[1..] == tail;
    assert Keys(d) == {a.0} + Keys(d[1..]);
  }

  /** A dict as Python builds it never repeats a key. */
  predicate UniqueKeys(d: Dict)
  {
    forall i, j :: 0 <= i < j < |d| ==> d[i].0 != d[j].0
  }

  /** `d[k]` / `d.get(k)`: the value of the first entry for `k`. */
  function Get(d: Dict, k: string): (r: Option<Json>)
    ensures r.Some? <==> k in Keys(d)
    ensures r.Some? ==> (k, r.value) in d
  {
    if |d| == 0 then None
    else
      if d[0].0 == k then Some(d[0].1) else Get(d[1..], k)
  }

  /** The lookup finds the first entry whose key matches. */
  lemma {:induction false} GetFirstMatch(d: Dict, i: nat, k: string)
    requires i < |d| && d[i].0 == k
    requires forall j :: 0 <= j < i ==> d[j].0 != k
    ensures Get(d, k) == Some(d[i].1)
  {
    if i > 0 {
      GetFirstMatch(d[1..], i - 1, k);
    }
  }

  /** `d.get(k, default)`. */
  function GetOr(d: Dict, k: string, default: Json): (r: Json)
    ensures k !in Keys(d) ==> r == default
    ensures k in Keys(d) ==> Some(r) == Get(d, k)
  {
    Get(d, k).GetOr(default)
  }

  /** `d[k] = v`: overwrite the first entry for `k` in place, or append. */
  function Put(d: Dict, k: string, v: Json): (r: Dict)
    ensures Get(r, k) == Some(v)
    ensures Keys(r) == Keys(d) + {k}
    ensures k !in Keys(d) ==> r == d + [(k, v)]
    ensures |r| == |d| || |r| == |d| + 1
  {
    if |d| == 0 then [(k, v)]
    else
      if d[0].0 == k then
        var r := [(k, v)] + d[1..];
        assert r[1..] == d[1..];
        r
      else
        var rest := Put(d[1..], k, v);
        var r := [d[0]] + rest;
        assert r[1..] == rest;
        assert k !in Keys(d) ==> r == [d[0]] + (d[1..] + [(k, v)]) == d + [(k, v)];
        r
  }

  /** Writing a key the dict does not hold appends it. */
  lemma PutFresh(d: Dict, k: string, v: Json)
    requires forall i :: 0 <= i < |d| ==> d[i].0 != k
    ensures Put(d, k, v) == d + [(k, v)]
  {
    KeysMembership(d, k);
  }

  /** Writing one key leaves the value of every other key as it was. */
  lemma {:induction false} PutKeepsOthers(d: Dict, k: string, v: Json, other: string)
    requires other != k
    ensures Get(Put(d, k, v), other) == Get(d, other)
  {
    if |d| > 0 && d[0].0 != k {
      PutKeepsOthers(d[1..], k, v, other);
    }
  }

  /** Python truthiness: `None`, `False`, zero and empty containers are false. */
  predicate Truthy(j: Json)
  {
    match j
    case Null => false
    case Bool(b) => b
    case Int(i) => i != 0
    case Float(r) => r != 0.0
    case Str(s) => s != ""
    case Arr(items) => items != []
    case Obj(fields) => fields != []
  }

  /** `j[k]` on a value that must be a dict; None stands for the
      KeyError or TypeError Python raises otherwise. */
  function Field(j: Json, k: string): (r: Option<Json>)
    ensures r.Some? <==> j.Obj? && k in Keys(j.fields)
  {
    if j.Obj? then Get(j.fields, k) else None
  }

  /** `o[k]` where `o` is the result of an earlier lookup: missing stays
      missing, so `j[a][b]` is `Sub(Field(j, a), b)`. */
  function Sub(o: Option<Json>, k: string): (r: Option<Json>)
    ensures r.Some? <==> o.Some? && Field(o.value, k).Some?
  {
    if o.Some? then Field(o.value, k) else None
  }
}
