/** The parsed JSON request payload, as the Python handler sees it after
    `request.get_json()`: `None`, booleans, numbers, strings, lists and dicts. */
module JsonValues {
  import opened Wrappers

  /** A JSON value. Numbers are exact reals (the model does not distinguish
      Python's `int` from `float`). An object keeps its members in insertion
      order, so that "the order does not matter" is something to prove. */
  datatype Json =
    | Null
    | Bool(b: bool)
    | Num(n: real)
    | Str(s: string)
    | Arr(elems: seq<Json>)
    | Obj(fields: seq<(string, Json)>)

  /** Python truthiness: `not data` holds for None, False, 0, "", [] and {}. */
  predicate Falsy(j: Json) {
    match j
    case Null => true
    case Bool(b) => !b
    case Num(n) => n == 0.0
    case Str(s) => s == ""
    case Arr(elems) => elems == []
    case Obj(fields) => fields == []
  }

  /** The falsy values are exactly the six empty or zero values. */
  lemma FalsyValues(j: Json)
    ensures Falsy(j) <==> j in [Null, Bool(false), Num(0.0), Str(""), Arr([]), Obj([])]
  {
  }

  /** The keys of an object, in insertion order (`data.keys()`). */
  function Keys(fields: seq<(string, Json)>): (ks: seq<string>)
    ensures |ks| == |fields|
    ensures forall i :: 0 <= i < |fields| ==> ks[i] == fields[i].0
  {
    if fields == [] then [] else [fields[0].0] + Keys(fields[1..])
  }

  /** No string occurs twice. */
  predicate NoDuplicates(s: seq<string>) {
    forall i, j :: 0 <= i < j < |s| ==> s[i] != s[j]
  }

  /** A Python dict has each key once. */
  predicate DistinctKeys(fields: seq<(string, Json)>) {
    NoDuplicates(Keys(fields))
  }

  /** `data[k]` on a dict: the value stored under `k`, if any. */
  function Lookup(fields: seq<(string, Json)>, k: string): (r: Option<Json>)
    ensures r.Some? <==> k in Keys(fields)
    ensures r.Some? ==> (k, r.value) in fields
  {
    if fields == [] then None
    else if fields[0].0 == k then Some(fields[0].1)
    else Lookup(fields[1..], k)
  }

  /** `data[k]` for a key known to be present. */
  function Get(fields: seq<(string, Json)>, k: string): (v: Json)
    requires k in Keys(fields)
    ensures (k, v) in fields
  {
    Lookup(fields, k).value
  }

  /** In a dict the member stored under `k` is the one found by a lookup. */
  lemma {:induction false} LookupMember(fields: seq<(string, Json)>, k: string, v: Json)
    requires DistinctKeys(fields)
    requires (k, v) in fields
    ensures Lookup(fields, k) == Some(v)
  {
    if fields[0] != (k, v) {
      assert fields[0].0 != k by {
        var i :| 0 <= i < |fields| && fields[i] == (k, v);
      }
      assert (k, v) in fields[1..] by {
        var i :| 0 <= i < |fields| && fields[i] == (k, v);
        assert fields[1..][i - 1] == (k, v);
      }
      LookupMember(fields[1..], k, v);
    }
  }

  /** `isinstance(v, (int, float))`: Python's `bool` is a subclass of `int`,
      so `true` and `false` pass this test. */
  predicate IsNumber(j: Json): (r: bool)
    ensures r <==> TypeName(j) in {"int", "float", "bool"}
  {
    j.Num? || j.Bool?
  }

  /** `all(isinstance(v, (int, float)) for v in data.values())`. */
  predicate AllNumeric(fields: seq<(string, Json)>): (r: bool)
    ensures r <==> forall p | p in fields :: IsNumber(p.1)
    ensures r ==> forall k | k in Keys(fields) :: IsNumber(Get(fields, k))
  {
    forall i :: 0 <= i < |fields| ==> IsNumber(fields[i].1)
  }

  /** Python's `p in s` on two strings: a substring test. */
  predicate IsSubstring(p: string, s: string) {
    p <= s || (s != [] && IsSubstring(p, s[1..]))
  }

  /** `p` occurs in `s` starting at offset `i`. */
  predicate OccursAt(p: string, s: string, i: int) {
    0 <= i <= |s| - |p| && s[i..i + |p|] == p
  }

  /** The recursive test finds `p` exactly when it occurs at some offset. */
  lemma {:induction false} SubstringOccurs(p: string, s: string)
    ensures IsSubstring(p, s) <==> exists i :: OccursAt(p, s, i)
    decreases |s|
  {
    if p <= s {
      assert OccursAt(p, s, 0);
    } else if s != [] {
      SubstringOccurs(p, s[1..]);
      if IsSubstring(p, s[1..]) {
        var i :| OccursAt(p, s[1..], i);
        assert s[1..][i..i + |p|] == s[i + 1..i + 1 + |p|];
        assert OccursAt(p, s, i + 1);
      }
      if exists i :: OccursAt(p, s, i) {
        var i :| OccursAt(p, s, i);
        if i > 0 {
          assert s[1..][i - 1..i - 1 + |p|] == s[i..i + |p|];
          assert OccursAt(p, s[1..], i - 1);
        }
      }
    }
  }

  /** The name of the Python type a parsed JSON value has. */
  function TypeName(j: Json): string {
    match j
    case Null => "NoneType"
    case Bool(_) => "bool"
    case Num(n) => if n == n.Floor as real then "int" else "float"
    case Str(_) => "str"
    case Arr(_) => "list"
    case Obj(_) => "dict"
  }
}
