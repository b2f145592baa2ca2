/** JSON values as Python holds them after `json.load`: the configuration file's
    contents. Objects keep their keys in insertion order, as a Python dict does,
    because the monitoring tick walks the watch map in that order. */
module Json {
  import opened Wrappers

  datatype Json =
    | JNull
    | JBool(b: bool)
    | JNum(n: real)
    | JStr(s: string)
    | JArr(items: seq<Json>)
    | JObj(fields: seq<(string, Json)>)

  /** Python truth value: `if value:`. */
  predicate Truthy(j: Json) {
    match j
    case JNull => false
    case JBool(b) => b
    case JNum(n) => n != 0.0
    case JStr(s) => s != []
    case JArr(items) => items != []
    case JObj(fields) => fields != []
  }

  /** The right operand of `float(...) > value`: numbers, and booleans as 1 and 0;
      None stands for the TypeError any other value raises. */
  function AsNumber(j: Json): (r: Option<real>)
    ensures r.Some? <==> j.JNum? || j.JBool?
  {
    match j
    case JNum(n) => Some(n)
    case JBool(b) => Some(if b then 1.0 else 0.0)
    case _ => None
  }

  /** `for x in value:`: a list yields its items, a string its characters, a
      dict its keys; anything else raises TypeError. */
  function Iterate(j: Json): (r: Result<seq<Json>>)
    ensures j.JArr? ==> r == Ok(j.items)
    ensures r.Ok? <==> j.JArr? || j.JStr? || j.JObj?
  {
    match j
    case JArr(items) => Ok(items)
    case JStr(s) => Ok(seq(|s|, i requires 0 <= i < |s| => JStr([s[i]])))
    case JObj(fields) => Ok(seq(|fields|, i requires 0 <= i < |fields| => JStr(fields[i].0)))
    case _ => Raised("TypeError")
  }

  function Keys(fields: seq<(string, Json)>): (ks: seq<string>)
    ensures |ks| == |fields|
    ensures forall i :: 0 <= i < |fields| ==> ks[i] == fields[i].0
  {
    seq(|fields|, i requires 0 <= i < |fields| => fields[i].0)
  }

  /** A dict never holds a key twice. */
  predicate DistinctKeys(fields: seq<(string, Json)>) {
    forall i, j :: 0 <= i < j < |fields| ==> fields[i].0 != fields[j].0
  }

  /** `d.get(k)`. */
  function ObjGet(fields: seq<(string, Json)>, k: string): (r: Option<Json>)
    ensures r.None? <==> k !in Keys(fields)
    ensures r.Some? ==> exists i :: 0 <= i < |fields| && fields[i] == (k, r.value)
  {
    if fields == [] then None
    else if fields[0].0 == k then Some(fields[0].1)
    else
      var r := ObjGet(fields[1..], k);
      assert Keys(fields) == [fields[0].0] + Keys(fields[1..]);
      r
  }

  /** The keys of a list with one pair in front. */
  lemma KeysCons(f: (string, Json), rest: seq<(string, Json)>)
    ensures Keys([f] + rest) == [f.0] + Keys(rest)
  {
  }

  /** Looking up in a list with one pair in front. */
  lemma ObjGetCons(f: (string, Json), rest: seq<(string, Json)>)
    ensures forall k :: ObjGet([f] + rest, k) == if f.0 == k then Some(f.1) else ObjGet(rest, k)
  {
    assert ([f] + rest)[0] == f && ([f] + rest)[1..] == rest;
  }

  /** Putting a pair with another key in front of both sides keeps the key order
      `d[k] = v` promises; the lookups are `ObjSetStepGet`. */
  lemma ObjSetStepKeys(f: (string, Json), tail: seq<(string, Json)>, rest: seq<(string, Json)>, k: string)
    requires f.0 != k
    requires Keys(rest) == if k in Keys(tail) then Keys(tail) else Keys(tail) + [k]
    ensures Keys([f] + rest) == if k in Keys([f] + tail) then Keys([f] + tail) else Keys([f] + tail) + [k]
  {
    KeysCons(f, rest);
    KeysCons(f, tail);
    assert k in Keys([f] + tail) <==> k in Keys(tail);
    if k !in Keys(tail) {
      assert [f.0] + (Keys(tail) + [k]) == ([f.0] + Keys(tail)) + [k];
    }
  }

  /** Putting a pair with another key in front of both sides keeps the lookups
      `d[k] = v` promises. */
  lemma ObjSetStepGet(f: (string, Json), tail: seq<(string, Json)>, rest: seq<(string, Json)>, k: string, v: Json)
    requires f.0 != k
    requires ObjGet(rest, k) == Some(v)
    requires forall k' :: k' != k ==> ObjGet(rest, k') == ObjGet(tail, k')
    ensures ObjGet([f] + rest, k) == Some(v)
    ensures forall k' :: k' != k ==> ObjGet([f] + rest, k') == ObjGet([f] + tail, k')
  {
    ObjGetCons(f, rest);
    ObjGetCons(f, tail);
  }

  /** `d[k] = v`: an existing key keeps its position, a new key goes last. */
  function ObjSet(fields: seq<(string, Json)>, k: string, v: Json): (r: seq<(string, Json)>)
    ensures ObjGet(r, k) == Some(v)
    ensures forall k' :: k' != k ==> ObjGet(r, k') == ObjGet(fields, k')
    ensures Keys(r) == if k in Keys(fields) then Keys(fields) else Keys(fields) + [k]
  {
    if fields == [] then [(k, v)]
    else if fields[0].0 == k then
      ObjGetCons(fields[0], fields[1..]);
      ObjGetCons((k, v), fields[1..]);
      KeysCons(fields[0], fields[1..]);
      KeysCons((k, v), fields[1..]);
      assert [fields[0]] + fields[1..] == fields;
      [(k, v)] + fields[1..]
    else
      var rest := ObjSet(fields[1..], k, v);
      ObjSetStepKeys(fields[0], fields[1..], rest, k);
      ObjSetStepGet(fields[0], fields[1..], rest, k, v);
      assert [fields[0]] + fields[1..] == fields;
      [fields[0]] + rest
  }

  lemma ObjSetKeepsDistinct(fields: seq<(string, Json)>, k: string, v: Json)
    requires DistinctKeys(fields)
    ensures DistinctKeys(ObjSet(fields, k, v))
  {
    var r := ObjSet(fields, k, v);
    forall i, j | 0 <= i < j < |r| ensures r[i].0 != r[j].0 {
      assert Keys(r)[i] == r[i].0 && Keys(r)[j] == r[j].0;
      assert Keys(fields)[i] == fields[i].0 by { if i < |fields| {} }
      if j < |fields| {
        assert Keys(fields)[j] == fields[j].0;
      } else {
        assert k !in Keys(fields);
      }
    }
  }

  /** Index of the first occurrence of `x` in a Python list. */
  function IndexOf<T(==)>(xs: seq<T>, x: T): (i: nat)
    requires x in xs
    ensures i < |xs| && xs[i] == x && x !in xs[..i]
  {
    if xs[0] == x then 0
    else
      var i := IndexOf(xs[1..], x);
      assert xs[..i + 1] == [xs[0]] + xs[1..][..i];
      i + 1
  }

  /** `xs.remove(x)` when `x in xs`: drops the first occurrence only. */
  function RemoveFirst<T(==)>(xs: seq<T>, x: T): (r: seq<T>)
    requires x in xs
    ensures multiset(r) == multiset(xs) - multiset{x}
    ensures |r| == |xs| - 1
  {
    var i := IndexOf(xs, x);
    assert xs == xs[..i] + [x] + xs[i + 1..];
    xs[..i] + xs[i + 1..]
  }

  predicate NoDuplicates<T(==)>(xs: seq<T>) {
    forall i, j :: 0 <= i < j < |xs| ==> xs[i] != xs[j]
  }
}
