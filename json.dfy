/**
 * A decoded JSON document as `response.json()` returns it, and the Python
 * operations the API layer applies to it: `x['key']`, `x[i]`, `len(x)`,
 * `x[:n]`, iteration, `x.get(key, default)`, truthiness and f-string
 * formatting. Each operation raises what Python raises on a value of the
 * wrong shape.
 *
 * An object is the sequence of its members in document order. Like
 * `json.loads`, a repeated key keeps its first position and its last value.
 */
module Json {
  import opened Wrappers
  import opened Python

  datatype Json =
    | JNull
    | JBool(b: bool)
    | JInt(i: int)
    | JStr(s: string)
    | JArr(items: seq<Json>)
    | JObj(members: seq<(string, Json)>)

  /** The value bound to `k`, taking the last binding like `json.loads`. */
  function Lookup(members: seq<(string, Json)>, k: string): (r: Option<Json>)
    ensures r.None? <==> forall i :: 0 <= i < |members| ==> members[i].0 != k
    ensures r.Some? ==> exists i :: 0 <= i < |members| && members[i] == (k, r.value)
  {
    if members == [] then None
    else if members[|members| - 1].0 == k then Some(members[|members| - 1].1)
    else Lookup(members[..|members| - 1], k)
  }

  /** The distinct keys of an object in the order of their first occurrence. */
  function KeyOrder(members: seq<(string, Json)>): (ks: seq<string>)
    ensures forall k :: k in ks <==> exists i :: 0 <= i < |members| && members[i].0 == k
  {
    if members == [] then []
    else
      var ks := KeyOrder(members[..|members| - 1]);
      var k := members[|members| - 1].0;
      if k in ks then ks else ks + [k]
  }

  /** `bool(x)`. */
  predicate Truthy(j: Json) {
    match j
    case JNull => false
    case JBool(b) => b
    case JInt(i) => i != 0
    case JStr(s) => s != ""
    case JArr(items) => items != []
    case JObj(members) => members != []
  }

  /** `repr(k)` for a string key, as `str(KeyError(k))` shows it. */
  function QuoteKey(k: string): string {
    "'" + k + "'"
  }

  /** `x[k]` with a string key. */
  function Key(j: Json, k: string): (r: PyResult<Json>)
    ensures r.Ok? <==> j.JObj? && Lookup(j.members, k).Some?
    ensures j.JObj? && Lookup(j.members, k).None? ==> r == Raise(KeyError(QuoteKey(k)))
    ensures !j.JObj? ==> r == Raise(TypeError)
  {
    match j
    case JObj(members) =>
      (match Lookup(members, k)
       case Some(v) => Ok(v)
       case None => Raise(KeyError(QuoteKey(k))))
    case _ => Raise(TypeError)
  }

  /** `x[i]` with a non-negative integer index. */
  function At(j: Json, i: nat): PyResult<Json> {
    match j
    case JArr(items) => if i < |items| then Ok(items[i]) else Raise(IndexError("list index out of range"))
    case JStr(s) => if i < |s| then Ok(JStr([s[i]])) else Raise(IndexError("string index out of range"))
    case JObj(members) => Raise(KeyError(NatToString(i)))
    case _ => Raise(TypeError)
  }

  /** `len(x)`. */
  function Len(j: Json): PyResult<nat> {
    match j
    case JArr(items) => Ok(|items|)
    case JStr(s) => Ok(|s|)
    case JObj(members) => Ok(|KeyOrder(members)|)
    case _ => Raise(TypeError)
  }

  /**
   * `x[:n]`. On a dict the slice object itself becomes the key; since
   * Python 3.12 slices are hashable, so that is a `KeyError`.
   */
  function Prefix(j: Json, n: nat): PyResult<Json> {
    match j
    case JArr(items) => Ok(JArr(if n < |items| then items[..n] else items))
    case JStr(s) => Ok(JStr(if n < |s| then s[..n] else s))
    case JObj(_) => Raise(KeyError("slice(None, " + NatToString(n) + ", None)"))
    case _ => Raise(TypeError)
  }

  /** The values a `for` loop over `x` visits. */
  function Iterate(j: Json): PyResult<seq<Json>> {
    match j
    case JArr(items) => Ok(items)
    case JStr(s) => Ok(seq(|s|, i requires 0 <= i < |s| => JStr([s[i]])))
    case JObj(members) =>
      var ks := KeyOrder(members);
      Ok(seq(|ks|, i requires 0 <= i < |ks| => JStr(ks[i])))
    case _ => Raise(TypeError)
  }

  /** `x.get(k, default)`: only dicts have a `get` method. */
  function GetOr(j: Json, k: string, default: Json): (r: PyResult<Json>)
    ensures j.JObj? ==> r == Ok(Lookup(j.members, k).GetOr(default))
    ensures !j.JObj? ==> r == Raise(AttributeError)
  {
    match j
    case JObj(members) => Ok(Lookup(members, k).GetOr(default))
    case _ => Raise(AttributeError)
  }

  /** `f"{x}"`, that is `str(x)`; containers use `repr` of their elements. */
  function Str(j: Json): string {
    match j
    case JStr(s) => s
    case _ => Repr(j)
  }

  function Repr(j: Json): string
    decreases j, 1
  {
    match j
    case JNull => "None"
    case JBool(b) => if b then "True" else "False"
    case JInt(i) => IntToString(i)
    case JStr(s) => QuoteKey(s)
    case JArr(items) => "[" + ReprItems(j, items) + "]"
    case JObj(members) => "{" + ReprMembers(j, members) + "}"
  }

  function ReprItems(ghost parent: Json, items: seq<Json>): string
    requires forall x :: x in items ==> x < parent
    decreases parent, 0, |items|
  {
    if items == [] then ""
    else
      assert items[0] in items;
      assert forall x :: x in items[1..] ==> x in items;
      Repr(items[0]) + (if |items| == 1 then "" else ", " + ReprItems(parent, items[1..]))
  }

  function ReprMembers(ghost parent: Json, members: seq<(string, Json)>): string
    requires forall m :: m in members ==> m.1 < parent
    decreases parent, 0, |members|
  {
    if members == [] then ""
    else
      assert members[0] in members;
      assert forall m :: m in members[1..] ==> m in members;
      QuoteKey(members[0].0) + ": " + Repr(members[0].1)
      + (if |members| == 1 then "" else ", " + ReprMembers(parent, members[1..]))
  }
}
