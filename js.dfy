/**
 * The JavaScript runtime semantics the server relies on: the values it stores and
 * receives in request bodies, truthiness, object spread, and the idioms built on
 * `Math.random()`, `Math.floor` and `Math.round`.
 */
module Js {
  import opened Common

  /**
   * A value as the server holds it: JSON data (numbers are exact reals) plus
   * `Date` objects, which the store puts in `createdAt` and `lastContact`.
   */
  datatype Value =
    | VNull
    | VBool(b: bool)
    | VNum(n: real)
    | VStr(s: string)
    | VArr(items: seq<Value>)
    | VObj(fields: map<string, Value>)
    | VDate(ms: int)

  /** A plain object, by its own enumerable keys. */
  type Record = map<string, Value>

  /** JavaScript truthiness: `null`, `false`, `0` and `""` are falsy; objects, arrays and dates are not. */
  predicate Truthy(v: Value): (t: bool)
    ensures !t <==> v == VNull || v == VBool(false) || v == VNum(0.0) || v == VStr("")
  {
    match v
    case VNull => false
    case VBool(b) => b
    case VNum(n) => n != 0.0
    case VStr(s) => s != ""
    case _ => true
  }

  /** `obj[key]` is present and truthy; a missing key reads as `undefined`, which is falsy. */
  predicate TruthyProp(obj: Record, key: string): (t: bool)
    ensures key !in obj ==> !t
    ensures key in obj ==> (t <==> obj[key] != VNull && obj[key] != VBool(false) && obj[key] != VNum(0.0) && obj[key] != VStr(""))
  {
    key in obj && Truthy(obj[key])
  }

  /** `{ ...base, ...over }`: every key of either, the later object winning on shared keys. */
  function Spread(base: Record, over: Record): (r: Record)
    ensures r.Keys == base.Keys + over.Keys
    ensures forall k :: k in over ==> r[k] == over[k]
    ensures forall k :: k in base && k !in over ==> r[k] == base[k]
  {
    base + over
  }

  /** `Math.floor(draw * n)` for a draw of `Math.random()`, which lies in [0, 1). */
  function FloorScaled(draw: real, n: nat): (i: nat)
    requires 0.0 <= draw < 1.0
    requires 0 < n
    ensures i < n
    ensures i as real <= draw * n as real < i as real + 1.0
  {
    var m := n as real;
    assert m - draw * m == (1.0 - draw) * m;
    assert 0.0 < (1.0 - draw) * m;
    assert 0.0 <= draw * m < m;
    (draw * m).Floor
  }

  /** `Math.round(x)`: the nearest integer, halves rounded up. */
  function Round(x: real): (i: int)
    ensures i as real - 0.5 <= x < i as real + 0.5
  {
    (x + 0.5).Floor
  }
}
