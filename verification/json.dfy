/**
 * JSON documents as the Python code sees them after `json.loads`, with the
 * Python-level predicates (truthiness, `isinstance(x, (int, float))`,
 * `int(x)`, `dict.get`) that the modules of the trading system rely on.
 */
module Json {
  import opened Wrappers

  datatype Json =
    | JNull
    | JBool(b: bool)
    | JInt(i: int)
    | JReal(r: real)
    | JStr(s: string)
    | JArr(items: seq<Json>)
    | JObj(fields: map<string, Json>)

  type Object = map<string, Json>

  /** Python truthiness of a decoded JSON value. */
  predicate Truthy(j: Json) {
    match j
    case JNull => false
    case JBool(b) => b
    case JInt(i) => i != 0
    case JReal(r) => r != 0.0
    case JStr(s) => |s| > 0
    case JArr(xs) => |xs| > 0
    case JObj(m) => |m| > 0
  }

  /** `isinstance(x, (int, float))`; `bool` is a subclass of `int` in Python. */
  predicate IsNumber(j: Json) {
    j.JBool? || j.JInt? || j.JReal?
  }

  /** The numeric value of a number (`True` is 1, `False` is 0). */
  function NumberValue(j: Json): real
    requires IsNumber(j)
  {
    match j
    case JBool(b) => if b then 1.0 else 0.0
    case JInt(i) => i as real
    case JReal(r) => r
  }

  /** Python's `int(x)` on a real: truncation toward zero. */
  function Trunc(r: real): (n: int)
    ensures r >= 0.0 ==> n as real <= r < n as real + 1.0
    ensures r < 0.0 ==> n as real - 1.0 < r <= n as real
  {
    if r >= 0.0 then r.Floor else -((-r).Floor)
  }

  /** `int(x)` for a JSON number. */
  function IntOf(j: Json): int
    requires IsNumber(j)
  {
    match j
    case JBool(b) => if b then 1 else 0
    case JInt(i) => i
    case JReal(r) => Trunc(r)
  }

  /**
   * Python's `float(x)`: numbers convert, strings go through `parse` (the
   * numeric-literal reader, which is outside the model), anything else raises.
   */
  function Float(j: Json, parse: string -> Option<real>): (r: Option<real>)
    ensures IsNumber(j) ==> r == Some(NumberValue(j))
    ensures j.JStr? ==> r == parse(j.s)
    ensures (j.JNull? || j.JArr? || j.JObj?) ==> r.None?
  {
    match j
    case JStr(s) => parse(s)
    case JNull => None
    case JArr(_) => None
    case JObj(_) => None
    case _ => Some(NumberValue(j))
  }

  /** `d.get(k, default)` on a JSON object. */
  function Get(m: Object, k: string, default: Json): (v: Json)
    ensures k in m ==> v == m[k]
    ensures k !in m ==> v == default
  {
    if k in m then m[k] else default
  }

  /** A list of strings as a JSON array. */
  function Strings(ss: seq<string>): (j: Json)
    ensures j.JArr? && |j.items| == |ss|
    ensures forall i :: 0 <= i < |ss| ==> j.items[i] == JStr(ss[i])
  {
    JArr(seq(|ss|, i requires 0 <= i < |ss| => JStr(ss[i])))
  }

  /** Python's `int(x)`: numbers truncate, strings go through `parseInt`, anything else raises. */
  function Int(j: Json, parseInt: string -> Option<int>): (r: Option<int>)
    ensures IsNumber(j) ==> r == Some(IntOf(j))
    ensures j.JStr? ==> r == parseInt(j.s)
    ensures (j.JNull? || j.JArr? || j.JObj?) ==> r.None?
  {
    match j
    case JStr(s) => parseInt(s)
    case JNull => None
    case JArr(_) => None
    case JObj(_) => None
    case _ => Some(IntOf(j))
  }

  /** `max(lo, min(hi, x))` on integers. */
  function ClampInt(lo: int, hi: int, x: int): (r: int)
    requires lo <= hi
    ensures lo <= r <= hi
    ensures lo <= x <= hi ==> r == x
    ensures x < lo ==> r == lo
    ensures x > hi ==> r == hi
  {
    if x < lo then lo else if x > hi then hi else x
  }

  /** `max(lo, min(hi, x))` on floats. */
  function ClampReal(lo: real, hi: real, x: real): (r: real)
    requires lo <= hi
    ensures lo <= r <= hi
    ensures lo <= x <= hi ==> r == x
    ensures x < lo ==> r == lo
    ensures x > hi ==> r == hi
  {
    if x < lo then lo else if x > hi then hi else x
  }
}
