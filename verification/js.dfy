/**
 * The slice of JavaScript's value model that the handlers and components
 * rely on: JSON-like values (plus `undefined`), numbers with NaN and the
 * infinities, truthiness, the `||` default operator, property reads with
 * `.` (which throws on null/undefined) and `?.` (which does not), and `+`
 * on numbers.
 *
 * Finite numbers are exact reals: IEEE rounding is not modelled.
 */
module Js {

  datatype Option<+T> = None | Some(value: T) {
    function GetOr(default: T): T {
      match this
      case Some(v) => v
      case None => default
    }
  }

  /** A JavaScript number. */
  datatype Number = NaN | PosInf | NegInf | Finite(value: real)

  /** A JavaScript value as far as these programs can observe it. */
  datatype JsValue =
    | JUndefined
    | JNull
    | JBool(b: bool)
    | JNumber(n: Number)
    | JString(s: string)
    | JArray(items: seq<JsValue>)
    | JObject(fields: map<string, JsValue>)

  const Zero: JsValue := JNumber(Finite(0.0))

  /** `Boolean(v)`: false exactly for undefined, null, false, NaN, 0 and "". */
  predicate Truthy(v: JsValue) {
    match v
    case JUndefined => false
    case JNull => false
    case JBool(b) => b
    case JNumber(n) => n != NaN && n != Finite(0.0)
    case JString(s) => s != ""
    case JArray(_) => true
    case JObject(_) => true
  }

  predicate TruthyNumber(n: Number) {
    Truthy(JNumber(n))
  }

  /** `a || b`: the left operand when it is truthy, otherwise the right one. */
  function Or(a: JsValue, b: JsValue): (r: JsValue)
    ensures r == a || r == b
    ensures Truthy(a) ==> r == a
    ensures !Truthy(a) ==> r == b
  {
    if Truthy(a) then a else b
  }

  /** `n || 0` on numbers. */
  function NumberOrZero(n: Number): (r: Number)
    ensures r != NaN
    ensures TruthyNumber(n) ==> r == n
    ensures !TruthyNumber(n) ==> r == Finite(0.0)
  {
    if TruthyNumber(n) then n else Finite(0.0)
  }

  /** `!v` on a value of type `string | undefined` or `string | null`: absent, or the empty string. */
  predicate Falsy(v: Option<string>) {
    v == None || v == Some("")
  }

  predicate Nullish(v: JsValue) {
    v == JUndefined || v == JNull
  }

  /**
   * `v.key` for a key that is not an intrinsic property of arrays, strings,
   * numbers or booleans: the field of an object, `undefined` on every other
   * non-nullish value, and a TypeError (None) on null and undefined.
   */
  function Get(v: JsValue, key: string): (r: Option<JsValue>)
    ensures r.None? <==> Nullish(v)
    ensures v.JObject? && key in v.fields ==> r == Some(v.fields[key])
    ensures v.JObject? && key !in v.fields ==> r == Some(JUndefined)
  {
    match v
    case JUndefined => None
    case JNull => None
    case JObject(fields) => Some(if key in fields then fields[key] else JUndefined)
    case _ => Some(JUndefined)
  }

  /** `v?.key`: like `v.key`, but `undefined` instead of a TypeError. */
  function OptGet(v: JsValue, key: string): (r: JsValue)
    ensures Nullish(v) ==> r == JUndefined
    ensures !Nullish(v) ==> Get(v, key) == Some(r)
  {
    Get(v, key).GetOr(JUndefined)
  }

  /** `a + b` on two numbers. */
  function Add(a: Number, b: Number): (r: Number)
    ensures a.Finite? && b.Finite? ==> r == Finite(a.value + b.value)
    ensures r == NaN <==> (a == NaN || b == NaN || (a == PosInf && b == NegInf) || (a == NegInf && b == PosInf))
  {
    match (a, b)
    case (NaN, _) => NaN
    case (_, NaN) => NaN
    case (PosInf, NegInf) => NaN
    case (NegInf, PosInf) => NaN
    case (PosInf, _) => PosInf
    case (_, PosInf) => PosInf
    case (NegInf, _) => NegInf
    case (_, NegInf) => NegInf
    case (Finite(x), Finite(y)) => Finite(x + y)
  }
}
