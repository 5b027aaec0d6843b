/** Values shared by the cache store and the tracked-state helpers: JavaScript
    values with their truthiness, the response tuple and the response details. */
module Values {

  /** `null`/`undefined` (None) or a present value (Some). */
  datatype Option<+T> = None | Some(value: T)

  /** The JavaScript values a response may carry. Numbers are integers here;
      NaN and the infinities are not modelled. Objects and arrays are opaque
      and identified by a tag. */
  datatype JsValue =
    | Undefined
    | Null
    | Bool(b: bool)
    | Num(n: int)
    | Str(s: string)
    | Obj(tag: nat)

  /** JavaScript truthiness, the test behind `||` and `if (x)`. */
  predicate Truthy(v: JsValue) {
    match v
    case Undefined => false
    case Null => false
    case Bool(b) => b
    case Num(n) => n != 0
    case Str(s) => s != ""
    case Obj(_) => true
  }

  /** `a || b` on JavaScript values. */
  function Or(a: JsValue, b: JsValue): JsValue {
    if Truthy(a) then a else b
  }

  /** A nullable number (a timestamp or a Date read as milliseconds) is truthy
      when it is present and not 0. */
  predicate TruthyNumber(t: Option<int>) {
    t.Some? && t.value != 0
  }

  /** The response tuple `[data, error, status]`. */
  datatype Response = Response(data: JsValue, error: JsValue, status: JsValue)

  /** The details stored beside a response. */
  datatype Details = Details(
    retries: int,
    timestamp: int,
    isFailed: bool,
    isCanceled: bool,
    isOffline: bool)
}
