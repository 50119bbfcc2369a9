/** The JavaScript values that the logger's validators are handed, and the
    failure-carrying wrappers used to model a `throw`. */
module JsValues {

  datatype Option<+T> = None | Some(value: T)

  /** `Err` stands for a thrown exception; the operation had no result. */
  datatype Result<+T, +E> = Ok(value: T) | Err(error: E)

  /** A value as produced by `JSON.parse` (or passed by a caller).
      Numbers are the integral ones; every other value (booleans, `null`,
      arrays, `undefined`, fractional numbers) is `JOther`, which only keeps
      whether JavaScript treats it as truthy. An object is the list of its
      own enumerable properties in `Object.keys` order. */
  datatype JsValue =
    | JNumber(n: int)
    | JString(s: string)
    | JObject(entries: seq<(string, JsValue)>)
    | JOther(truthy: bool)

  /** JavaScript truthiness, as used by `x || y` and `x ||= y`. */
  predicate Truthy(v: JsValue): (t: bool)
    ensures !t <==> v == JNumber(0) || v == JString("") || v == JOther(false)
  {
    match v
    case JNumber(n) => n != 0
    case JString(s) => s != ""
    case JObject(_) => true
    case JOther(t) => t
  }
}
