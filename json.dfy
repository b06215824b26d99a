/**
 * Request bodies as the JavaScript handlers see them: a JSON object whose
 * fields are read by name, a missing field reading as `undefined`.
 */
module Json {

  /**
   * A JavaScript value as it can appear in a parsed JSON request body.
   * Numbers are restricted to integers; `Obj` stands for any object or array.
   */
  datatype JsValue = Undefined | Null | Bool(b: bool) | Num(n: int) | Str(s: string) | Obj

  /** A parsed request body: field name to value. */
  type Body = map<string, JsValue>

  /** JavaScript truthiness: what `!x` tests. */
  predicate Truthy(v: JsValue)
  {
    match v
    case Undefined => false
    case Null => false
    case Bool(b) => b
    case Num(n) => n != 0
    case Str(s) => s != ""
    case Obj => true
  }

  /** `body.key`: the field's value, or `undefined` when the body has no such field. */
  function Field(body: Body, key: string): JsValue
  {
    if key in body then body[key] else Undefined
  }
}
