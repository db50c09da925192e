/** JSON values as the handler receives them from the generative-AI client
    (function-call arguments, `errorDetails`) and as it sends them back. */
module Json {

  /** A JSON value. Numbers carry an integer: only their presence and their
      truthiness matter to the handler. */
  datatype Value =
    | JNull
    | JBool(b: bool)
    | JNumber(n: int)
    | JString(s: string)
    | JArray(items: seq<Value>)
    | JObject(fields: map<string, Value>)

  /** JavaScript truthiness of a value. In the truthiness tests and in the
      `errorDetails` test `JNull` also stands for `undefined`; in the report
      schema it is JSON `null`, which an optional field does not accept. */
  predicate Truthy(v: Value) {
    match v
    case JNull => false
    case JBool(b) => b
    case JNumber(n) => n != 0
    case JString(s) => s != ""
    case JArray(_) => true
    case JObject(_) => true
  }
}
