/**
 * The JSON values the core stores in its cache and receives from the AI
 * providers, with Python's truthiness on the decoded value.
 */
module JsonValue {

  datatype Json =
    | JNull
    | JBool(b: bool)
    | JNum(n: int)
    | JStr(s: string)
    | JArr(items: seq<Json>)
    | JObj(fields: map<string, Json>)

  /** Python's `bool(v)` on the value `json.loads` returns. */
  predicate Truthy(v: Json) {
    match v
    case JNull => false
    case JBool(b) => b
    case JNum(n) => n != 0
    case JStr(s) => s != ""
    case JArr(items) => items != []
    case JObj(fields) => fields != map[]
  }

  /**
   * The outcome of `json.loads(text)`: the decoded value, or the message of
   * the exception it raised. The decoder itself is a parameter of the model.
   */
  datatype Decoded = Parsed(value: Json) | ParseError(message: string)
}
