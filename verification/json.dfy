/**
 * Decoded JSON values as the handlers see them after `json.loads`, together
 * with the two pieces of Python dictionary semantics the handlers rely on:
 * truthiness and `dict.get`.
 */
module JsonValues {

  /** A decoded JSON value. Objects are Python dicts, keyed by string. */
  datatype Json =
    | JNull
    | JBool(b: bool)
    | JNum(n: real)
    | JStr(s: string)
    | JArr(items: seq<Json>)
    | JObj(fields: map<string, Json>)

  /**
   * The outcome of `json.loads` on a text: `Garbled` when decoding raised
   * (and, for the inbound event, when the body was absent altogether).
   */
  datatype Decoded = Garbled | Decoded(value: Json)

  /** Python truthiness: null, false, zero, and empty strings, lists and dicts are falsy. */
  predicate Truthy(j: Json) {
    match j
    case JNull => false
    case JBool(b) => b
    case JNum(n) => n != 0.0
    case JStr(s) => |s| > 0
    case JArr(items) => |items| > 0
    case JObj(fields) => |fields| > 0
  }

  /** `d.get(key)` on a dict: the stored value, or None (null) when the key is absent. */
  function Get(fields: map<string, Json>, key: string): Json
  {
    if key in fields then fields[key] else JNull
  }
}
