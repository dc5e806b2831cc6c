/** The JSON-like values (Python dicts, lists, strings, numbers) that charts and tool traces carry. */
module JsonValue {

  datatype Json =
    | JNull
    | JBool(b: bool)
    | JNum(n: real)
    | JStr(s: string)
    | JArr(items: seq<Json>)
    | JObj(fields: map<string, Json>)

  /** A Python `dict[str, Any]` record. */
  type Record = map<string, Json>

  /** Python truthiness: `None`, `False`, `0`, `""`, `[]` and `{}` are false. */
  predicate Truthy(j: Json) {
    match j
    case JNull => false
    case JBool(b) => b
    case JNum(n) => n != 0.0
    case JStr(s) => s != ""
    case JArr(items) => items != []
    case JObj(fields) => fields != map[]
  }

  /** Python's `a or b`: `a` when it is truthy, otherwise `b`. */
  function OrElse(a: Json, b: Json): Json {
    if Truthy(a) then a else b
  }

  /** `record.get(key, default)`. */
  function Get(r: Record, key: string, default: Json): Json {
    if key in r then r[key] else default
  }
}
