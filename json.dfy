/**
 * Decoded JSON values. Decoding (`json.loads`) and encoding (`json.dumps`) are library
 * code: the model receives them as function parameters, decoding as a partial function
 * that answers None where `json.loads` raises `JSONDecodeError`.
 */
module JsonValues {
  import opened Wrappers

  datatype Json =
    | JNull
    | JBool(b: bool)
    | JNum(n: int)
    | JStr(s: string)
    | JArr(items: seq<Json>)
    | JObj(fields: map<string, Json>)

  /** `json.loads`: None where it raises `JSONDecodeError`. */
  type Decoder = string -> Option<Json>

  /** `json.dumps`. */
  type Encoder = Json -> string

  const EmptyObject: Json := JObj(map[])

  /** Python truthiness of a decoded value (`if v:`). */
  predicate Truthy(v: Json) {
    match v
    case JNull => false
    case JBool(b) => b
    case JNum(n) => n != 0
    case JStr(s) => s != ""
    case JArr(items) => items != []
    case JObj(fields) => fields != map[]
  }

  /** `d.get(key, default)` on a decoded object. */
  function Get(fields: map<string, Json>, key: string, default: Json): Json {
    if key in fields then fields[key] else default
  }

  function OptNum(n: Option<int>): Json {
    match n
    case Some(k) => JNum(k)
    case None => JNull
  }

  function OptStr(s: Option<string>): Json {
    match s
    case Some(t) => JStr(t)
    case None => JNull
  }
}
