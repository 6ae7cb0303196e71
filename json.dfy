/** JSON values as Python's json.loads hands them to the problem service, and
    the two pieces of Python's object protocol the service applies to them:
    truthiness (`bool(v)`) and `dict.get(key, default)`. */
module Json {

  /** A decoded JSON value. Python keeps integers and floats apart; both are
      numbers here, carried as a real. */
  datatype JsonValue =
    | JNull
    | JBool(b: bool)
    | JNumber(n: real)
    | JString(s: string)
    | JArray(items: seq<JsonValue>)
    | JObject(fields: map<string, JsonValue>)

  /** A decoded JSON object: the shape of every model reply the service reads. */
  type Payload = map<string, JsonValue>

  /** Python's `bool(v)`: null, false, zero and the empty string, list and
      dictionary are false; everything else is true. */
  predicate Truthy(v: JsonValue) {
    match v
    case JNull => false
    case JBool(b) => b
    case JNumber(n) => n != 0.0
    case JString(s) => s != ""
    case JArray(items) => items != []
    case JObject(fields) => fields != map[]
  }

  /** Python's `payload.get(key, default)`: the stored value when the key is
      present, whatever that value is, and the default only when it is absent. */
  function Get(payload: Payload, key: string, default: JsonValue): JsonValue
  {
    if key in payload then payload[key] else default
  }
}
