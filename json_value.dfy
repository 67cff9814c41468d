/**
 * The values JSON.parse can return: the six kinds of JSON value of
 * section 3 of RFC 8259 (object, array, number, string, true/false, null),
 * and the result of JavaScript's `typeof` operator on them.
 */
module JsonValue {

  datatype Json =
    | JNull
    | JBool(b: bool)
    | JNumber(n: real)
    | JString(s: string)
    | JArray(elements: seq<Json>)
      /** Name/value members. The type admits duplicate names and any order;
          which of them JSON.parse produces is left to `parse`. */
    | JObject(members: seq<(string, Json)>)

  /**
   * `typeof v` for a parsed JSON value. JavaScript classifies `null` and
   * arrays as "object" alongside plain objects.
   */
  function TypeOf(v: Json): (r: string)
    ensures r in {"object", "boolean", "number", "string"}
    ensures r == "object" <==> v.JNull? || v.JArray? || v.JObject?
  {
    match v
    case JNull => "object"
    case JBool(_) => "boolean"
    case JNumber(_) => "number"
    case JString(_) => "string"
    case JArray(_) => "object"
    case JObject(_) => "object"
  }
}
