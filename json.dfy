/**
 * The values a JSON document decodes to in Python: `None`, `bool`, `int`,
 * `float`, `str`, `list` and `dict`.
 */
module Json {

  datatype JsonValue =
    | JNull
    | JBool(b: bool)
    | JInt(i: int)
    | JFloat(literal: string)   // a float, kept as its literal: its value is never inspected
    | JString(s: string)
    | JArray(elements: seq<JsonValue>)
    | JObject(fields: map<string, JsonValue>)

  /** The name Python gives the type of a decoded value, as it appears in error messages. */
  function PyTypeName(v: JsonValue): (name: string)
    ensures name != []
    ensures name == "dict" <==> v.JObject?
    ensures name == "list" <==> v.JArray?
    ensures name == "str" <==> v.JString?
  {
    match v
    case JNull => "NoneType"
    case JBool(_) => "bool"
    case JInt(_) => "int"
    case JFloat(_) => "float"
    case JString(_) => "str"
    case JArray(_) => "list"
    case JObject(_) => "dict"
  }
}
