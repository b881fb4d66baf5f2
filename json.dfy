/** JSON values as Python sees them after `json.loads`: the values a tool receives as keyword
    arguments and the bodies a request carries. */
module Json {

  import opened Text

  datatype JsonValue =
    | JNull
    | JBool(b: bool)
    | JInt(i: int)
    | JFloat(f: real)
    | JString(s: String)
    | JArray(items: seq<JsonValue>)
    | JObject(fields: map<String, JsonValue>)

  /** Python's truth value of the decoded value (`bool(v)`). */
  predicate Truthy(v: JsonValue)
  {
    match v
    case JNull => false
    case JBool(b) => b
    case JInt(i) => i != 0
    case JFloat(f) => f != 0.0
    case JString(s) => s != []
    case JArray(items) => items != []
    case JObject(fields) => fields != map[]
  }

  /** Python's `type(v).__name__` of the decoded value. */
  function TypeName(v: JsonValue): String
  {
    match v
    case JNull => "NoneType"
    case JBool(_) => "bool"
    case JInt(_) => "int"
    case JFloat(_) => "float"
    case JString(_) => "str"
    case JArray(_) => "list"
    case JObject(_) => "dict"
  }

  /** `isinstance(v, int)`, which holds for booleans too. */
  predicate IsPyInt(v: JsonValue)
  {
    v.JInt? || v.JBool?
  }

  /** The integer value of an `int` or `bool`. */
  function IntValue(v: JsonValue): int
    requires IsPyInt(v)
  {
    if v.JInt? then v.i else if v.b then 1 else 0
  }

  /** Python's `str(v)` of an `int` or `bool`. */
  function IntText(v: JsonValue): String
    requires IsPyInt(v)
  {
    if v.JInt? then IntToString(v.i) else if v.b then "True" else "False"
  }
}
