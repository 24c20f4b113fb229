/**
  Python values as the report job sees them: configuration values (None, a
  string from the environment, or an integer after coercion) and the decoded
  JSON payloads that the satellite API returns.
 */
module Values {

  datatype Option<+T> = None | Some(value: T)

  /** A configuration value: Python's None, a str or an int. */
  datatype PyValue = PyNone | Str(s: string) | Int(n: int)

  /** Python truthiness of a configuration value: None, "" and 0 are falsy. */
  predicate Truthy(v: PyValue)
  {
    match v
    case PyNone => false
    case Str(s) => s != ""
    case Int(n) => n != 0
  }

  /**
    A decoded JSON document as Python's json module returns it: objects become
    dicts (a map here), arrays lists, numbers without a fraction or exponent
    int and the others float (a real here).
   */
  datatype Json =
    | JNull
    | JBool(b: bool)
    | JInt(i: int)
    | JFloat(f: real)
    | JStr(text: string)
    | JArr(items: seq<Json>)
    | JObj(fields: map<string, Json>)

  /** Python truthiness of a decoded JSON value: null, false, 0, "", [] and {} are falsy. */
  predicate JsonTruthy(v: Json)
  {
    match v
    case JNull => false
    case JBool(b) => b
    case JInt(i) => i != 0
    case JFloat(f) => f != 0.0
    case JStr(t) => t != ""
    case JArr(items) => items != []
    case JObj(fields) => fields != map[]
  }

  /**
    How an f-string renders a JSON value: a string is inserted as it is, any
    other value through `show` (Python's str(), whose exact text is not modelled).
   */
  function JsonText(v: Json, show: Json -> string): (r: string)
    ensures v.JStr? ==> r == v.text
  {
    if v.JStr? then v.text else show(v)
  }
}
