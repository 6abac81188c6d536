/** Parsed JSON values as Python's `json` module hands them over (dict, list, str, number, bool, None),
    and the few Python operations the clients apply to them. */
module Json {
  import opened Outcomes

  datatype Json =
    | JNull
    | JBool(b: bool)
    | JNum(n: real)
    | JStr(s: string)
    | JArr(items: seq<Json>)
    | JObj(fields: map<string, Json>)

  /** Python truthiness (`if x:`) of a decoded JSON value: the falsy values are exactly `None`,
      `False`, zero, `''`, `[]` and `{}`. */
  predicate Truthy(j: Json): (t: bool)
    ensures !t <==> j == JNull || j == JBool(false) || j == JNum(0.0) || j == JStr("") || j == JArr([])
                    || j == JObj(map[])
  {
    match j
    case JNull => false
    case JBool(b) => b
    case JNum(n) => n != 0.0
    case JStr(s) => s != ""
    case JArr(items) => items != []
    case JObj(fields) => fields != map[]
  }

  /** `j.get(key, default)`: only a dict has `.get`. */
  function Get(j: Json, key: string, default: Json): (r: Result<Json>)
    ensures r.Ok? <==> j.JObj?
    ensures j.JObj? && key in j.fields ==> r.value == j.fields[key]
    ensures j.JObj? && key !in j.fields ==> r.value == default
    ensures !j.JObj? ==> r.error == AttributeError
  {
    match j
    case JObj(fields) => Ok(if key in fields then fields[key] else default)
    case _ => Err(AttributeError)
  }

  /** `j[0]`: a list yields its first item, a string its first character; an empty one raises
      IndexError, a dict KeyError (its keys are strings, never 0), anything else TypeError. */
  function First(j: Json): (r: Result<Json>)
    ensures r.Ok? <==> (j.JArr? || j.JStr?) && Truthy(j)
    ensures j.JArr? && j.items != [] ==> r.value == j.items[0]
    ensures j.JStr? && j.s != "" ==> r.value == JStr([j.s[0]])
  {
    match j
    case JArr(items) => if items == [] then Err(IndexError) else Ok(items[0])
    case JStr(s) => if s == "" then Err(IndexError) else Ok(JStr([s[0]]))
    case JObj(_) => Err(KeyError)
    case _ => Err(TypeError)
  }

  /** The value stored under `key`, or `default` when the key is missing. */
  function FieldOr(fields: map<string, Json>, key: string, default: Json): (r: Json) {
    if key in fields then fields[key] else default
  }
}
