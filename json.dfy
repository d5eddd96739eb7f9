/**
 * JSON values as the back end (Python dicts and lists) and the front end
 * (JavaScript objects) exchange them, with Python's truthiness.
 */
module Json {
  import opened Wrappers

  datatype Value =
    | JNull
    | JBool(b: bool)
    | JNum(n: int)
    | JStr(s: string)
    | JArr(items: seq<Value>)
    | JObj(fields: map<string, Value>)

  /** Python's `bool(v)`: None, False, 0, "", [] and {} are false. */
  predicate Truthy(v: Value)
  {
    match v
    case JNull => false
    case JBool(b) => b
    case JNum(n) => n != 0
    case JStr(s) => s != ""
    case JArr(items) => |items| > 0
    case JObj(fields) => |fields| > 0
  }

  /** `v.get(key)` on an object; None for a missing key or a non-object. */
  function Get(v: Value, key: string): (r: Option<Value>)
    ensures r.Some? <==> v.JObj? && key in v.fields
  {
    if v.JObj? && key in v.fields then Some(v.fields[key]) else None
  }

  /** The string stored under `key`, if there is one. */
  function GetStr(v: Value, key: string): (r: Option<string>)
    ensures r.Some? ==> Get(v, key) == Some(JStr(r.value))
  {
    match Get(v, key)
    case Some(JStr(s)) => Some(s)
    case _ => None
  }

  /** `{**v, key: x}` on an object. */
  function Set(v: Value, key: string, x: Value): (r: Value)
    requires v.JObj?
    ensures r.JObj? && r.fields == v.fields[key := x]
  {
    JObj(v.fields[key := x])
  }
}
