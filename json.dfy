/**
  JSON values as Python's `json` module decodes them, and the few Python
  operations the services apply to them: `dict.get`, the `in` operator,
  `len` and truthiness. A non-dict has no `get` and a scalar supports neither
  `in` nor `len`; those raise, and the errors are modelled by their message.
 */
module Json {
  import opened Common
  import opened Text

  datatype Json =
    | JNull
    | JBool(b: bool)
    | JInt(i: int)
    | JFloat(r: real)
    | JStr(s: string)
    | JArr(items: seq<Json>)
    | JObj(fields: map<string, Json>)

  /** The name of the Python type a decoded value has. */
  function TypeName(v: Json): string {
    match v
    case JNull => "NoneType"
    case JBool(_) => "bool"
    case JInt(_) => "int"
    case JFloat(_) => "float"
    case JStr(_) => "str"
    case JArr(_) => "list"
    case JObj(_) => "dict"
  }

  /** Python truthiness: `None`, `False`, zero and empty containers are false. */
  predicate Truthy(v: Json)
    ensures Len(v).Ok? ==> (Truthy(v) <==> Len(v).value > 0)
  {
    match v
    case JNull => false
    case JBool(b) => b
    case JInt(i) => i != 0
    case JFloat(r) => r != 0.0
    case JStr(s) => s != []
    case JArr(items) => items != []
    case JObj(fields) => fields != map[]
  }

  /** The message of the `AttributeError` raised by `v.<attr>` for a value
      whose type has no such attribute. */
  function NoAttribute(v: Json, attr: string): string {
    "'" + TypeName(v) + "' object has no attribute '" + attr + "'"
  }

  /** `v.get(key, default)`: only a dict has `get`. */
  function Get(v: Json, key: string, default: Json): (r: Result<Json, string>)
    ensures r.Ok? <==> v.JObj?
    ensures r.Ok? && key in v.fields ==> r.value == v.fields[key]
    ensures r.Ok? && key !in v.fields ==> r.value == default
  {
    match v
    case JObj(fields) => Ok(if key in fields then fields[key] else default)
    case _ => Err(NoAttribute(v, "get"))
  }

  /** `needle in v` for a string `needle`: a substring test on a string, a
      membership test on a list, a key test on a dict; anything else raises
      `TypeError`. */
  function Contains(v: Json, needle: string): (r: Result<bool, string>)
    ensures r.Ok? <==> (v.JStr? || v.JArr? || v.JObj?)
    ensures v.JStr? ==> r == Ok(IsSubstring(needle, v.s))
  {
    match v
    case JStr(s) => Ok(IsSubstring(needle, s))
    case JArr(items) => Ok(JStr(needle) in items)
    case JObj(fields) => Ok(needle in fields)
    case _ => Err("argument of type '" + TypeName(v) + "' is not iterable")
  }

  /** `len(v)`: defined on strings, lists and dicts; anything else raises `TypeError`. */
  function Len(v: Json): (r: Result<nat, string>)
    ensures r.Ok? <==> (v.JStr? || v.JArr? || v.JObj?)
  {
    match v
    case JStr(s) => Ok(|s|)
    case JArr(items) => Ok(|items|)
    case JObj(fields) => Ok(|fields|)
    case _ => Err("object of type '" + TypeName(v) + "' has no len()")
  }
}
