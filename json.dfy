/** Decoded JSON values, as the Python code sees them after `json.loads`. */
module Json {
  import opened Wrappers

  /** Numbers are integers only: the protocol fields the gateway reads are integral. */
  datatype Json =
    | JNull
    | JBool(b: bool)
    | JInt(i: int)
    | JStr(s: string)
    | JList(items: seq<Json>)
    | JObj(fields: map<string, Json>)

  /** Python truth value of a decoded value (`if data:`). */
  predicate Truthy(j: Json)
  {
    match j
    case JNull => false
    case JBool(b) => b
    case JInt(i) => i != 0
    case JStr(s) => s != ""
    case JList(items) => items != []
    case JObj(fields) => fields != map[]
  }

  /** Values Python accepts in arithmetic (`bool` is a subclass of `int`). */
  predicate IsNumeric(j: Json)
  {
    j.JInt? || j.JBool?
  }

  /** `j[key]`: only an object holding the key yields a value; anything else raises. */
  function Lookup(j: Json, key: string): (r: Option<Json>)
    ensures r.Some? <==> j.JObj? && key in j.fields
    ensures r.Some? ==> r.value == j.fields[key]
  {
    if j.JObj? && key in j.fields then Some(j.fields[key]) else None
  }

  /** The JSON form of an optional integer: `None` becomes `null`. */
  function OptInt(o: Option<int>): (r: Json)
    ensures r == JNull <==> o.None?
    ensures o.Some? ==> r == JInt(o.value)
  {
    match o
    case None => JNull
    case Some(i) => JInt(i)
  }
}
