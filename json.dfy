/**
 * JSON values as the service receives them from its clients and from the
 * Supercell API. Numbers are integers here; JavaScript's `undefined` is the
 * absence of a value, written `None` where a value may be missing.
 */
module JsonValues {
  import opened Wrappers

  datatype Json =
    | JNull
    | JBool(b: bool)
    | JNumber(n: int)
    | JString(s: string)
    | JArray(elems: seq<Json>)
    | JObject(fields: map<string, Json>)

  /** Property access `v.key`, undefined when `v` is not an object or has no such key. */
  function Get(v: Json, key: string): (r: Option<Json>)
    ensures r.Some? <==> v.JObject? && key in v.fields
    ensures r.Some? ==> r.value == v.fields[key]
  {
    if v.JObject? && key in v.fields then Some(v.fields[key]) else None
  }

  /** Optional chaining `v?.key`: undefined when `v` itself is null or undefined. */
  function GetOpt(v: Option<Json>, key: string): (r: Option<Json>)
    ensures r.Some? <==> v.Some? && v.value.JObject? && key in v.value.fields
    ensures r.Some? ==> r.value == v.value.fields[key]
  {
    match v
    case None => None
    case Some(j) => Get(j, key)
  }

  /** Nullish coalescing `a ?? b`: `b` when `a` is null or undefined. */
  function Coalesce(a: Option<Json>, b: Option<Json>): (r: Option<Json>)
    ensures (a.None? || a == Some(JNull)) ==> r == b
    ensures !(a.None? || a == Some(JNull)) ==> r == a
  {
    if a.None? || a == Some(JNull) then b else a
  }
}
