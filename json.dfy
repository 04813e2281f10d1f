/** JSON values as the application stores and passes them around, and the
    JavaScript notion of a "truthy" value that `||` relies on. */
module Json {
  import opened Wrappers

  /** A JSON value. Numbers are integers here: no numeric reasoning is needed. */
  datatype Json =
    | JNull
    | JBool(b: bool)
    | JNum(n: int)
    | JStr(s: string)
    | JArr(items: seq<Json>)
    | JObj(fields: map<string, Json>)

  /** JavaScript truthiness: `null`, `false`, `0` and `""` are falsy, everything else
      (including every array and every object) is truthy. */
  predicate Truthy(j: Json) {
    match j
    case JNull => false
    case JBool(b) => b
    case JNum(n) => n != 0
    case JStr(s) => s != ""
    case JArr(_) => true
    case JObj(_) => true
  }

  /** `o[k]` of an object: `None` models `undefined` (missing key or not an object). */
  function Field(j: Json, k: string): (r: Option<Json>)
    ensures r.Some? <==> j.JObj? && k in j.fields
    ensures r.Some? ==> r.value == j.fields[k]
  {
    if j.JObj? && k in j.fields then Some(j.fields[k]) else None
  }

  /** Looks up a key of a plain key/value record (`undefined` when absent). */
  function Get(m: map<string, Json>, k: string): (r: Option<Json>)
    ensures r.Some? <==> k in m
    ensures r.Some? ==> r.value == m[k]
  {
    if k in m then Some(m[k]) else None
  }

  /** `a || b` on possibly-undefined operands, with JavaScript's short circuit:
      the left operand when it is defined and truthy, the right one otherwise. */
  function Or(a: Option<Json>, b: Option<Json>): (r: Option<Json>)
    ensures a.Some? && Truthy(a.value) ==> r == a
    ensures !(a.Some? && Truthy(a.value)) ==> r == b
  {
    if a.Some? && Truthy(a.value) then a else b
  }
}
