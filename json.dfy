/**
 * JSON values as `JSON.parse` produces them, with the JavaScript notions the client
 * applies to them: truthiness (`!x`, `x || y`) and property reads (`x.key`).
 */
module JsonValues {
  import opened Wrappers

  /** A parsed JSON value. An object's later duplicate keys win, so it is a map. */
  datatype Json =
    | JNull
    | JBool(b: bool)
    | JNumber(n: real)
    | JString(s: string)
    | JArray(items: seq<Json>)
    | JObject(fields: map<string, Json>)

  /** JavaScript truthiness: `null`, `false`, `0` and `""` are falsy; arrays and objects are truthy. */
  predicate Truthy(j: Json) {
    match j
    case JNull => false
    case JBool(b) => b
    case JNumber(n) => n != 0.0
    case JString(s) => s != ""
    case JArray(_) => true
    case JObject(_) => true
  }

  /** JavaScript truthiness of a value that may be `undefined` (`None`). */
  predicate TruthyOpt(v: Option<Json>) {
    v.Some? && Truthy(v.value)
  }

  /**
   * `j.key` on a value that is not `null`: the field of an object, and `undefined` for
   * every other kind of value (numbers, strings, booleans and arrays have no such field).
   */
  function Property(j: Json, key: string): (v: Option<Json>)
    ensures v.Some? <==> j.JObject? && key in j.fields
    ensures v.Some? ==> v.value == j.fields[key]
  {
    match j
    case JObject(m) => if key in m then Some(m[key]) else None
    case _ => None
  }

  /** `a || b` over a possibly-undefined left operand. */
  function OrElse(a: Option<Json>, b: Json): (r: Json)
    ensures TruthyOpt(a) ==> r == a.value
    ensures !TruthyOpt(a) ==> r == b
  {
    if TruthyOpt(a) then a.value else b
  }
}
