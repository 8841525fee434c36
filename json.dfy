/**
 * Untyped JSON values as they arrive in a request body or leave in a response,
 * with JavaScript's truthiness and optional property access (`v?.key`).
 */
module Json {
  import opened Wrappers

  /** Numbers are integers here: only the kind of a number matters to this model. */
  datatype Json =
    | JNull
    | JBool(b: bool)
    | JNumber(n: int)
    | JString(s: string)
    | JArray(items: seq<Json>)
    | JObject(fields: map<string, Json>)

  /** `v?.key`: the property when `v` is an object that has it, `undefined` otherwise. */
  function Member(v: Json, key: string): (r: Option<Json>)
    ensures r.Some? <==> v.JObject? && key in v.fields
    ensures r.Some? ==> r.value == v.fields[key]
  {
    match v
    case JObject(fields) => if key in fields then Some(fields[key]) else None
    case _ => None
  }

  /** JavaScript truthiness; `undefined` (None) is falsy. */
  predicate Truthy(v: Option<Json>): (t: bool)
    ensures t ==> v.Some?
    ensures v == Some(JNull) || v == Some(JString("")) || v == Some(JBool(false)) || v == Some(JNumber(0)) ==> !t
    ensures v.Some? && (v.value.JArray? || v.value.JObject?) ==> t
    ensures v.Some? && v.value.JString? ==> (t <==> |v.value.s| > 0)
  {
    match v
    case None => false
    case Some(JNull) => false
    case Some(JBool(b)) => b
    case Some(JNumber(n)) => n != 0
    case Some(JString(s)) => s != ""
    case Some(JArray(_)) => true
    case Some(JObject(_)) => true
  }

  /** `a || b`: `a` when it is truthy, `b` otherwise; either may be `undefined`. */
  function Or(a: Option<Json>, b: Option<Json>): (r: Option<Json>)
    ensures Truthy(a) ==> r == a
    ensures !Truthy(a) ==> r == b
    ensures Truthy(r) <==> Truthy(a) || Truthy(b)
  {
    if Truthy(a) then a else b
  }

  /** The type name Zod reports for a value it did not expect. */
  function TypeName(v: Option<Json>): string
  {
    match v
    case None => "undefined"
    case Some(JNull) => "null"
    case Some(JBool(_)) => "boolean"
    case Some(JNumber(_)) => "number"
    case Some(JString(_)) => "string"
    case Some(JArray(_)) => "array"
    case Some(JObject(_)) => "object"
  }
}
