/** JSON-shaped JavaScript values, as far as the publication code inspects
    them: truthiness, optional chaining (`v?.key`, `v?.[0]`), plain property
    access that throws on `null`, and object spread (`{ ...v }`). */
module Json {
  import opened Common

  datatype Json =
    | JNull
    | JBool(b: bool)
    | JNumber(n: real)
    | JString(s: string)
    | JArray(items: seq<Json>)
    | JObject(members: map<string, Json>)

  /** JavaScript truthiness of a value that may also be `undefined` (`None`). */
  predicate Truthy(v: Option<Json>) {
    match v
    case None => false
    case Some(JNull) => false
    case Some(JBool(b)) => b
    case Some(JNumber(n)) => n != 0.0
    case Some(JString(s)) => s != ""
    case Some(_) => true
  }

  /** `v?.[key]`: `undefined` unless `v` is an object that has `key`. Properties
      of primitives (such as a string's `length`) are not modelled. */
  function Prop(v: Option<Json>, key: string): (r: Option<Json>)
    ensures r.Some? <==> v.Some? && v.value.JObject? && key in v.value.members
    ensures r.Some? ==> r.value == v.value.members[key]
  {
    match v
    case Some(JObject(m)) => if key in m then Some(m[key]) else None
    case _ => None
  }

  /** `v?.[0]`: the first element of an array, or the member named "0" of an object. */
  function First(v: Option<Json>): (r: Option<Json>)
    ensures v.Some? && v.value.JArray? && |v.value.items| > 0 ==> r == Some(v.value.items[0])
    ensures v.Some? && v.value.JObject? ==> r == Prop(v, "0")
    ensures v.None? || v == Some(JNull) ==> r.None?
  {
    match v
    case Some(JArray(items)) => if |items| > 0 then Some(items[0]) else None
    case Some(JObject(m)) => Prop(v, "0")
    case _ => None
  }

  /** `v.key` without optional chaining: a TypeError on `null` or `undefined`. */
  function Member(v: Option<Json>, key: string): (r: Result<Option<Json>, string>)
    ensures r.Failure? <==> v.None? || v == Some(JNull)
    ensures r.Success? ==> r.value == Prop(v, key)
  {
    if v.None? || v == Some(JNull) then Failure("TypeError")
    else Success(Prop(v, key))
  }

  /** The own members `{ ...v }` copies: all members of an object, none of a
      boolean, number, `null` or `undefined`. JavaScript spreads a string or an
      array into index-keyed members; the model copies nothing from them. */
  function SpreadMembers(v: Option<Json>): (m: map<string, Json>)
    ensures v.Some? && v.value.JObject? ==> m == v.value.members
    ensures !(v.Some? && v.value.JObject?) ==> m == map[]
  {
    match v
    case Some(JObject(members)) => members
    case _ => map[]
  }
}
