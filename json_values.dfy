/**
 * The part of a parsed JSON document (`serde_json::Value`) that the shape
 * update reads: member lookup by key and the two typed accessors.
 * Text parsing itself is not part of this model.
 */
module JsonValues {
  import opened Wrappers

  datatype Value =
    | Null
    | Bool(b: bool)
    | Number(n: real)
    | Str(s: string)
    | Array(items: seq<Value>)
    | Object(members: map<string, Value>)

  /** `Value::get(key)`: a member of an object; nothing for any other value. */
  function Get(v: Value, key: string): (r: Option<Value>)
    ensures r.Some? <==> v.Object? && key in v.members
    ensures r.Some? ==> r.value == v.members[key]
  {
    if v.Object? && key in v.members then Some(v.members[key]) else None
  }

  /** `Value::as_f64`: every JSON number reads as a float, nothing else does. */
  function AsF64(v: Value): (r: Option<real>)
    ensures r.Some? <==> v.Number?
    ensures r.Some? ==> v == Number(r.value)
  {
    if v.Number? then Some(v.n) else None
  }

  /** `Value::as_str`. */
  function AsStr(v: Value): (r: Option<string>)
    ensures r.Some? <==> v.Str?
    ensures r.Some? ==> v == Str(r.value)
  {
    if v.Str? then Some(v.s) else None
  }

  /** `v.get(key).and_then(|m| m.as_f64())`. */
  function NumberMember(v: Value, key: string): (r: Option<real>)
    ensures r.Some? ==> Get(v, key) == Some(Number(r.value))
    ensures r.None? ==> Get(v, key).None? || !Get(v, key).value.Number?
  {
    match Get(v, key)
    case Some(m) => AsF64(m)
    case None => None
  }

  /** `v.get(key).and_then(|m| m.as_str())`. */
  function StringMember(v: Value, key: string): (r: Option<string>)
    ensures r.Some? ==> Get(v, key) == Some(Str(r.value))
    ensures r.None? ==> Get(v, key).None? || !Get(v, key).value.Str?
  {
    match Get(v, key)
    case Some(m) => AsStr(m)
    case None => None
  }

  /** A typed member is present exactly when the object holds the key with a value of that type. */
  lemma TypedMembers(v: Value, key: string)
    ensures NumberMember(v, key).Some? <==> v.Object? && key in v.members && v.members[key].Number?
    ensures NumberMember(v, key).Some? ==> NumberMember(v, key).value == v.members[key].n
    ensures StringMember(v, key).Some? <==> v.Object? && key in v.members && v.members[key].Str?
    ensures StringMember(v, key).Some? ==> StringMember(v, key).value == v.members[key].s
  {
  }
}
