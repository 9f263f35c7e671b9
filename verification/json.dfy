/** An abstract JSON value, standing in for `serde_json::Value` and parsed JavaScript JSON. */
module Json {
  import opened Wrappers

  /** JSON numbers are modelled by their integer value; object keys map to member values. */
  datatype Json =
    | Null
    | Bool(b: bool)
    | Num(n: int)
    | Str(s: string)
    | Arr(items: seq<Json>)
    | Obj(fields: map<string, Json>)

  /** `value.get(key)` of serde_json: the member of an object, and nothing for every other kind of value. */
  function Get(j: Json, key: string): (r: Option<Json>)
    ensures r.Some? <==> j.Obj? && key in j.fields
    ensures r.Some? ==> r.value == j.fields[key]
  {
    if j.Obj? && key in j.fields then Some(j.fields[key]) else None
  }

  /** `value.as_str()` of serde_json: the text of a string value, nothing otherwise. */
  function AsStr(j: Json): (r: Option<string>)
    ensures r.Some? <==> j.Str?
    ensures r.Some? ==> j == Str(r.value)
  {
    if j.Str? then Some(j.s) else None
  }

  /** The object with no members, `{}`. */
  const Empty: Json := Obj(map[])
}
