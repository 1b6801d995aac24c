/** JSON values as `json.loads` hands them to the bridges. */
module Json {
  import opened Wrappers

  /** Numbers are kept as reals: the bridges never look inside them, and
      Python compares `1` and `1.0` as equal. Objects are dictionaries, so a
      key maps to one value. */
  datatype Json =
    | JNull
    | JBool(b: bool)
    | JNumber(n: real)
    | JString(s: string)
    | JArray(items: seq<Json>)
    | JObject(fields: map<string, Json>)

  /** `value[key]` where it succeeds: only an object that has the key. */
  function Field(j: Json, key: string): (r: Option<Json>)
    ensures r.Some? <==> j.JObject? && key in j.fields
    ensures r.Some? ==> r.value == j.fields[key]
  {
    if j.JObject? && key in j.fields then Some(j.fields[key]) else None
  }

  /** `value.get(key, default)` on an object. */
  function FieldOr(j: Json, key: string, default: Json): (r: Json)
    requires j.JObject?
    ensures key in j.fields ==> r == j.fields[key]
    ensures key !in j.fields ==> r == default
  {
    if key in j.fields then j.fields[key] else default
  }
}
