/** The request body: a JSON document decoded into a `map[string]interface{}`, the two
    credential fields read out of it, and the map with those fields deleted. */
module Payload {
  import opened Wrappers

  /** A decoded JSON value (what `encoding/json` puts in an `interface{}`). */
  datatype Json =
    | JNull
    | JBool(b: bool)
    | JNumber(n: real)
    | JString(s: string)
    | JArray(items: seq<Json>)
    | JObject(fields: map<string, Json>)

  /** A `map[string]interface{}`. */
  type Object = map<string, Json>

  const SecKey := "sec"
  const SecValKey := "secval"

  /** The effect of `json.Unmarshal(body, &data)` on a nil `map[string]interface{}`, given
      the document the decoder read (`None` for a syntax error): an object fills the map, a
      JSON `null` leaves it nil (an empty map) without error, and any other document is a
      type error. */
  function IntoMap(doc: Option<Json>): (r: Option<Object>)
    ensures r.Some? <==> doc.Some? && (doc.value.JObject? || doc.value.JNull?)
    ensures r.Some? && doc.value.JObject? ==> r.value == doc.value.fields
    ensures r.Some? && doc.value.JNull? ==> r.value == map[]
  {
    match doc
    case None => None
    case Some(JObject(fields)) => Some(fields)
    case Some(JNull) => Some(map[])
    case Some(_) => None
  }

  /** The type assertion `data[key].(string)`: the string, when the key is present and
      holds a JSON string. */
  function StringField(data: Object, key: string): (r: Option<string>)
    ensures r.Some? <==> key in data && data[key].JString?
    ensures r.Some? ==> data[key] == JString(r.value)
  {
    if key in data && data[key].JString? then Some(data[key].s) else None
  }

  /** The payload that is forwarded: the body's map without the two credential keys. */
  function Sanitized(data: Object): Object {
    data - {SecKey, SecValKey}
  }

  /** Deletes the two credential keys from the body's map, one after the other. */
  method Sanitize(data: Object) returns (forwarded: Object)
    ensures forwarded.Keys == data.Keys - {SecKey, SecValKey}
    ensures forall key :: key in forwarded ==> forwarded[key] == data[key]
    ensures forwarded == Sanitized(data)
  {
    forwarded := data;
    forwarded := forwarded - {SecKey};
    forwarded := forwarded - {SecValKey};
  }

  /** Sanitising removes exactly the two credential keys: every other key keeps its value
      and nothing is added. */
  lemma SanitizedExact(data: Object, key: string)
    ensures SecKey !in Sanitized(data) && SecValKey !in Sanitized(data)
    ensures key in Sanitized(data) <==> key in data && key != SecKey && key != SecValKey
    ensures key in Sanitized(data) ==> Sanitized(data)[key] == data[key]
    ensures |Sanitized(data)| + |data.Keys * {SecKey, SecValKey}| == |data|
  {
    var removed := data.Keys * {SecKey, SecValKey};
    assert Sanitized(data).Keys == data.Keys - removed;
    assert data.Keys == Sanitized(data).Keys + removed;
  }
}
