/** Serialization helpers for API responses, over a JSON value type. */
module Serialization {
  import opened Wrappers

  /** A JSON value as the API returns it. */
  datatype Json = JNull | JBool(b: bool) | JNumber(n: real) | JString(s: string) | JArray(items: seq<Json>) | JObject(fields: map<string, Json>)

  /** `serialize_datetime` and `serialize_date`: a datetime is always truthy, so only `None` gives `None`. */
  function SerializeOptional<T>(value: Option<T>, isoformat: T -> string): (r: Option<string>)
    ensures r.None? <==> value.None?
    ensures value.Some? ==> r == Some(isoformat(value.value))
  {
    match value
    case None => None
    case Some(v) => Some(isoformat(v))
  }

  /** `serialize_jsonb_field`: a missing field is an empty object, a present one is returned as it is. */
  function SerializeJsonbField(field: Option<map<string, Json>>): (r: map<string, Json>)
    ensures field.None? ==> r == map[]
    ensures field.Some? ==> r == field.value
  {
    if field.Some? then field.value else map[]
  }

  /** The stats promoted to the top level of a response, in order. */
  const FlattenedKeys: seq<string> := ["minutes", "points", "rebounds", "assists", "yards", "touchdowns"]

  /**
   * `flatten_stats_for_response`: nothing for missing or empty stats; otherwise the promoted
   * keys the stats have, with their values, and "raw_stats" holding the whole stats object.
   */
  method FlattenStatsForResponse(stats: Option<map<string, Json>>) returns (result: map<string, Json>)
    ensures stats.None? || stats == Some(map[]) ==> result == map[]
    ensures stats.Some? && stats.value != map[] ==>
      && "raw_stats" in result && result["raw_stats"] == JObject(stats.value)
      && (forall k :: k in result <==> k == "raw_stats" || (k in FlattenedKeys && k in stats.value))
      && (forall k :: k in result && k != "raw_stats" ==> result[k] == stats.value[k])
  {
    if stats.None? || stats.value == map[] {
      return map[];
    }
    var s := stats.value;
    result := map[];
    var i := 0;
    while i < |FlattenedKeys|
      invariant 0 <= i <= |FlattenedKeys|
      invariant forall k :: k in result <==> k in FlattenedKeys[..i] && k in s
      invariant forall k :: k in result ==> result[k] == s[k]
    {
      var key := FlattenedKeys[i];
      if key in s {
        result := result[key := s[key]];
      }
      i := i + 1;
    }
    assert FlattenedKeys[..i] == FlattenedKeys;
    result := result["raw_stats" := JObject(s)];
  }
}
