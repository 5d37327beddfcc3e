/** A small JSON value type: what a request body parses to and a response body serialises from. */
module Json {
  import opened Wrappers

  datatype Json =
    | JNull
    | JBool(b: bool)
    | JNumber(n: int)
    | JString(s: string)
    | JArray(items: seq<Json>)
    | JObject(fields: map<string, Json>)

  /** A list of strings as a JSON array. */
  function StringsToJson(ss: seq<string>): (r: Json)
    ensures r.JArray? && |r.items| == |ss|
    ensures forall k | 0 <= k < |ss| :: r.items[k] == JString(ss[k])
  {
    JArray(seq(|ss|, k requires 0 <= k < |ss| => JString(ss[k])))
  }

  /** A JSON array of strings as a list of strings, or `None` for anything else. */
  function JsonToStrings(j: Json): (r: Option<seq<string>>)
    ensures r.Some? <==> j.JArray? && forall k | 0 <= k < |j.items| :: j.items[k].JString?
    ensures r.Some? ==> |r.value| == |j.items| && forall k | 0 <= k < |j.items| :: JString(r.value[k]) == j.items[k]
  {
    if j.JArray? && forall k | 0 <= k < |j.items| :: j.items[k].JString? then
      Some(seq(|j.items|, k requires 0 <= k < |j.items| && j.items[k].JString? => j.items[k].s))
    else
      None
  }

  /** A string-to-int dictionary as a JSON object of numbers. */
  function IntMapToJson(m: map<string, int>): (r: Json)
    ensures r.JObject? && r.fields.Keys == m.Keys
    ensures forall k | k in m :: r.fields[k] == JNumber(m[k])
  {
    JObject(map k | k in m :: JNumber(m[k]))
  }

  /** A JSON object of numbers as a string-to-int dictionary, or `None` for anything else. */
  function JsonToIntMap(j: Json): (r: Option<map<string, int>>)
    ensures r.Some? <==> j.JObject? && forall k | k in j.fields :: j.fields[k].JNumber?
    ensures r.Some? ==> r.value.Keys == j.fields.Keys && forall k | k in r.value :: JNumber(r.value[k]) == j.fields[k]
  {
    if j.JObject? && forall k | k in j.fields :: j.fields[k].JNumber? then
      Some(map k | k in j.fields :: j.fields[k].n)
    else
      None
  }

  lemma StringsRoundTrip(ss: seq<string>)
    ensures JsonToStrings(StringsToJson(ss)) == Some(ss)
  {
    var r := JsonToStrings(StringsToJson(ss));
    assert r.value == ss;
  }

  lemma IntMapRoundTrip(m: map<string, int>)
    ensures JsonToIntMap(IntMapToJson(m)) == Some(m)
  {
    var r := JsonToIntMap(IntMapToJson(m));
    assert r.value == m;
  }
}
