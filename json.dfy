/**
 * Decoded JSON payloads. Parsing and rendering text belong to the JSON
 * library, which is a parameter here (`JsonLib`).
 */
module Json {
  import opened Wrappers
  import opened Wire

  datatype Json =
    | JNull
    | JBool(b: bool)
    | JNumber(n: int)
    | JString(s: string)
    | JArray(items: seq<Json>)
    | JObject(fields: map<string, Json>)

  type JsonObject = map<string, Json>

  /** The JSON library: text to object (`None` when it throws) and object to text. */
  datatype JsonLib = JsonLib(parseObject: string -> Option<JsonObject>, render: JsonObject -> string)

  /** `JSONObject.getString(key)`. */
  function GetString(o: JsonObject, key: string): (r: Result<string, Error>)
    ensures r.Success? <==> key in o && o[key].JString?
    ensures r.Success? ==> o[key] == JString(r.value)
    ensures r.Failure? ==> r.error == JsonException
  {
    if key in o && o[key].JString? then Success(o[key].s) else Failure(JsonException)
  }

  /** The strings held by a JSON array, or `None` when an item is not a string. */
  function StringItems(items: seq<Json>): (r: Option<seq<string>>)
    ensures r.Some? <==> forall i :: 0 <= i < |items| ==> items[i].JString?
    ensures r.Some? ==> |r.value| == |items|
    ensures r.Some? ==> forall i :: 0 <= i < |items| ==> items[i] == JString(r.value[i])
  {
    if items == [] then Some([])
    else if !items[0].JString? then None
    else match StringItems(items[1..])
      case None => None
      case Some(rest) => Some([items[0].s] + rest)
  }

  /** A sequence of strings as a JSON array's items, in order. */
  function StringArray(xs: seq<string>): (r: seq<Json>)
    ensures |r| == |xs|
    ensures forall i :: 0 <= i < |xs| ==> r[i] == JString(xs[i])
  {
    seq(|xs|, i requires 0 <= i < |xs| => JString(xs[i]))
  }

  /** `StringUtil.getStringArrayFromJSONArray(o.getJSONArray(key))`. */
  function GetStringArray(o: JsonObject, key: string): (r: Result<seq<string>, Error>)
    ensures r.Success? <==> key in o && o[key].JArray? && StringItems(o[key].items).Some?
    ensures r.Success? ==> o[key] == JArray(StringArray(r.value))
    ensures r.Failure? ==> r.error == JsonException
  {
    if key in o && o[key].JArray? then
      match StringItems(o[key].items)
      case None => Failure(JsonException)
      case Some(xs) =>
        assert o[key].items == StringArray(xs);
        Success(xs)
    else Failure(JsonException)
  }

  /** Reading back a string array gives the original strings, in order. */
  lemma {:induction false} StringArrayRoundTrip(xs: seq<string>)
    ensures StringItems(StringArray(xs)) == Some(xs)
  {
    if xs != [] {
      assert StringArray(xs)[1..] == StringArray(xs[1..]);
      StringArrayRoundTrip(xs[1..]);
      assert [xs[0]] + xs[1..] == xs;
    }
  }
}
