/** JSON values as `JSON.parse` produces them and `res.json` sends them.
    An object is a map from keys to values, as a JavaScript object is. */
module Json {
  datatype JsonValue =
    | JNull
    | JBool(b: bool)
    | JNumber(n: real)
    | JString(s: string)
    | JArray(items: seq<JsonValue>)
    | JObject(fields: map<string, JsonValue>)
}
