/**
 * Decoded JSON or YAML documents as the Go code sees them after `json.Unmarshal` into
 * `interface{}`: null, booleans, numbers (kept as their literal text), strings, lists and
 * string-keyed maps.
 */
module Json {
  datatype Json =
    | JNull
    | JBool(b: bool)
    | JNumber(literal: string)
    | JString(s: string)
    | JArray(items: seq<Json>)
    | JObject(fields: map<string, Json>)
}
