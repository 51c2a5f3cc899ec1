/** JSON values. Decoding is a parameter: any partial function from text to values. */
module JsonValues {
  import opened Wrappers

  datatype Json =
    | JNull | JBool(b: bool) | JNumber(n: real) | JString(s: string)
    | JArray(a: seq<Json>) | JObject(o: Object)

  type Object = map<string, Json>

  type Decoder = string -> Option<Json>
}
