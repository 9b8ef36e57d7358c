/** JSON values as the HTTP and JSON libraries hand them over (numbers are integers here). */
module JsonData {

  /** A parsed JSON document; objects keep their key order, as Jackson's and Python's maps do. */
  datatype Json =
    | JNull
    | JBool(b: bool)
    | JNumber(n: int)
    | JString(s: string)
    | JArray(items: seq<Json>)
    | JObject(fields: seq<(string, Json)>)
}
