/** JSON documents as Python's `json` module reads and writes them. */
module JsonValue {

  /**
   * A JSON value. Numbers are only ever copied between documents and table
   * columns, never computed with, so any exact representation serves.
   */
  datatype Json =
    | JNull
    | JBool(b: bool)
    | JNumber(n: real)
    | JString(s: string)
    | JArray(items: seq<Json>)
    | JObject(fields: map<string, Json>)
}
