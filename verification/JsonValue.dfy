/** Decoded JSON values. */
module JsonValue {
  datatype Json =
    | JNull
    | JBool(b: bool)
    | JInt(n: int)
    | JReal(r: real)
    | JText(s: string)
    | JList(items: seq<Json>)
    | JObj(fields: map<string, Json>)

  /** payload.get(key). */
  function Get(payload: map<string, Json>, key: string): Json {
    if key in payload then payload[key] else JNull
  }
}
