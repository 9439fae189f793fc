/** The untyped JSON tree the configuration document is held in
    (`AnyCodable` on the wire, `[String: Any]` once decoded). */
module Json {

  /** JSON numbers are modelled as integers only. */
  datatype Value =
    | JNull
    | JBool(b: bool)
    | JInt(i: int)
    | JString(s: string)
    | JArray(items: seq<Value>)
    | JObject(fields: map<string, Value>)

  /** A JSON object: the document root, or one of its sections. */
  type Object = map<string, Value>
}
