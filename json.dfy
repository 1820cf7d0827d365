/** The JSON-shaped values that the source builds as Python dicts, lists and strings. */
module Json {

  /**
   * A JSON value. A Python `dict` with string keys is an object (key order is
   * not modelled), a `list` is an array, `None` is null.
   */
  datatype Value =
    | JNull
    | JBool(b: bool)
    | JInt(i: int)
    | JStr(s: string)
    | JList(items: seq<Value>)
    | JObject(fields: map<string, Value>)
}
