/** JSON documents as values. The model works on the value a JSON text denotes,
    not on its bytes: object members form a map, so member order is not represented. */
module JsonValues {

  datatype Json =
    | JNull
    | JBool(b: bool)
    | JString(s: string)
    | JArray(items: seq<Json>)
    | JObject(fields: map<string, Json>)

  /** The member `key` of an object's fields, or null when it is absent.
      For decoding into a freshly zeroed Go struct an absent member and a
      null member have the same effect: the field keeps its zero value. */
  function Member(fields: map<string, Json>, key: string): Json
  {
    if key in fields then fields[key] else JNull
  }
}
