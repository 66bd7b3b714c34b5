/** A parsed JSON text (RFC 8259) as a tree. Parsing and serialising the
    text itself are not part of this model. Objects are maps, so a text
    with a repeated member name has no tree here. */
module JsonTree {

  datatype Json =
    | JNull
    | JBool(b: bool)
    | JNumber(n: real)
    | JString(s: string)
    | JArray(items: seq<Json>)
    | JObject(members: map<string, Json>)

  /** The member `key` is missing or `null`: what Swift's `decodeIfPresent`
      reads as `nil`. */
  predicate Absent(m: map<string, Json>, key: string) {
    key !in m || m[key] == JNull
  }
}
