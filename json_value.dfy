/** The values stored in the `jsonb` columns (configuration, metadata), and
    `present?` on them. */
module JsonValue {
  import RubyString

  datatype Json =
    | JNull
    | JBool(b: bool)
    | JNumber(n: int)
    | JString(s: string)
    | JArray(items: seq<Json>)
    | JObject(fields: map<string, Json>)

  /** `present?`: nil and false are blank, numbers and true are present,
      strings are present unless blank, arrays and hashes unless empty. */
  predicate Present(j: Json) {
    match j
    case JNull => false
    case JBool(b) => b
    case JNumber(_) => true
    case JString(s) => RubyString.IsPresent(s)
    case JArray(items) => |items| > 0
    case JObject(fields) => |fields| > 0
  }

  /** `hash[key].present?`: a missing key reads as nil. */
  predicate PresentAt(m: map<string, Json>, key: string) {
    key in m && Present(m[key])
  }
}
