/**
 * Decoded JSON bodies, and the JavaScript semantics the SDK applies to them:
 * truthiness (for `||`), property reads, and `String(v)` (what `new Error(v)` stores).
 */
module Json {
  import opened Wrappers
  import Text

  datatype Json =
    | JNull
    | JBool(b: bool)
    | JNumber(n: int)
    | JString(s: string)
    | JArray(items: seq<Json>)
    | JObject(fields: map<string, Json>)

  /** JavaScript's ToBoolean on a decoded JSON value. */
  predicate Truthy(v: Json) {
    match v
    case JNull => false
    case JBool(b) => b
    case JNumber(n) => n != 0
    case JString(s) => s != ""
    case _ => true
  }

  /**
   * Reading property `key` of a non-null value: an object's own field, and
   * `undefined` (None) for every other value. Objects decoded from JSON inherit
   * no property with the names the SDK reads.
   */
  function Get(v: Json, key: string): (r: Option<Json>)
    requires !v.JNull?
    ensures r.Some? <==> v.JObject? && key in v.fields
    ensures r.Some? ==> r.value == v.fields[key]
  {
    if v.JObject? && key in v.fields then Some(v.fields[key]) else None
  }

  /** `String(v)`: what `Error`'s constructor stores as the message. */
  function ToJsString(v: Json): (r: string)
    ensures v.JString? ==> r == v.s
    decreases v
  {
    match v
    case JNull => "null"
    case JBool(b) => if b then "true" else "false"
    case JNumber(n) => Text.IntToString(n)
    case JString(s) => s
    case JArray(items) =>
      Text.Join(seq(|items|, i requires 0 <= i < |items| =>
                      if items[i].JNull? then "" else ToJsString(items[i])), ",")
    case JObject(_) => "[object Object]"
  }
}
