/**
 * A JSON document as Foundation's JSONSerialization hands it back (nested
 * `[String: Any]` dictionaries, arrays, strings, numbers, booleans and null),
 * and the conditional casts the normaliser applies to its members.
 * Decoding the bytes of the HTTP response is not part of this model: the
 * normaliser receives an already-decoded value.
 */
module JsonValue {
  import opened Wrappers

  datatype Json =
    | JNull
    | JBool(b: bool)
    | JNum(num: real)
    | JStr(str: string)
    | JArr(items: seq<Json>)
    | JObj(fields: map<string, Json>)

  /** `dict[key]`: the member stored under `key`, if there is one. */
  function Member(fields: map<string, Json>, key: string): Option<Json> {
    if key in fields then Some(fields[key]) else None
  }

  /** `value as? [String: Any]`: succeeds on objects only. */
  function AsDictionary(v: Option<Json>): Option<map<string, Json>> {
    if v.Some? && v.value.JObj? then Some(v.value.fields) else None
  }

  /** `value as? String`: succeeds on strings only. */
  function AsString(v: Option<Json>): Option<string> {
    if v.Some? && v.value.JStr? then Some(v.value.str) else None
  }

  /** `value as? Double`: succeeds on numbers only. */
  function AsDouble(v: Option<Json>): Option<real> {
    if v.Some? && v.value.JNum? then Some(v.value.num) else None
  }
}
