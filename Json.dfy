/** JSON values as `JSON.parse` produces them and `JSON.stringify` consumes them.
    Numbers are modelled as reals (JSON has no NaN or infinities); an object is
    a map from key to value, so key order and duplicate keys are not modelled. */
module Json {
  import opened Wrappers

  datatype Json =
    | JNull
    | JBool(b: bool)
    | JNum(n: real)
    | JStr(s: string)
    | JArr(items: seq<Json>)
    | JObj(fields: map<string, Json>)

  /** Property access `v.key` as JavaScript evaluates it on a parsed JSON value:
      `undefined` (None) unless `v` is an object that holds `key`. */
  function Field(v: Json, key: string): Option<Json> {
    if v.JObj? && key in v.fields then Some(v.fields[key]) else None
  }
}
