/**
 * An already-parsed JSON document, as serde_json's `Value` presents it to the
 * client, with the handful of accessors the client uses: indexing by key,
 * which never fails, and the `as_*` conversions, which answer with an Option.
 */
module Json {

  datatype Option<T> = None | Some(value: T)

  /** JSON numbers are integers here (see README, "Left out"). */
  datatype Json =
    | JNull
    | JBool(b: bool)
    | JNum(n: int)
    | JStr(s: string)
    | JArr(items: seq<Json>)
    | JObj(fields: map<string, Json>)

  const I64_MIN: int := -0x8000_0000_0000_0000
  const I64_MAX: int := 0x7FFF_FFFF_FFFF_FFFF

  /** `v[key]`: the member named `key`, or null when `v` is not an object or has no such member. */
  function Index(v: Json, key: string): Json
  {
    if v.JObj? && key in v.fields then v.fields[key] else JNull
  }

  /** `v[path[0]][path[1]]...`: repeated indexing, null as soon as a step is missing. */
  function At(v: Json, path: seq<string>): Json
    decreases |path|
  {
    if path == [] then v else At(Index(v, path[0]), path[1..])
  }

  /** `v.as_str()` */
  function AsStr(v: Json): Option<string>
  {
    if v.JStr? then Some(v.s) else None
  }

  /** `v.as_array()` */
  function AsArray(v: Json): Option<seq<Json>>
  {
    if v.JArr? then Some(v.items) else None
  }

  /** `v.as_i64()`: only a number that fits a signed 64-bit integer converts. */
  function AsI64(v: Json): Option<int>
  {
    if v.JNum? && I64_MIN <= v.n <= I64_MAX then Some(v.n) else None
  }
}
