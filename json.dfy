/**
 * The parsed JSON tree that jsoncpp's `Json::Value` holds.  The controller
 * never looks at JSON text except through jsoncpp's reader and writer, so the
 * model works on the tree: reading text is an input `Option<Value>` (None when
 * the reader rejects the text) and writing text is left to the transport.
 */
module Json {

  /** The range of jsoncpp's largest unsigned integer. */
  type Uint64 = x: int | 0 <= x < 0x1_0000_0000_0000_0000

  /** The largest value jsoncpp's reader still types as `intValue` when it
      reads a non-negative number (`Json::Value::maxInt`, 2^31 - 1). */
  const MaxInt: nat := 0x7FFF_FFFF

  /** One constructor per jsoncpp value type the controller inspects.
      `Int` is `Json::intValue`, `UInt` is `Json::uintValue`; object members
      are keyed by name, as in jsoncpp's ordered map. */
  datatype Value =
    | Null
    | Bool(b: bool)
    | Int(i: int)
    | UInt(u: Uint64)
    | Str(s: string)
    | Arr(elems: seq<Value>)
    | Obj(members: map<string, Value>)

  /** `v[key]` on a const value: the member when `v` is an object holding
      `key`, and the null value otherwise.  `v.isMember(key) &&
      v[key].type() == T` is therefore the same test as `Get(v, key)` being
      of type `T`. */
  function Get(v: Value, key: string): Value
  {
    if v.Obj? && key in v.members then v.members[key] else Null
  }

  /** `isMember(key) && v[key].type() == Json::stringValue`. */
  predicate HasString(v: Value, key: string)
  {
    Get(v, key).Str?
  }

  /** The status code and out-parameter of a `fromJSON(json, out)` call:
      `ret` is 0 on success and 1 on failure. */
  datatype Decoded<T> = Decoded(ret: int, out: T)

  /** `asString()` of a member already known to be a string. */
  function StringAt(v: Value, key: string): string
    requires HasString(v, key)
  {
    Get(v, key).s
  }
}
