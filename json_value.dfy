/**
 * The part of a JSON document value (serde_json's `Value`) that the workflow
 * runner reads: a node's `data` field, looked up by key and converted with
 * `as_str` and `as_u64`.
 */
module JsonValue {
  import opened Wrappers

  /** Rust's `u64`. */
  type U64 = x: int | 0 <= x < 0x1_0000_0000_0000_0000

  /** The negative values of Rust's `i64`. */
  type NegI64 = x: int | -0x8000_0000_0000_0000 <= x < 0 witness -1

  /**
   * A JSON number as serde_json stores it: a non-negative integer that fits
   * in 64 bits, a negative one, or a floating-point value (whose bits the
   * runner never looks at).
   */
  datatype Number = PosInt(u: U64) | NegInt(i: NegI64) | Float

  datatype Value =
    | Null
    | Bool(b: bool)
    | Num(n: Number)
    | Str(s: string)
    | Array(items: seq<Value>)
    | Object(members: map<string, Value>)

  /**
   * `v[key]`: the member named `key` of an object; `Null` when `v` is not an
   * object or has no such member. Indexing never fails.
   */
  function Index(v: Value, key: string): (r: Value)
    ensures v.Object? && key in v.members ==> r == v.members[key]
    ensures r != Null ==> v.Object? && key in v.members && v.members[key] == r
  {
    match v
    case Object(m) => if key in m then m[key] else Null
    case _ => Null
  }

  /** `v.as_str()`: succeeds exactly on strings. */
  function AsStr(v: Value): (r: Option<string>)
    ensures r.Some? <==> v.Str?
    ensures r.Some? ==> v == Str(r.value)
  {
    if v.Str? then Some(v.s) else None
  }

  /**
   * `v.as_u64()`: succeeds exactly on numbers stored as non-negative
   * integers; negative integers, floats and every other kind give `None`.
   */
  function AsU64(v: Value): (r: Option<U64>)
    ensures r.Some? <==> v.Num? && v.n.PosInt?
    ensures r.Some? ==> v == Num(PosInt(r.value))
  {
    match v
    case Num(PosInt(u)) => Some(u)
    case _ => None
  }
}
