/** Parsed JSON trees, as serde_json::Value presents them. */
module Json {
  import opened Types

  /** `Int` holds serde_json's integer numbers, from i64::MIN to u64::MAX; other numbers are `Float`. */
  datatype Json =
    | Null
    | Bool(b: bool)
    | Int(n: int)
    | Float
    | Str(s: string)
    | Arr(items: seq<Json>)
    | Obj(fields: map<string, Json>)

  const I64_MIN: int := -0x8000_0000_0000_0000
  const I64_MAX: int := 0x7FFF_FFFF_FFFF_FFFF
  const U64_MAX: int := 0xFFFF_FFFF_FFFF_FFFF
  const U32_MAX: int := 0xFFFF_FFFF

  /** `Value::get` with a string key: only objects have members. */
  function Get(j: Json, key: string): Option<Json> {
    if j.Obj? && key in j.fields then Some(j.fields[key]) else None
  }

  /** `get(first).or_else(|| get(second))`. */
  function GetEither(j: Json, first: string, second: string): Option<Json> {
    if Get(j, first).Some? then Get(j, first) else Get(j, second)
  }

  function AsI64(j: Json): Option<int> {
    if j.Int? && I64_MIN <= j.n <= I64_MAX then Some(j.n) else None
  }

  function AsU64(j: Json): Option<int> {
    if j.Int? && 0 <= j.n <= U64_MAX then Some(j.n) else None
  }

  function AsU32(j: Json): Option<int> {
    if j.Int? && 0 <= j.n <= U32_MAX then Some(j.n) else None
  }

  function AsU8(j: Json): Option<int> {
    if j.Int? && 0 <= j.n <= 255 then Some(j.n) else None
  }

  function AsBool(j: Json): Option<bool> {
    if j.Bool? then Some(j.b) else None
  }

  function AsStr(j: Json): Option<string> {
    if j.Str? then Some(j.s) else None
  }

  /** `u64::to_string`. */
  function Decimal(n: nat): string {
    var last := [('0' as int + n % 10) as char];
    if n < 10 then last else Decimal(n / 10) + last
  }
}
