/** Result types, bytes and the 64-bit arithmetic that the token accounting relies on. */
module Foundation {

  datatype Option<+T> = None | Some(value: T)

  datatype Result<+T, +E> = Ok(value: T) | Err(error: E)

  type Byte = b: int | 0 <= b < 256

  type Bytes = seq<Byte>

  const NEWLINE: Byte := 10

  const U64_MAX: nat := 0xFFFF_FFFF_FFFF_FFFF

  type U64 = n: nat | n <= U64_MAX

  /** `u64::saturating_add`. */
  function SatAdd(a: U64, b: U64): U64 {
    if a + b <= U64_MAX then a + b else U64_MAX
  }

  /** `u64::saturating_sub`. */
  function SatSub(a: U64, b: U64): U64 {
    if b <= a then a - b else 0
  }

  /** `u64::saturating_mul`. */
  function SatMul(a: U64, b: U64): U64 {
    if a * b <= U64_MAX then a * b else U64_MAX
  }

  /** `u64::try_from(n).unwrap_or(u64::MAX)`. */
  function ToU64(n: nat): U64 {
    if n <= U64_MAX then n else U64_MAX
  }

  function Min(a: int, b: int): int {
    if a <= b then a else b
  }

  function Max(a: int, b: int): int {
    if a >= b then a else b
  }

  /** Bytes the UTF-8 encoding of one character occupies. */
  function Utf8CharLen(c: char): nat {
    var code := c as int;
    if code < 0x80 then 1 else if code < 0x800 then 2 else if code < 0x1_0000 then 3 else 4
  }

  /** `str::len`: the length of the UTF-8 encoding. */
  function Utf8Len(s: string): nat {
    if s == "" then 0 else Utf8CharLen(s[0]) + Utf8Len(s[1..])
  }

  /** Characters with the Unicode `White_Space` property, which `str::trim` removes. */
  predicate WhiteSpace(c: char) {
    var code := c as int;
    || 0x09 <= code <= 0x0D || code in {0x20, 0x85, 0xA0, 0x1680, 0x2028, 0x2029, 0x202F, 0x205F, 0x3000}
    || 0x2000 <= code <= 0x200A
  }

  /** `s.trim().is_empty()`. */
  predicate Blank(s: string) {
    forall i | 0 <= i < |s| :: WhiteSpace(s[i])
  }
}
