/** Machine words of the source, kept as integer ranges, and the wrapping
    arithmetic on them. Bit operations are written with `/` and `%`. */
module Words {
  type byte = x: int | 0 <= x < 0x100
  type u16 = x: int | 0 <= x < 0x1_0000
  type u32 = x: int | 0 <= x < 0x1_0000_0000

  const U16_MAX := 0xFFFF
  const U32_MAX := 0xFFFF_FFFF

  datatype Option<+T> = None | Some(value: T)

  /** Truncation to 16 and to 32 bits, as the casts and wrapping operators do. */
  function Low16(x: int): u16 {
    x % 0x1_0000
  }

  function Low32(x: int): u32 {
    x % 0x1_0000_0000
  }

  /** `a.wrapping_sub(b)` on sequence numbers and on timestamps. */
  function Sub16(a: u16, b: u16): u16 {
    Low16(a - b)
  }

  function Sub32(a: u32, b: u32): u32 {
    Low32(a - b)
  }

  function Min(a: int, b: int): int {
    if a < b then a else b
  }

  function Max(a: int, b: int): int {
    if a < b then b else a
  }

  /** Saturating subtraction on unsigned values. */
  function SaturatingSub(a: nat, b: nat): nat {
    if a < b then 0 else a - b
  }

  /** Division of signed values as Rust does it: rounding toward zero. */
  function TruncDiv(a: int, b: int): int
    requires b > 0
  {
    if a >= 0 then a / b else -((-a) / b)
  }

  function Abs(x: int): nat {
    if x < 0 then -x else x
  }
}
