/** Machine words of the CHIP-8 core and the Rust primitive operations the
    interpreter applies to them (`overflowing_add`, `wrapping_add`, shifts,
    masks). Integers are unbounded in Dafny, so every wrap-around is written
    out here once and used everywhere else. */
module Words {

  /** Rust `u8`. */
  newtype u8 = x: int | 0 <= x < 0x100

  /** Rust `u16`. */
  newtype u16 = x: int | 0 <= x < 0x1_0000

  datatype Option<T> = None | Some(value: T)

  /** `u8::overflowing_add`: the sum modulo 256 and whether it carried. */
  function OverflowingAdd(a: u8, b: u8): (r: (u8, bool))
    ensures r.0 as int == (a as int + b as int) % 0x100
    ensures r.1 <==> a as int + b as int > 0xFF
  {
    var sum := a as int + b as int;
    if sum > 0xFF then ((sum - 0x100) as u8, true) else (sum as u8, false)
  }

  /** `u8::overflowing_sub`: the difference modulo 256 and whether it borrowed. */
  function OverflowingSub(a: u8, b: u8): (r: (u8, bool))
    ensures r.0 as int == (a as int - b as int) % 0x100
    ensures r.1 <==> a < b
  {
    if a < b then ((a as int - b as int + 0x100) as u8, true) else (a - b, false)
  }

  /** `u8::wrapping_add`. */
  function WrappingAdd(a: u8, b: u8): (r: u8)
    ensures r as int == (a as int + b as int) % 0x100
  {
    OverflowingAdd(a, b).0
  }

  /** `u16::wrapping_add`. */
  function WrappingAdd16(a: u16, b: u16): (r: u16)
    ensures r as int == (a as int + b as int) % 0x1_0000
  {
    var sum := a as int + b as int;
    if sum > 0xFFFF then (sum - 0x1_0000) as u16 else sum as u16
  }

  /** `a | b` on bytes. */
  function BitOr(a: u8, b: u8): u8
  {
    ((a as bv8) | (b as bv8)) as u8
  }

  /** `a & b` on bytes. */
  function BitAnd(a: u8, b: u8): u8
  {
    ((a as bv8) & (b as bv8)) as u8
  }

  /** `a ^ b` on bytes. */
  function BitXor(a: u8, b: u8): u8
  {
    ((a as bv8) ^ (b as bv8)) as u8
  }

  /** `a >> 1` on a byte: halving, rounding down. */
  function ShiftRight1(a: u8): u8
  {
    a / 2
  }

  /** `a << 1` on a byte: the top bit is shifted out, so doubling wraps. */
  function ShiftLeft1(a: u8): (r: u8)
    ensures r as int == (2 * a as int) % 0x100
  {
    if a < 0x80 then 2 * a else (2 * a as int - 0x100) as u8
  }

  /** `a & 1`: the least significant bit. */
  function Lsb(a: u8): (r: u8)
    ensures r as int == a as int % 2
  {
    ((a as bv8) & 1) as u8
  }

  /** `(a >> 7) & 1`: the most significant bit. */
  function Msb(a: u8): (r: u8)
    ensures r as int == a as int / 0x80
  {
    (((a as bv8) >> 7) & 1) as u8
  }
}
