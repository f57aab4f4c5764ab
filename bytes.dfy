/** Rust's `u8` and `u16` as bounded integers, and the wrapping and
    little-endian operations the CPU performs on them.

    Arithmetic written with `+` on these newtypes must stay in range, which is
    how Rust's non-wrapping `+` (a panic on overflow) is modelled: Dafny has to
    prove that no overflow happens there. The `wrapping_*` operations of Rust
    are written out with `%`. */
module Bytes {

  newtype uint8 = x: int | 0 <= x < 0x100
  newtype uint16 = x: int | 0 <= x < 0x1_0000

  /** `u8::wrapping_add` */
  function WrappingAdd8(a: uint8, b: uint8): uint8 {
    ((a as int + b as int) % 0x100) as uint8
  }

  /** `u8::wrapping_sub` */
  function WrappingSub8(a: uint8, b: uint8): uint8 {
    ((a as int - b as int) % 0x100) as uint8
  }

  /** `u16::wrapping_add` */
  function WrappingAdd16(a: uint16, b: uint16): uint16 {
    ((a as int + b as int) % 0x1_0000) as uint16
  }

  /** `(hi as u16) << 8 | (lo as u16)`: the little-endian word whose bytes are `lo`, `hi`. */
  function Word16(lo: uint8, hi: uint8): uint16 {
    hi as uint16 * 0x100 + lo as uint16
  }

  /** `(data & 0xff) as u8` */
  function LowByte(w: uint16): uint8 {
    (w % 0x100) as uint8
  }

  /** `(data >> 8) as u8` */
  function HighByte(w: uint16): uint8 {
    (w / 0x100) as uint8
  }

  /** The value of a byte read as Rust's `i8` (two's complement). */
  function Signed(b: uint8): int {
    if b < 0x80 then b as int else b as int - 0x100
  }

  /** `(b as i8) as u16`: the sign-extending cast of a byte to a word. */
  function SignExtend(b: uint8): uint16 {
    if b < 0x80 then b as uint16 else 0xFF00 + b as uint16
  }

  /** Splitting a word into its two bytes and joining them again is the identity,
      in both directions. */
  lemma WordBytes(lo: uint8, hi: uint8, w: uint16)
    ensures LowByte(Word16(lo, hi)) == lo && HighByte(Word16(lo, hi)) == hi
    ensures Word16(LowByte(w), HighByte(w)) == w
  {
  }

  /** Adding the sign-extended byte with 16-bit wrap-around adds its signed
      value modulo 0x10000: a relative branch wraps around the address space
      instead of overflowing. */
  lemma SignExtendAdds(w: uint16, b: uint8)
    ensures WrappingAdd16(w, SignExtend(b)) as int == (w as int + Signed(b)) % 0x1_0000
  {
    if b >= 0x80 {
      assert SignExtend(b) as int == Signed(b) + 0x1_0000;
      assert (w as int + Signed(b) + 0x1_0000) % 0x1_0000 == (w as int + Signed(b)) % 0x1_0000;
    }
  }
}
