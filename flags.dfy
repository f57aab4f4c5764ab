/** The status register and the flag arithmetic of the engine
    (src/cpu.rs:257-325).

    Bit layout of the status byte:
      7 N negative, 6 V overflow, 5 unused (set by BRK), 4 B break,
      3 D decimal, 2 I interrupt disable, 1 Z zero, 0 C carry. */
module Flags {
  import opened Bytes

  const Carry: bv8 := 0x01
  const Zero: bv8 := 0x02
  const InterruptDisable: bv8 := 0x04
  const DecimalMode: bv8 := 0x08
  const Break: bv8 := 0x10
  const Break2: bv8 := 0x20
  const Overflow: bv8 := 0x40
  const Negative: bv8 := 0x80

  predicate IsSet(status: bv8, flag: bv8) {
    status & flag != 0
  }

  /** Bit 7 of a byte, the sign bit of its `i8` reading: set exactly for the
      values 0x80 and above (`SignBitIsBit7`). */
  predicate SignBit(b: uint8) {
    b >= 0x80
  }

  /** The test `result & 0b1000_0000 != 0` of update_zero_and_negative_flags
      is `SignBit`. */
  lemma SignBitIsBit7(b: uint8)
    ensures SignBit(b) <==> (b as bv8) & 0x80 != 0
  {
    XorSignBit(b, 0);
  }

  /** `status` with `flag` set when `on` holds and cleared otherwise: the
      `status | FLAG` / `status & !FLAG` pair the engine writes for each flag. */
  function Assign(status: bv8, flag: bv8, on: bool): (r: bv8)
    ensures on ==> r & flag == flag
    ensures !on ==> r & flag == 0
    ensures r & !flag == status & !flag
  {
    if on then status | flag else status & !flag
  }

  /** update_zero_and_negative_flags: Z records whether the result is zero,
      N copies its sign bit, and no other status bit moves. */
  function ZeroNegative(status: bv8, result: uint8): (r: bv8)
    ensures IsSet(r, Zero) <==> result == 0
    ensures IsSet(r, Negative) <==> result >= 0x80
    ensures r & 0x7D == status & 0x7D
  {
    var withZero := Assign(status, Zero, result == 0);
    Assign(withZero, Negative, SignBit(result))
  }

  /** The accumulator and status register after an addition. */
  datatype Sum = Sum(value: uint8, status: bv8)

  function CarryIn(status: bv8): int {
    if IsSet(status, Carry) then 1 else 0
  }

  /** The overflow rule of add_to_register_a, `(data ^ result) & (result ^ a) & 0x80 != 0`. */
  predicate OverflowRule(a: uint8, data: uint8, result: uint8) {
    ((data as bv8 ^ result as bv8) & (result as bv8 ^ a as bv8) & 0x80) != 0
  }

  /** add_to_register_a: the new accumulator is the 9-bit sum of A, the operand
      and the carry, truncated to 8 bits; C is the ninth bit; V says the signed
      (two's complement) sum does not fit in `i8`; Z and N describe the new
      accumulator; I, D, B and bit 5 are untouched. */
  function AddWithCarry(a: uint8, data: uint8, status: bv8): (r: Sum)
    ensures r.value as int == (a as int + data as int + CarryIn(status)) % 0x100
    ensures IsSet(r.status, Carry) <==> a as int + data as int + CarryIn(status) > 0xFF
    ensures IsSet(r.status, Overflow) <==> !(-0x80 <= Signed(a) + Signed(data) + CarryIn(status) < 0x80)
    ensures IsSet(r.status, Zero) <==> r.value == 0
    ensures IsSet(r.status, Negative) <==> r.value >= 0x80
    ensures r.status & 0x3C == status & 0x3C
  {
    var sum := a as int + data as int + CarryIn(status);
    var withCarry := Assign(status, Carry, sum > 0xFF);
    var result := (sum % 0x100) as uint8;
    var withOverflow := Assign(withCarry, Overflow, OverflowRule(a, data, result));
    OverflowIsSignedOverflow(a, data, CarryIn(status));
    Sum(result, ZeroNegative(withOverflow, result))
  }

  /** The bitwise overflow rule holds exactly when the signed sum leaves the
      range of `i8`. */
  lemma OverflowIsSignedOverflow(a: uint8, data: uint8, carry: int)
    requires 0 <= carry <= 1
    ensures var result := ((a as int + data as int + carry) % 0x100) as uint8;
            OverflowRule(a, data, result) <==> !(-0x80 <= Signed(a) + Signed(data) + carry < 0x80)
  {
    var result := ((a as int + data as int + carry) % 0x100) as uint8;
    XorSignBit(data, result);
    XorSignBit(result, a);
    AndSignBit(data as bv8 ^ result as bv8, result as bv8 ^ a as bv8);
    assert OverflowRule(a, data, result) <==> (data >= 0x80) != (result >= 0x80) && (result >= 0x80) != (a >= 0x80);
    SignedOverflowBySigns(a, data, carry);
  }

  /** Signed overflow of an 8-bit addition: the operands have the same sign
      and the truncated sum has the other one. */
  lemma SignedOverflowBySigns(a: uint8, data: uint8, carry: int)
    requires 0 <= carry <= 1
    ensures var result := (a as int + data as int + carry) % 0x100;
            ((data >= 0x80) != (result >= 0x80) && (result >= 0x80) != (a >= 0x80))
            <==> !(-0x80 <= Signed(a) + Signed(data) + carry < 0x80)
  {
    var sum := a as int + data as int + carry;
    if a < 0x80 && data < 0x80 {
      assert sum < 0x100 && sum % 0x100 == sum;
    } else if a >= 0x80 && data >= 0x80 {
      assert 0x100 <= sum < 0x200 && sum % 0x100 == sum - 0x100;
    } else {
      assert Signed(a) + Signed(data) + carry == sum - 0x100;
    }
  }

  lemma XorSignBit(p: uint8, q: uint8)
    ensures ((p as bv8 ^ q as bv8) & 0x80 != 0) <==> (p >= 0x80) != (q >= 0x80)
  {
  }

  lemma AndSignBit(p: bv8, q: bv8)
    ensures (p & q & 0x80 != 0) <==> (p & 0x80 != 0 && q & 0x80 != 0)
  {
  }

  /** compare: C says the operand is at most the register (unsigned, no
      borrow), Z says they are equal, N is bit 7 of their wrapping difference;
      I, D, B, bit 5 and V are untouched. */
  function CompareFlags(register: uint8, data: uint8, status: bv8): (r: bv8)
    ensures IsSet(r, Carry) <==> data <= register
    ensures IsSet(r, Zero) <==> data == register
    ensures IsSet(r, Negative) <==> (register as int - data as int) % 0x100 >= 0x80
    ensures r & 0x7C == status & 0x7C
  {
    var withCarry := Assign(status, Carry, data <= register);
    ZeroNegative(withCarry, WrappingSub8(register, data))
  }
}
