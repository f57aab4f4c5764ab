/** Addressing modes and the instruction-metadata table.

    The engine looks each fetched opcode up in `crate::opcodes::OPCODES_MAP`;
    that module is not part of this model. `Lookup` stands in for it with the
    entries of the standard 6502 opcode map for exactly the opcodes the
    dispatcher of src/cpu.rs:190-249 handles. */
module Opcodes {
  import opened Bytes
  import opened Results

  /** src/cpu.rs:20-31 */
  datatype AddressingMode =
    | Immediate
    | ZeroPage
    | ZeroPageX
    | ZeroPageY
    | Absolute
    | AbsoluteX
    | AbsoluteY
    | IndirectX
    | IndirectY
    | NoneAddressing

  /** The instruction bytes after the opcode that a mode's address resolution
      reads: one for the immediate, zero-page and indirect modes, two for the
      absolute ones. */
  function OperandSize(mode: AddressingMode): nat {
    match mode
    case Absolute | AbsoluteX | AbsoluteY => 2
    case NoneAddressing => 0
    case _ => 1
  }

  /** One table entry: opcode byte, mnemonic, encoded length in bytes, mode. */
  datatype OpCode = OpCode(code: uint8, mnemonic: string, len: nat, mode: AddressingMode)

  /** The table. An entry's length is the opcode byte plus the operand bytes
      its mode reads. BNE and JSR are the two entries whose length the mode
      does not account for: they have no mode but read a one-byte offset and
      a two-byte target themselves. */
  function Lookup(code: uint8): (r: Option<OpCode>)
    ensures r.Some? ==> r.value.code == code && 1 <= r.value.len <= 3
    ensures r.Some? && r.value.mode != NoneAddressing ==> r.value.len == 1 + OperandSize(r.value.mode)
    ensures code == 0xD0 ==> r == Some(OpCode(0xD0, "BNE", 2, NoneAddressing))
    ensures code == 0x20 ==> r == Some(OpCode(0x20, "JSR", 3, NoneAddressing))
  {
    match code
    // LDA
    case 0xA9 => Some(OpCode(0xA9, "LDA", 2, Immediate))
    case 0xA5 => Some(OpCode(0xA5, "LDA", 2, ZeroPage))
    case 0xB5 => Some(OpCode(0xB5, "LDA", 2, ZeroPageX))
    case 0xAD => Some(OpCode(0xAD, "LDA", 3, Absolute))
    case 0xBD => Some(OpCode(0xBD, "LDA", 3, AbsoluteX))
    case 0xB9 => Some(OpCode(0xB9, "LDA", 3, AbsoluteY))
    case 0xA1 => Some(OpCode(0xA1, "LDA", 2, IndirectX))
    case 0xB1 => Some(OpCode(0xB1, "LDA", 2, IndirectY))
    // LDX
    case 0xA2 => Some(OpCode(0xA2, "LDX", 2, Immediate))
    case 0xA6 => Some(OpCode(0xA6, "LDX", 2, ZeroPage))
    case 0xB6 => Some(OpCode(0xB6, "LDX", 2, ZeroPageY))
    case 0xAE => Some(OpCode(0xAE, "LDX", 3, Absolute))
    case 0xBE => Some(OpCode(0xBE, "LDX", 3, AbsoluteY))
    // STA
    case 0x85 => Some(OpCode(0x85, "STA", 2, ZeroPage))
    case 0x95 => Some(OpCode(0x95, "STA", 2, ZeroPageX))
    case 0x8D => Some(OpCode(0x8D, "STA", 3, Absolute))
    case 0x9D => Some(OpCode(0x9D, "STA", 3, AbsoluteX))
    case 0x99 => Some(OpCode(0x99, "STA", 3, AbsoluteY))
    case 0x81 => Some(OpCode(0x81, "STA", 2, IndirectX))
    case 0x91 => Some(OpCode(0x91, "STA", 2, IndirectY))
    // STX
    case 0x86 => Some(OpCode(0x86, "STX", 2, ZeroPage))
    case 0x96 => Some(OpCode(0x96, "STX", 2, ZeroPageY))
    case 0x8E => Some(OpCode(0x8E, "STX", 3, Absolute))
    // CPX
    case 0xE0 => Some(OpCode(0xE0, "CPX", 2, Immediate))
    case 0xE4 => Some(OpCode(0xE4, "CPX", 2, ZeroPage))
    case 0xEC => Some(OpCode(0xEC, "CPX", 3, Absolute))
    // JSR
    case 0x20 => Some(OpCode(0x20, "JSR", 3, NoneAddressing))
    // ADC
    case 0x69 => Some(OpCode(0x69, "ADC", 2, Immediate))
    case 0x65 => Some(OpCode(0x65, "ADC", 2, ZeroPage))
    case 0x75 => Some(OpCode(0x75, "ADC", 2, ZeroPageX))
    case 0x6D => Some(OpCode(0x6D, "ADC", 3, Absolute))
    case 0x7D => Some(OpCode(0x7D, "ADC", 3, AbsoluteX))
    case 0x79 => Some(OpCode(0x79, "ADC", 3, AbsoluteY))
    case 0x61 => Some(OpCode(0x61, "ADC", 2, IndirectX))
    case 0x71 => Some(OpCode(0x71, "ADC", 2, IndirectY))
    // BNE
    case 0xD0 => Some(OpCode(0xD0, "BNE", 2, NoneAddressing))
    // DEX, TAX, INX, BRK
    case 0xCA => Some(OpCode(0xCA, "DEX", 1, NoneAddressing))
    case 0xAA => Some(OpCode(0xAA, "TAX", 1, NoneAddressing))
    case 0xE8 => Some(OpCode(0xE8, "INX", 1, NoneAddressing))
    case 0x00 => Some(OpCode(0x00, "BRK", 1, NoneAddressing))
    case _ => None
  }

  /** The entries without a mode other than BNE and JSR (DEX, TAX, INX and
      BRK) are one byte long: the opcode alone. */
  lemma ImpliedLength(code: uint8)
    requires Lookup(code).Some? && Lookup(code).value.mode == NoneAddressing
    requires code != 0xD0 && code != 0x20
    ensures Lookup(code).value.len == 1
  {
  }
}
