/** Properties of the engine model: round trips of the memory and stack
    helpers, reset and load, what one step of the loop does for each kind of
    instruction, and how bounded runs relate. */
module MachineProps {
  import opened Bytes
  import opened Results
  import opened Flags
  import opened Opcodes
  import opened Machine

  // ---------------------------------------------------------------- memory

  /** mem_write_u16 followed by mem_read_u16 at the same position gives the
      word back, whenever both bytes lie inside memory. */
  lemma Read16AfterWrite16(s: State, pos: uint16, data: uint16)
    requires pos as int + 1 < MemorySize
    ensures Write16(s, pos, data).Ok?
    ensures Read16(Write16(s, pos, data).value, pos) == Ok(data)
  {
    WordBytes(0, 0, data);
  }

  /** A byte write that does not reach `pos` or `pos + 1` leaves the word
      read there alone. */
  lemma Read16AfterOtherWrite(s: State, pos: uint16, at: uint16, data: uint8)
    requires pos as int + 1 < MemorySize && at as int < MemorySize
    requires at != pos && at as int != pos as int + 1
    ensures Read16(Write(s, at, data).value, pos) == Read16(s, pos)
  {
  }

  // ---------------------------------------------------------------- addressing

  /** The effective address of each addressing mode, in arithmetic: zero-page
      indexing wraps within the zero page (pointer bytes included), absolute
      indexing and the post-index of (zp),Y wrap at 0x10000, and words are
      little-endian. */
  lemma OperandAddressModes(s: State, mode: AddressingMode)
    requires OperandAddress(s, mode).Ok?
    ensures var r := OperandAddress(s, mode).value;
      && (mode == ZeroPage ==> r as int == s.mem[s.pc] as int)
      && (mode == ZeroPageX ==> r as int == (s.mem[s.pc] as int + s.x as int) % 0x100)
      && (mode == ZeroPageY ==> r as int == (s.mem[s.pc] as int + s.y as int) % 0x100)
      && (mode == Absolute ==> r as int == s.mem[s.pc] as int + 0x100 * s.mem[s.pc as int + 1] as int)
      && (mode == AbsoluteX ==>
            r as int == (s.mem[s.pc] as int + 0x100 * s.mem[s.pc as int + 1] as int + s.x as int) % 0x1_0000)
      && (mode == AbsoluteY ==>
            r as int == (s.mem[s.pc] as int + 0x100 * s.mem[s.pc as int + 1] as int + s.y as int) % 0x1_0000)
      && (mode == IndirectX ==>
            var ptr := (s.mem[s.pc] as int + s.x as int) % 0x100;
            r as int == s.mem[ptr] as int + 0x100 * s.mem[(ptr + 1) % 0x100] as int)
      && (mode == IndirectY ==>
            var ptr := s.mem[s.pc] as int;
            r as int == (s.mem[ptr] as int + 0x100 * s.mem[(ptr + 1) % 0x100] as int + s.y as int) % 0x1_0000)
  {
    ZeroPageModes(s, mode);
    AbsoluteModes(s, mode);
    IndirectModes(s, mode);
  }

  /** The zero-page part of `OperandAddressModes`. */
  lemma ZeroPageModes(s: State, mode: AddressingMode)
    requires OperandAddress(s, mode).Ok?
    ensures var r := OperandAddress(s, mode).value;
      && (mode == ZeroPage ==> r as int == s.mem[s.pc] as int)
      && (mode == ZeroPageX ==> r as int == (s.mem[s.pc] as int + s.x as int) % 0x100)
      && (mode == ZeroPageY ==> r as int == (s.mem[s.pc] as int + s.y as int) % 0x100)
  {
  }

  /** The absolute part of `OperandAddressModes`. */
  lemma AbsoluteModes(s: State, mode: AddressingMode)
    requires OperandAddress(s, mode).Ok?
    ensures var r := OperandAddress(s, mode).value;
      && (mode == Absolute ==> r as int == s.mem[s.pc] as int + 0x100 * s.mem[s.pc as int + 1] as int)
      && (mode == AbsoluteX ==>
            r as int == (s.mem[s.pc] as int + 0x100 * s.mem[s.pc as int + 1] as int + s.x as int) % 0x1_0000)
      && (mode == AbsoluteY ==>
            r as int == (s.mem[s.pc] as int + 0x100 * s.mem[s.pc as int + 1] as int + s.y as int) % 0x1_0000)
  {
    match mode {
      case AbsoluteX => AbsoluteXAddress(s);
      case AbsoluteY => AbsoluteYAddress(s);
      case _ =>
    }
  }

  /** Absolute,X: the word after the opcode plus X, wrapping around the
      address space. */
  lemma AbsoluteXAddress(s: State)
    requires OperandAddress(s, AbsoluteX).Ok?
    ensures OperandAddress(s, AbsoluteX).value as int ==
      (s.mem[s.pc] as int + 0x100 * s.mem[s.pc as int + 1] as int + s.x as int) % 0x1_0000
  {
    var base := Word16(s.mem[s.pc], s.mem[s.pc as int + 1]);
    assert OperandAddress(s, AbsoluteX) == Ok(WrappingAdd16(base, s.x as uint16));
    WrappedSum(base, s.x, s.mem[s.pc] as int + 0x100 * s.mem[s.pc as int + 1] as int);
  }

  /** Absolute,Y: the word after the opcode plus Y, wrapping around the
      address space. */
  lemma AbsoluteYAddress(s: State)
    requires OperandAddress(s, AbsoluteY).Ok?
    ensures OperandAddress(s, AbsoluteY).value as int ==
      (s.mem[s.pc] as int + 0x100 * s.mem[s.pc as int + 1] as int + s.y as int) % 0x1_0000
  {
    var base := Word16(s.mem[s.pc], s.mem[s.pc as int + 1]);
    assert OperandAddress(s, AbsoluteY) == Ok(WrappingAdd16(base, s.y as uint16));
    WrappedSum(base, s.y, s.mem[s.pc] as int + 0x100 * s.mem[s.pc as int + 1] as int);
  }

  /** An index added to a word with wrapping is the arithmetic sum mod 65536. */
  lemma WrappedSum(base: uint16, index: uint8, word: int)
    requires base as int == word
    ensures WrappingAdd16(base, index as uint16) as int == (word + index as int) % 0x1_0000
  {
  }

  /** The indirect part of `OperandAddressModes`. */
  lemma IndirectModes(s: State, mode: AddressingMode)
    requires OperandAddress(s, mode).Ok?
    ensures var r := OperandAddress(s, mode).value;
      && (mode == IndirectX ==>
            var ptr := (s.mem[s.pc] as int + s.x as int) % 0x100;
            r as int == s.mem[ptr] as int + 0x100 * s.mem[(ptr + 1) % 0x100] as int)
      && (mode == IndirectY ==>
            var ptr := s.mem[s.pc] as int;
            r as int == (s.mem[ptr] as int + 0x100 * s.mem[(ptr + 1) % 0x100] as int + s.y as int) % 0x1_0000)
  {
    match mode {
      case IndirectX => IndexedIndirect(s);
      case IndirectY => IndirectIndexed(s);
      case _ =>
    }
  }

  /** (zp,X): the word at the zero-page pointer `operand + X`, both pointer
      bytes wrapping within the zero page. */
  lemma IndexedIndirect(s: State)
    requires OperandAddress(s, IndirectX).Ok?
    ensures var ptr := (s.mem[s.pc] as int + s.x as int) % 0x100;
      OperandAddress(s, IndirectX).value as int == s.mem[ptr] as int + 0x100 * s.mem[(ptr + 1) % 0x100] as int
  {
    var ptr := WrappingAdd8(s.mem[s.pc], s.x);
    assert OperandAddress(s, IndirectX) == Ok(Word16(s.mem[ptr], s.mem[WrappingAdd8(ptr, 1)]));
  }

  /** (zp),Y: the word at the zero-page pointer plus Y, the pointer's second
      byte wrapping within the zero page and the sum wrapping around the
      address space. */
  lemma IndirectIndexed(s: State)
    requires OperandAddress(s, IndirectY).Ok?
    ensures var ptr := s.mem[s.pc] as int;
      OperandAddress(s, IndirectY).value as int ==
        (s.mem[ptr] as int + 0x100 * s.mem[(ptr + 1) % 0x100] as int + s.y as int) % 0x1_0000
  {
    var ptr := s.mem[s.pc];
    var word := Word16(s.mem[ptr], s.mem[WrappingAdd8(ptr, 1)]);
    assert OperandAddress(s, IndirectY) == Ok(WrappingAdd16(word, s.y as uint16));
  }

  // ---------------------------------------------------------------- stack

  /** Popping right after a push gives the pushed byte back and restores the
      stack pointer, for every stack pointer including the wrapping ones. */
  lemma PopAfterPush(s: State, data: uint8)
    ensures Pop(Push(s, data)).value == data
    ensures Pop(Push(s, data)).state == Push(s, data).(sp := s.sp)
  {
  }

  /** The same for words: the low byte is popped first and the high byte next,
      and the stack pointer comes back to where it was. */
  lemma Pop16AfterPush16(s: State, data: uint16)
    ensures Pop16(Push16(s, data)).value == data
    ensures Pop16(Push16(s, data)).state == Push16(s, data).(sp := s.sp)
  {
    var high := Push(s, HighByte(data));
    var both := Push(high, LowByte(data));
    PopAfterPush(high, LowByte(data));
    var low := Pop(both);
    assert low.state == both.(sp := high.sp) && low.value == LowByte(data);
    assert both.mem[StackAddress(s.sp)] == HighByte(data);
    PopAfterPush(s, HighByte(data));
    WordBytes(0, 0, data);
  }

  /** Pushing a word leaves every byte outside the two stack slots alone. */
  lemma Push16Frame(s: State, data: uint16, i: int)
    requires 0 <= i < MemorySize
    requires i != StackAddress(s.sp) as int && i != StackAddress(WrappingSub8(s.sp, 1)) as int
    ensures Push16(s, data).mem[i] == s.mem[i]
  {
  }

  // ---------------------------------------------------------------- reset and load

  /** reset depends only on memory, which it does not change, so a second
      reset changes nothing. */
  lemma ResetIdempotent(s: State)
    ensures Reset(Reset(s)) == Reset(s)
  {
  }

  /** After load, reset starts the program counter at 0x8000, where the first
      byte of the program now is. */
  lemma LoadThenReset(s: State, program: seq<uint8>)
    requires 0 < |program| && ProgramStart as int + |program| <= MemorySize
    ensures Load(s, program).Ok?
    ensures Reset(Load(s, program).value).pc == ProgramStart
    ensures Read(Reset(Load(s, program).value), ProgramStart) == Ok(program[0])
  {
    var loaded := Load(s, program).value;
    assert Read16(loaded, ResetVector) == Ok(ProgramStart);
  }

  // ---------------------------------------------------------------- one step

  /** The opcode at the program counter. */
  function OpcodeAt(s: State): uint8
    requires s.pc as int < MemorySize
  {
    s.mem[s.pc]
  }

  /** Every instruction that does not branch or jump, when it completes, leaves
      the program counter just past its last byte (the opcode plus the
      operand bytes of its mode) and the stack pointer where it was. */
  lemma StepFallsThrough(s: State)
    requires s.pc as int < MemorySize
    requires Lookup(OpcodeAt(s)).Some? && OpcodeAt(s) !in {0x20, 0xD0, 0x00}
    requires Step(s).Continue?
    ensures Step(s).next.pc as int == s.pc as int + Lookup(OpcodeAt(s)).value.len
    ensures Step(s).next.sp == s.sp
  {
    var fetched := s.(pc := s.pc + 1);
    var op := Lookup(OpcodeAt(s)).value;
    var out := Execute(fetched, OpcodeAt(s), op.mode);
    assert out.Continue? && Step(s) == Advance(fetched.pc, out.next, op.len);
    ExecuteKeepsPc(fetched, OpcodeAt(s), op.mode);
  }

  /** The dispatch arms other than JSR, BNE and BRK leave the program counter
      and the stack pointer alone. */
  lemma ExecuteKeepsPc(s: State, code: uint8, mode: AddressingMode)
    requires code !in {0x20, 0xD0, 0x00} && Execute(s, code, mode).Continue?
    ensures Execute(s, code, mode).next.pc == s.pc
    ensures Execute(s, code, mode).next.sp == s.sp
  {
    var r := Execute(s, code, mode);
    if code in {0xA9, 0xA5, 0xB5, 0xAD, 0xBD, 0xB9, 0xA1, 0xB1} {
      assert r == Continued(Lda(s, mode));
    } else if code in {0xA2, 0xA6, 0xB6, 0xAE, 0xBE} {
      assert r == Continued(Ldx(s, mode));
    } else if code in {0x85, 0x95, 0x8D, 0x9D, 0x99, 0x81, 0x91} {
      assert r == Continued(Sta(s, mode));
    } else if code in {0x86, 0x96, 0x8E} {
      assert r == Continued(Stx(s, mode));
    } else if code in {0xE0, 0xE4, 0xEC} {
      assert r == Continued(Compare(s, mode, s.x));
    } else if code in {0x69, 0x65, 0x75, 0x6D, 0x7D, 0x79, 0x61, 0x71} {
      assert r == Continued(Adc(s, mode));
    }
  }

  /** LDA, LDX, TAX, INX and DEX set Z and N from the register they write and
      leave the other six status bits alone. */
  lemma LoadsSetZeroNegative(s: State)
    requires s.pc as int < MemorySize && IsLoad(OpcodeAt(s))
    requires Step(s).Continue?
    ensures var next := Step(s).next;
      ZeroNegativeOf(s.status, next.status, if IsLda(OpcodeAt(s)) then next.a else next.x)
  {
    var fetched := s.(pc := s.pc + 1);
    var op := Lookup(OpcodeAt(s)).value;
    var out := Execute(fetched, OpcodeAt(s), op.mode);
    assert out.Continue? && Step(s) == Advance(fetched.pc, out.next, op.len);
    ExecuteSetsZeroNegative(fetched, OpcodeAt(s), op.mode);
  }

  /** The dispatch arms of LDA, LDX, TAX, INX and DEX set Z and N from the
      register they write. */
  lemma ExecuteSetsZeroNegative(s: State, code: uint8, mode: AddressingMode)
    requires IsLoad(code) && Execute(s, code, mode).Continue?
    ensures var next := Execute(s, code, mode).next;
      ZeroNegativeOf(s.status, next.status, if IsLda(code) then next.a else next.x)
  {
    var r := Execute(s, code, mode);
    if IsLda(code) {
      assert r == Continued(Lda(s, mode));
    } else if code in {0xA2, 0xA6, 0xB6, 0xAE, 0xBE} {
      assert r == Continued(Ldx(s, mode));
    } else if code == 0xAA {
      assert r == Continue(Tax(s));
    } else if code == 0xE8 {
      assert r == Continue(Inx(s));
    } else {
      assert r == Continue(Dex(s));
    }
  }

  /** The opcodes of LDA, and those of LDA, LDX, TAX, INX and DEX: every
      instruction that loads a register and sets Z and N from it. */
  predicate IsLda(code: uint8) {
    code in {0xA9, 0xA5, 0xB5, 0xAD, 0xBD, 0xB9, 0xA1, 0xB1}
  }

  predicate IsLoad(code: uint8) {
    IsLda(code) || code in {0xA2, 0xA6, 0xB6, 0xAE, 0xBE, 0xAA, 0xE8, 0xCA}
  }

  /** The branch target of BNE: the address after the offset byte plus the
      signed offset, wrapping around the 16-bit address space. */
  function BranchTarget(s: State): uint16
    requires s.pc as int + 1 < MemorySize
  {
    ((s.pc as int + 2 + Signed(s.mem[s.pc as int + 1])) % 0x1_0000) as uint16
  }

  /** BNE at the program counter: taken iff Z is clear. A taken branch goes to
      the branch target, except that a target equal to the post-fetch program
      counter (offset -1) is indistinguishable from "did not move" and falls
      through. No register, flag or memory byte changes. */
  lemma BneStep(s: State)
    requires s.pc as int + 1 < MemorySize && OpcodeAt(s) == 0xD0
    ensures Step(s).Continue?
    ensures Step(s).next == s.(pc := Step(s).next.pc)
    ensures IsSet(s.status, Zero) ==> Step(s).next.pc as int == s.pc as int + 2
    ensures !IsSet(s.status, Zero) ==>
      Step(s).next.pc == if BranchTarget(s) as int == s.pc as int + 1 then s.pc + 2 else BranchTarget(s)
  {
    var post := s.pc + 1;
    if !IsSet(s.status, Zero) {
      SignExtendAdds(WrappingAdd16(post, 1), s.mem[post]);
    }
  }

  /** The branch quirk on its own: a taken BNE with offset 0xFF lands on the
      offset byte, which the loop takes for "program counter not changed", so
      execution continues after the BNE exactly as if it had not been taken. */
  lemma BneOntoOffsetFallsThrough(s: State)
    requires s.pc as int + 1 < MemorySize && OpcodeAt(s) == 0xD0 && s.mem[s.pc as int + 1] == 0xFF
    ensures Step(s) == Continue(s.(pc := s.pc + 2))
  {
    BneStep(s);
  }

  /** BNE at the very top of memory, not taken: the `len - 1` advance of the
      loop overflows the program counter. */
  lemma BneAtTopOverflows(s: State)
    requires s.pc == 0xFFFE && OpcodeAt(s) == 0xD0 && IsSet(s.status, Zero)
    ensures Step(s) == Faulted(Overflow)
  {
  }

  /** JSR: pushes the address of its own last byte (so the stack pointer drops
      by two and popping a word gives that address back) and jumps to the word
      after the opcode, read after the push; nothing else changes. A target
      equal to the post-fetch program counter falls through by three bytes
      instead. */
  lemma JsrStep(s: State)
    requires s.pc as int + 3 <= MemorySize && OpcodeAt(s) == 0x20
    ensures var pushed := Push16(s, s.pc + 2);
      var target := Read16(pushed, s.pc + 1).value;
      && Step(s) == Continue(pushed.(pc := if target == s.pc + 1 then s.pc + 3 else target))
      && pushed == s.(mem := pushed.mem, sp := pushed.sp)
      && pushed.sp as int == (s.sp as int - 2) % 0x100
      && Pop16(pushed).value == s.pc + 2
  {
    JsrRound(s);
    Pop16AfterPush16(s, s.pc + 2);
  }

  /** The JSR round before the final advance: the word push, then the jump to
      the target read from the operand bytes after the push. */
  lemma JsrRound(s: State)
    requires s.pc as int + 3 <= MemorySize && OpcodeAt(s) == 0x20
    ensures var pushed := Push16(s, s.pc + 2);
      Step(s) == Advance(s.pc + 1, pushed.(pc := Read16(pushed, s.pc + 1).value), 3)
  {
    var fetched := s.(pc := s.pc + 1);
    var pushed := Push16(s, s.pc + 2);
    assert Push16(fetched, s.pc + 2) == pushed.(pc := fetched.pc);
    var target := Read16(pushed, s.pc + 1).value;
    assert Jsr(fetched) == Ok(pushed.(pc := target));
    assert Execute(fetched, 0x20, NoneAddressing) == Continue(pushed.(pc := target));
  }

  /** JSR fetched at 0xFFFD or 0xFFFE, whose operand would end past the top of
      the address space: the non-wrapping `program_counter + 2` overflows. */
  lemma JsrAtTopOverflows(s: State)
    requires 0xFFFD <= s.pc as int < MemorySize && OpcodeAt(s) == 0x20
    ensures Step(s) == Faulted(Overflow)
  {
  }

  /** BRK halts the loop with bits 4 and 5 of the status set and the program
      counter one past the BRK; nothing else changes. */
  lemma BrkStep(s: State)
    requires s.pc as int < MemorySize && OpcodeAt(s) == 0x00
    ensures Step(s) == Halted(s.(pc := s.pc + 1, status := s.status | 0x30))
  {
  }

  /** The faults of a step that come from fetching and decoding: the program
      counter at 0xFFFF, and an opcode the table does not know. */
  lemma FetchFaults(s: State)
    ensures s.pc == 0xFFFF ==> Step(s) == Faulted(OutOfBounds(0xFFFF))
    ensures s.pc as int < MemorySize && Lookup(OpcodeAt(s)).None? ==> Step(s) == Faulted(UnknownOpcode(OpcodeAt(s)))
  {
  }

  /** The table and the dispatcher agree: no table entry falls to `todo!()`,
      and the mode of every dispatched instruction that resolves an address is
      a real one, so NoneAddressing is never reached. */
  lemma DispatchCoversTable(s: State, code: uint8)
    requires Lookup(code).Some?
    ensures Execute(s, code, Lookup(code).value.mode) != Faulted(NotImplemented(code))
    ensures Execute(s, code, Lookup(code).value.mode) != Faulted(NoAddress)
  {
  }
}
