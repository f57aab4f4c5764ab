/** The 6502 execution engine of src/cpu.rs, on values.

    `State` is the `CPU` struct (src/cpu.rs:7-15): the registers and the flat
    memory of 0xFFFF bytes. Each function here is one operation of the engine;
    an operation that can panic returns a `Result`, and one step of the
    fetch-decode-execute loop returns an `Outcome`. The class `Cpu.CPU`
    performs the same operations in place and is proved against these
    functions. */
module Machine {
  import opened Bytes
  import opened Results
  import opened Flags
  import opened Opcodes

  /** `memory: [u8; 0xFFFF]`: valid indices are 0 to 0xFFFE. */
  const MemorySize: nat := 0xFFFF
  /** `STACK`: the stack lives in page 1. */
  const StackPage: uint16 := 0x0100
  /** `STACK_RESET` */
  const StackReset: uint8 := 0xFD
  /** Where `load` puts a program. */
  const ProgramStart: uint16 := 0x8000
  /** Where `reset` reads the initial program counter. */
  const ResetVector: uint16 := 0xFFFC

  type Memory = m: seq<uint8> | |m| == MemorySize witness seq(MemorySize, _ => 0)

  datatype State = State(
    a: uint8,       // register_a
    x: uint8,       // register_x
    y: uint8,       // register_y
    status: bv8,
    pc: uint16,     // program_counter
    sp: uint8,      // stack_pointer
    mem: Memory)

  /** CPU::new: zero registers and memory, stack pointer at STACK_RESET. */
  function New(): (s: State)
    ensures s.a == s.x == s.y == 0 && s.status == 0 && s.pc == 0 && s.sp == StackReset
    ensures forall i :: 0 <= i < MemorySize ==> s.mem[i] == 0
  {
    State(0, 0, 0, 0, 0, StackReset, seq(MemorySize, _ => 0))
  }

  // ---------------------------------------------------------------- memory

  /** mem_read: the byte at `addr`; address 0xFFFF is past the array. */
  function Read(s: State, addr: uint16): (r: Result<uint8>)
    ensures r.Ok? <==> addr as int < MemorySize
    ensures r.Ok? ==> r.value == s.mem[addr]
    ensures r.Err? ==> r.fault == OutOfBounds(addr as int)
  {
    if addr as int < |s.mem| then Ok(s.mem[addr]) else Err(OutOfBounds(addr as int))
  }

  /** mem_read_u16: the little-endian word at `pos`, `pos + 1`. The `pos + 1`
      cannot overflow: reading `pos` already failed if it was 0xFFFF. */
  function Read16(s: State, pos: uint16): (r: Result<uint16>)
    ensures r.Ok? <==> pos as int + 1 < MemorySize
    ensures r.Ok? ==> r.value as int == s.mem[pos] as int + 0x100 * s.mem[pos as int + 1] as int
    ensures r.Err? ==> r.fault == OutOfBounds(if pos as int < MemorySize then pos as int + 1 else pos as int)
  {
    var lo :- Read(s, pos);
    var hi :- Read(s, pos + 1);
    Ok(Word16(lo, hi))
  }

  /** mem_write: the byte at `addr` becomes `data`, nothing else changes. */
  function Write(s: State, addr: uint16, data: uint8): (r: Result<State>)
    ensures r.Ok? <==> addr as int < MemorySize
    ensures r.Ok? ==> r.value == s.(mem := s.mem[addr := data])
    ensures r.Err? ==> r.fault == OutOfBounds(addr as int)
  {
    if addr as int < |s.mem| then Ok(s.(mem := s.mem[addr := data])) else Err(OutOfBounds(addr as int))
  }

  /** mem_write_u16: low byte at `pos`, high byte at `pos + 1`, nothing else changes. */
  function Write16(s: State, pos: uint16, data: uint16): (r: Result<State>)
    ensures r.Ok? <==> pos as int + 1 < MemorySize
    ensures r.Ok? ==> r.value == s.(mem := r.value.mem)
    ensures r.Ok? ==> r.value.mem[pos] == LowByte(data) && r.value.mem[pos as int + 1] == HighByte(data)
    ensures r.Ok? ==> forall i :: 0 <= i < MemorySize && i != pos as int && i != pos as int + 1 ==> r.value.mem[i] == s.mem[i]
    ensures r.Err? ==> r.fault == OutOfBounds(MemorySize)
  {
    var low :- Write(s, pos, LowByte(data));
    Write(low, pos + 1, HighByte(data))
  }

  // ---------------------------------------------------------------- addressing

  predicate InZeroPageMode(mode: AddressingMode) {
    mode.ZeroPage? || mode.ZeroPageX? || mode.ZeroPageY?
  }

  /** get_operand_address: the effective address of the operand, with the
      program counter just past the opcode. Resolution fails for
      NoneAddressing and when the operand bytes it reads run past memory. */
  function OperandAddress(s: State, mode: AddressingMode): (r: Result<uint16>)
    ensures r.Err? <==> mode == NoneAddressing || (mode != Immediate && s.pc as int + OperandSize(mode) > MemorySize)
    ensures mode == NoneAddressing ==> r == Err(NoAddress)
    ensures mode == Immediate ==> r == Ok(s.pc)
    ensures r.Ok? && InZeroPageMode(mode) ==> r.value < 0x100
  {
    match mode
    case Immediate => Ok(s.pc)
    case ZeroPage =>
      var pos :- Read(s, s.pc);
      Ok(pos as uint16)
    case Absolute => Read16(s, s.pc)
    case ZeroPageX =>
      var pos :- Read(s, s.pc);
      Ok(WrappingAdd8(pos, s.x) as uint16)
    case ZeroPageY =>
      var pos :- Read(s, s.pc);
      Ok(WrappingAdd8(pos, s.y) as uint16)
    case AbsoluteX =>
      var base :- Read16(s, s.pc);
      Ok(WrappingAdd16(base, s.x as uint16))
    case AbsoluteY =>
      var base :- Read16(s, s.pc);
      Ok(WrappingAdd16(base, s.y as uint16))
    case IndirectX =>
      var base :- Read(s, s.pc);
      var ptr := WrappingAdd8(base, s.x);
      // both pointer bytes lie in the zero page, so these reads cannot fail
      var lo := Read(s, ptr as uint16).value;
      var hi := Read(s, WrappingAdd8(ptr, 1) as uint16).value;
      Ok(Word16(lo, hi))
    case IndirectY =>
      var base :- Read(s, s.pc);
      var lo := Read(s, base as uint16).value;
      var hi := Read(s, WrappingAdd8(base, 1) as uint16).value;
      Ok(WrappingAdd16(Word16(lo, hi), s.y as uint16))
    case NoneAddressing => Err(NoAddress)
  }

  /** The byte an instruction's operand designates: the byte at its effective
      address (for Immediate, the instruction byte after the opcode). */
  function Operand(s: State, mode: AddressingMode): Result<uint8> {
    var addr :- OperandAddress(s, mode);
    Read(s, addr)
  }

  // ---------------------------------------------------------------- stack

  /** `STACK + stack_pointer` */
  function StackAddress(sp: uint8): uint16 {
    StackPage + sp as uint16
  }

  /** stack_push: store at the stack top, then move the stack pointer down one
      (wrapping). Only the byte at the old stack top changes. */
  function Push(s: State, data: uint8): (r: State)
    ensures r == s.(mem := r.mem, sp := r.sp)
    ensures r.sp as int == (s.sp as int - 1) % 0x100
    ensures r.mem == s.mem[StackAddress(s.sp) := data]
  {
    var written := Write(s, StackAddress(s.sp), data).value;
    written.(sp := WrappingSub8(s.sp, 1))
  }

  /** A machine state together with a value taken from it. */
  datatype Popped<T> = Popped(state: State, value: T)

  /** stack_pop: move the stack pointer up one (wrapping), then read the byte
      there. Memory does not change. */
  function Pop(s: State): (r: Popped<uint8>)
    ensures r.state == s.(sp := r.state.sp)
    ensures r.state.sp as int == (s.sp as int + 1) % 0x100
    ensures r.value == s.mem[StackAddress(r.state.sp)]
  {
    var moved := s.(sp := WrappingAdd8(s.sp, 1));
    Popped(moved, Read(moved, StackAddress(moved.sp)).value)
  }

  /** stack_push_u16: the high byte first, so that the low byte is on top. */
  function Push16(s: State, data: uint16): (r: State)
    ensures r == s.(mem := r.mem, sp := r.sp)
    ensures r.sp as int == (s.sp as int - 2) % 0x100
    ensures r.mem[StackAddress(s.sp)] == HighByte(data)
    ensures r.mem[StackAddress(WrappingSub8(s.sp, 1))] == LowByte(data)
  {
    Push(Push(s, HighByte(data)), LowByte(data))
  }

  /** stack_pop_u16: the low byte is popped first, from just above the top,
      and the high byte from the slot above it. */
  function Pop16(s: State): (r: Popped<uint16>)
    ensures r.state == s.(sp := r.state.sp)
    ensures r.state.sp as int == (s.sp as int + 2) % 0x100
    ensures r.value == Word16(s.mem[StackAddress(WrappingAdd8(s.sp, 1))], s.mem[StackAddress(WrappingAdd8(s.sp, 2))])
  {
    var low := Pop(s);
    var high := Pop(low.state);
    Popped(high.state, Word16(low.value, high.value))
  }

  // ---------------------------------------------------------------- reset and load

  /** reset: registers and flags to zero, stack pointer to STACK_RESET, program
      counter from the reset vector; memory is left alone. */
  function Reset(s: State): (r: State)
    ensures r.a == r.x == r.y == 0 && r.status == 0 && r.sp == StackReset
    ensures r.pc as int == s.mem[ResetVector] as int + 0x100 * s.mem[ResetVector as int + 1] as int
    ensures r.mem == s.mem
  {
    s.(a := 0, x := 0, y := 0, status := 0, sp := StackReset, pc := Read16(s, ResetVector).value)
  }

  /** load: copy the program to 0x8000 onward (a slice copy that fails when the
      program runs past the end of memory), then write 0x8000 to the reset
      vector. */
  function Load(s: State, program: seq<uint8>): (r: Result<State>)
    ensures r.Ok? <==> ProgramStart as int + |program| <= MemorySize
    ensures r.Err? ==> r.fault == OutOfBounds(ProgramStart as int + |program|)
    ensures r.Ok? ==> r.value == s.(mem := r.value.mem)
    ensures r.Ok? ==> forall i ::
      (0 <= i < |program| && ProgramStart as int + i != ResetVector as int
       && ProgramStart as int + i != ResetVector as int + 1) ==> r.value.mem[ProgramStart as int + i] == program[i]
    ensures r.Ok? ==> Read16(r.value, ResetVector) == Ok(ProgramStart)
    ensures r.Ok? ==> forall i ::
      (0 <= i < MemorySize && !(ProgramStart as int <= i < ProgramStart as int + |program|)
       && i != ResetVector as int && i != ResetVector as int + 1) ==> r.value.mem[i] == s.mem[i]
  {
    var end := ProgramStart as int + |program|;
    if end > |s.mem| then Err(OutOfBounds(end))
    else
      var copied := s.(mem := s.mem[..ProgramStart] + program + s.mem[end..]);
      Write16(copied, ResetVector, ProgramStart)
  }

  // ---------------------------------------------------------------- instructions

  /** Status after a value lands in a register: Z and N describe the value, the
      other six bits are as before. */
  ghost predicate ZeroNegativeOf(before: bv8, after: bv8, value: uint8) {
    && (IsSet(after, Zero) <==> value == 0)
    && (IsSet(after, Negative) <==> value >= 0x80)
    && after & 0x7D == before & 0x7D
  }

  /** set_register_a */
  function SetRegisterA(s: State, value: uint8): (r: State)
    ensures r == s.(a := value, status := r.status)
    ensures ZeroNegativeOf(s.status, r.status, value)
  {
    s.(a := value, status := ZeroNegative(s.status, value))
  }

  /** lda: A takes the operand byte; Z/N describe A; nothing else changes. */
  function Lda(s: State, mode: AddressingMode): (r: Result<State>)
    ensures r.Ok? <==> Operand(s, mode).Ok?
    ensures r.Ok? ==> r.value == s.(a := Operand(s, mode).value, status := r.value.status)
    ensures r.Ok? ==> ZeroNegativeOf(s.status, r.value.status, r.value.a)
  {
    var value :- Operand(s, mode);
    Ok(SetRegisterA(s, value))
  }

  /** ldx: X takes the operand byte; Z/N describe X; nothing else changes. */
  function Ldx(s: State, mode: AddressingMode): (r: Result<State>)
    ensures r.Ok? <==> Operand(s, mode).Ok?
    ensures r.Ok? ==> r.value == s.(x := Operand(s, mode).value, status := r.value.status)
    ensures r.Ok? ==> ZeroNegativeOf(s.status, r.value.status, r.value.x)
  {
    var data :- Operand(s, mode);
    Ok(s.(x := data, status := ZeroNegative(s.status, data)))
  }

  /** sta: A is stored at the effective address; no register or flag changes. */
  function Sta(s: State, mode: AddressingMode): (r: Result<State>)
    ensures r.Ok? <==> OperandAddress(s, mode).Ok? && OperandAddress(s, mode).value as int < MemorySize
    ensures r.Ok? ==> var addr := OperandAddress(s, mode).value;
      r.value == s.(mem := s.mem[addr := s.a])
  {
    var addr :- OperandAddress(s, mode);
    Write(s, addr, s.a)
  }

  /** The STX arm of the dispatcher: X is stored at the effective address. */
  function Stx(s: State, mode: AddressingMode): (r: Result<State>)
    ensures r.Ok? <==> OperandAddress(s, mode).Ok? && OperandAddress(s, mode).value as int < MemorySize
    ensures r.Ok? ==> var addr := OperandAddress(s, mode).value;
      r.value == s.(mem := s.mem[addr := s.x])
  {
    var addr :- OperandAddress(s, mode);
    Write(s, addr, s.x)
  }

  /** compare: only the status changes; C iff operand <= register, Z iff they
      are equal, N from their wrapping difference. */
  function Compare(s: State, mode: AddressingMode, register: uint8): (r: Result<State>)
    ensures r.Ok? <==> Operand(s, mode).Ok?
    ensures r.Ok? ==> r.value == s.(status := r.value.status)
    ensures r.Ok? ==> var data := Operand(s, mode).value;
      && (IsSet(r.value.status, Carry) <==> data <= register)
      && (IsSet(r.value.status, Zero) <==> data == register)
      && (IsSet(r.value.status, Negative) <==> WrappingSub8(register, data) >= 0x80)
      && r.value.status & 0x7C == s.status & 0x7C
  {
    var data :- Operand(s, mode);
    Ok(s.(status := CompareFlags(register, data, s.status)))
  }

  /** adc: A and the status become those of the addition of the operand and the carry. */
  function Adc(s: State, mode: AddressingMode): (r: Result<State>)
    ensures r.Ok? <==> Operand(s, mode).Ok?
    ensures r.Ok? ==> r.value == s.(a := r.value.a, status := r.value.status)
    ensures r.Ok? ==> Sum(r.value.a, r.value.status) == AddWithCarry(s.a, Operand(s, mode).value, s.status)
  {
    var value :- Operand(s, mode);
    var sum := AddWithCarry(s.a, value, s.status);
    Ok(s.(a := sum.value, status := sum.status))
  }

  /** dex: X decreases by one, wrapping from 0 to 0xFF; Z/N describe X. */
  function Dex(s: State): (r: State)
    ensures r == s.(x := r.x, status := r.status)
    ensures r.x as int == (s.x as int - 1) % 0x100
    ensures ZeroNegativeOf(s.status, r.status, r.x)
  {
    var x := WrappingSub8(s.x, 1);
    s.(x := x, status := ZeroNegative(s.status, x))
  }

  /** tax: X takes A; Z/N describe X. */
  function Tax(s: State): (r: State)
    ensures r == s.(x := s.a, status := r.status)
    ensures ZeroNegativeOf(s.status, r.status, r.x)
  {
    s.(x := s.a, status := ZeroNegative(s.status, s.a))
  }

  /** inx: X increases by one, wrapping from 0xFF to 0; Z/N describe X. */
  function Inx(s: State): (r: State)
    ensures r == s.(x := r.x, status := r.status)
    ensures r.x as int == (s.x as int + 1) % 0x100
    ensures ZeroNegativeOf(s.status, r.status, r.x)
  {
    var x := WrappingAdd8(s.x, 1);
    s.(x := x, status := ZeroNegative(s.status, x))
  }

  /** brk: sets bits 4 and 5 of the status; nothing else changes. */
  function Brk(s: State): (r: State)
    ensures r == s.(status := r.status)
    ensures IsSet(r.status, Break) && IsSet(r.status, Break2)
    ensures r.status & 0xCF == s.status & 0xCF
  {
    s.(status := s.status | (Break | Break2))
  }

  /** The JSR arm: push the address of the instruction's last byte (`pc + 2 - 1`,
      a non-wrapping addition), then jump to the word at the program counter,
      read after the push. */
  function Jsr(s: State): (r: Result<State>)
    ensures s.pc as int + 2 > 0xFFFF ==> r == Err(Overflow)
  {
    if s.pc as int + 2 > 0xFFFF then Err(Overflow)
    else
      var pushed := Push16(s, s.pc + 2 - 1);
      var target :- Read16(pushed, s.pc);
      Ok(pushed.(pc := target))
  }

  /** The BNE arm: when Z is clear, jump by the signed offset at the program
      counter, relative to the address after the offset byte. */
  function Bne(s: State): (r: Result<State>)
    ensures IsSet(s.status, Zero) ==> r == Ok(s)
  {
    if s.status & 0x02 == 0 then
      var jump :- Read(s, s.pc);
      Ok(s.(pc := WrappingAdd16(WrappingAdd16(s.pc, 1), SignExtend(jump))))
    else
      Ok(s)
  }

  // ---------------------------------------------------------------- the loop

  /** What one step of the loop, or a bounded run of it, comes to:
      `Continue` — the loop goes on from `next` (for `Run`: the fuel ran out);
      `Halted` — BRK returned from `run`; `Faulted` — the engine panicked. */
  datatype Outcome = Continue(next: State) | Halted(final: State) | Faulted(fault: Fault)

  function Continued(r: Result<State>): Outcome {
    match r
    case Ok(next) => Continue(next)
    case Err(f) => Faulted(f)
  }

  /** The `match code` of `run`. The program counter is already past the opcode.
      An opcode falls to `todo!()` exactly when the table has no entry for it. */
  function Execute(s: State, code: uint8, mode: AddressingMode): (r: Outcome)
    ensures r == Faulted(NotImplemented(code)) <==> Lookup(code).None?
  {
    match code
    case 0xA9 | 0xA5 | 0xB5 | 0xAD | 0xBD | 0xB9 | 0xA1 | 0xB1 => Continued(Lda(s, mode))
    case 0xA2 | 0xA6 | 0xB6 | 0xAE | 0xBE => Continued(Ldx(s, mode))
    case 0x85 | 0x95 | 0x8D | 0x9D | 0x99 | 0x81 | 0x91 => Continued(Sta(s, mode))
    case 0x86 | 0x96 | 0x8E => Continued(Stx(s, mode))
    case 0xE0 | 0xE4 | 0xEC => Continued(Compare(s, mode, s.x))
    case 0x20 => Continued(Jsr(s))
    case 0x69 | 0x65 | 0x75 | 0x6D | 0x7D | 0x79 | 0x61 | 0x71 => Continued(Adc(s, mode))
    case 0xD0 => Continued(Bne(s))
    case 0xCA => Continue(Dex(s))
    case 0xAA => Continue(Tax(s))
    case 0xE8 => Continue(Inx(s))
    case 0x00 => Halted(Brk(s))
    case _ => Faulted(NotImplemented(code))
  }

  /** The end of a loop iteration: an instruction that left the program counter
      at its post-fetch value is skipped over by `len - 1` more bytes (a
      non-wrapping addition). */
  function Advance(postFetch: uint16, after: State, len: nat): (r: Outcome)
    requires 1 <= len <= 3
    ensures after.pc != postFetch ==> r == Continue(after)
    ensures after.pc == postFetch && after.pc as int + len - 1 <= 0xFFFF ==>
      r == Continue(after.(pc := (after.pc as int + len - 1) as uint16))
    ensures after.pc == postFetch && after.pc as int + len - 1 > 0xFFFF ==> r == Faulted(Overflow)
  {
    if after.pc != postFetch then Continue(after)
    else if after.pc as int + (len - 1) > 0xFFFF then Faulted(Overflow)
    else Continue(after.(pc := after.pc + (len - 1) as uint16))
  }

  /** One iteration of the loop of `run`: fetch the opcode at the program
      counter, advance past it, look it up, execute it, then advance past the
      operand unless the instruction moved the program counter. The loop
      stops exactly at BRK, and the table never sends it to `todo!()`. */
  function Step(s: State): (r: Outcome)
    ensures r.Halted? <==> s.pc as int < MemorySize && s.mem[s.pc] == 0x00
    ensures !r.Faulted? ==> s.pc as int < MemorySize && Lookup(s.mem[s.pc]).Some?
    ensures !(r.Faulted? && r.fault.NotImplemented?)
  {
    match Read(s, s.pc)
    case Err(f) => Faulted(f)
    case Ok(code) =>
      var fetched := s.(pc := s.pc + 1);
      match Lookup(code)
      case None => Faulted(UnknownOpcode(code))
      case Some(opcode) =>
        match Execute(fetched, code, opcode.mode)
        case Continue(after) => Advance(fetched.pc, after, opcode.len)
        case other => other
  }

  /** At most `fuel` iterations of a loop whose body is `step`: it stops at the
      first outcome that is not `Continue`, and otherwise after `fuel` rounds. */
  function Iterate(step: State -> Outcome, s: State, fuel: nat): Outcome
    decreases fuel
  {
    if fuel == 0 then Continue(s)
    else
      match step(s)
      case Continue(next) => Iterate(step, next, fuel - 1)
      case other => other
  }

  /** A loop whose body never ends in `todo!()` never ends there after any
      number of rounds either. */
  lemma {:induction false} IterateNeverNotImplemented(step: State -> Outcome, s: State, fuel: nat)
    requires forall t :: !(step(t).Faulted? && step(t).fault.NotImplemented?)
    ensures var r := Iterate(step, s, fuel); !(r.Faulted? && r.fault.NotImplemented?)
    decreases fuel
  {
    if fuel > 0 && step(s).Continue? {
      IterateNeverNotImplemented(step, step(s).next, fuel - 1);
    }
  }

  /** At most `fuel` iterations of the loop of `run`; it never ends in
      `todo!()`. */
  function Run(s: State, fuel: nat): (r: Outcome)
    ensures !(r.Faulted? && r.fault.NotImplemented?)
  {
    IterateNeverNotImplemented(Step, s, fuel);
    Iterate(Step, s, fuel)
  }

  /** load_and_run, with at most `fuel` iterations of the loop. */
  function LoadAndRun(s: State, program: seq<uint8>, fuel: nat): (r: Outcome)
    ensures ProgramStart as int + |program| > MemorySize ==> r.Faulted?
  {
    match Load(s, program)
    case Err(f) => Faulted(f)
    case Ok(loaded) => Run(Reset(loaded), fuel)
  }
}
