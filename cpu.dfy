/** The `CPU` struct of src/cpu.rs and its methods, in place: the registers
    are fields, the 0xFFFF-byte memory is an array, and every method updates
    them as the Rust method does. `Model()` reads the object as a
    `Machine.State`, and each method is proved to take the object from
    `old(Model())` to what the `Machine` function of the same name gives, so
    every property proved about those functions holds of the object. A method
    that panics in Rust returns the `Fault` instead; what the object holds
    after a fault is left unspecified, since the Rust process is gone. */
module Cpu {
  import opened Bytes
  import opened Results
  import opened Flags
  import opened Opcodes
  import opened Machine
  import RunProps

  /** How a step or a bounded run of the loop ends: still running, stopped by
      BRK (`run` returns), or panicked. */
  datatype Signal = Running | Stopped | Panicked(fault: Fault)

  /** How an instruction that can panic ends the iteration. */
  function Signalled(r: Result<()>): Signal {
    match r
    case Ok(_) => Running
    case Err(f) => Panicked(f)
  }

  class CPU {
    var registerA: uint8
    var registerX: uint8
    var registerY: uint8
    var status: bv8
    var programCounter: uint16
    var stackPointer: uint8
    const memory: array<uint8>

    ghost predicate Valid() {
      memory.Length == MemorySize
    }

    /** The object as a machine state. */
    ghost function Model(): State
      reads this, memory
      requires Valid()
    {
      State(registerA, registerX, registerY, status, programCounter, stackPointer, memory[..])
    }

    /** After an operation that can panic: the object holds `spec`'s state
        when it succeeds, and the method returned `spec`'s fault otherwise. */
    ghost predicate Became(r: Result<()>, spec: Result<State>)
      reads this, memory
      requires Valid()
    {
      match spec
      case Ok(next) => r.Ok? && Model() == next
      case Err(f) => r == Err(f)
    }

    /** After a step or a run: the signal and the object agree with `spec`. */
    ghost predicate Reached(r: Signal, spec: Outcome)
      reads this, memory
      requires Valid()
    {
      match spec
      case Continue(next) => r == Running && Model() == next
      case Halted(final) => r == Stopped && Model() == final
      case Faulted(f) => r == Panicked(f)
    }

    /** CPU::new */
    constructor ()
      ensures Valid() && Model() == New()
      ensures fresh(memory)
    {
      registerA := 0;
      registerX := 0;
      registerY := 0;
      status := 0;
      programCounter := 0;
      stackPointer := StackReset;
      memory := new uint8[MemorySize](_ => 0);
    }

    // -------------------------------------------------------------- memory

    /** mem_read */
    method MemRead(addr: uint16) returns (r: Result<uint8>)
      requires Valid()
      ensures r == Read(Model(), addr)
    {
      if addr as int < memory.Length {
        r := Ok(memory[addr]);
      } else {
        r := Err(OutOfBounds(addr as int));
      }
    }

    /** mem_write */
    method MemWrite(addr: uint16, data: uint8) returns (r: Result<()>)
      requires Valid()
      modifies memory
      ensures Became(r, Write(old(Model()), addr, data))
    {
      if addr as int < memory.Length {
        memory[addr] := data;
        r := Ok(());
      } else {
        r := Err(OutOfBounds(addr as int));
      }
    }

    /** mem_read_u16 */
    method MemReadU16(pos: uint16) returns (r: Result<uint16>)
      requires Valid()
      ensures r == Read16(Model(), pos)
    {
      var lo :- MemRead(pos);
      var hi :- MemRead(pos + 1);
      r := Ok(Word16(lo, hi));
    }

    /** mem_write_u16 */
    method MemWriteU16(pos: uint16, data: uint16) returns (r: Result<()>)
      requires Valid()
      modifies memory
      ensures Became(r, Write16(old(Model()), pos, data))
    {
      var hi := HighByte(data);
      var lo := LowByte(data);
      r := MemWrite(pos, lo);
      if r.Err? {
        return;
      }
      r := MemWrite(pos + 1, hi);
    }

    // -------------------------------------------------------------- addressing

    /** get_operand_address: reads memory and the registers, changes nothing. */
    method GetOperandAddress(mode: AddressingMode) returns (r: Result<uint16>)
      requires Valid()
      ensures r == OperandAddress(Model(), mode)
    {
      match mode {
        case Immediate =>
          r := Ok(programCounter);
        case ZeroPage =>
          var pos :- MemRead(programCounter);
          r := Ok(pos as uint16);
        case Absolute =>
          r := MemReadU16(programCounter);
        case ZeroPageX =>
          var pos :- MemRead(programCounter);
          r := Ok(WrappingAdd8(pos, registerX) as uint16);
        case ZeroPageY =>
          var pos :- MemRead(programCounter);
          r := Ok(WrappingAdd8(pos, registerY) as uint16);
        case AbsoluteX =>
          var base :- MemReadU16(programCounter);
          r := Ok(WrappingAdd16(base, registerX as uint16));
        case AbsoluteY =>
          var base :- MemReadU16(programCounter);
          r := Ok(WrappingAdd16(base, registerY as uint16));
        case IndirectX =>
          var base :- MemRead(programCounter);
          var ptr := WrappingAdd8(base, registerX);
          var lo := MemRead(ptr as uint16);
          var hi := MemRead(WrappingAdd8(ptr, 1) as uint16);
          r := Ok(Word16(lo.value, hi.value));
        case IndirectY =>
          var base :- MemRead(programCounter);
          var lo := MemRead(base as uint16);
          var hi := MemRead(WrappingAdd8(base, 1) as uint16);
          r := Ok(WrappingAdd16(Word16(lo.value, hi.value), registerY as uint16));
        case NoneAddressing =>
          r := Err(NoAddress);
      }
    }

    // -------------------------------------------------------------- stack

    /** stack_pop */
    method StackPop() returns (data: uint8)
      requires Valid()
      modifies this
      ensures Pop(old(Model())) == Popped(Model(), data)
    {
      stackPointer := WrappingAdd8(stackPointer, 1);
      var read := MemRead(StackPage + stackPointer as uint16);
      data := read.value;
    }

    /** stack_push */
    method StackPush(data: uint8)
      requires Valid()
      modifies this, memory
      ensures Model() == Push(old(Model()), data)
    {
      var _ := MemWrite(StackPage + stackPointer as uint16, data);
      stackPointer := WrappingSub8(stackPointer, 1);
    }

    /** stack_push_u16 */
    method StackPushU16(data: uint16)
      requires Valid()
      modifies this, memory
      ensures Model() == Push16(old(Model()), data)
    {
      var hi := HighByte(data);
      var lo := LowByte(data);
      StackPush(hi);
      StackPush(lo);
    }

    /** stack_pop_u16 */
    method StackPopU16() returns (data: uint16)
      requires Valid()
      modifies this
      ensures Pop16(old(Model())) == Popped(Model(), data)
    {
      var lo := StackPop();
      var hi := StackPop();
      data := Word16(lo, hi);
    }

    // -------------------------------------------------------------- reset and load

    /** reset */
    method Reset()
      requires Valid()
      modifies this
      ensures Model() == Machine.Reset(old(Model()))
    {
      registerA := 0;
      registerX := 0;
      registerY := 0;
      status := 0;
      stackPointer := StackReset;
      var start := MemReadU16(ResetVector);
      programCounter := start.value;
    }

    /** load: the slice copy to 0x8000 onward (which panics when the program
        runs past the end of memory), then the reset vector. */
    method Load(program: seq<uint8>) returns (r: Result<()>)
      requires Valid()
      modifies memory
      ensures Became(r, Machine.Load(old(Model()), program))
    {
      var end := ProgramStart as int + |program|;
      if end > memory.Length {
        return Err(OutOfBounds(end));
      }
      forall i | 0 <= i < |program| {
        memory[ProgramStart as int + i] := program[i];
      }
      assert memory[..] == old(memory[..])[..ProgramStart] + program + old(memory[..])[end..];
      r := MemWriteU16(ResetVector, ProgramStart);
    }

    // -------------------------------------------------------------- flags and arithmetic

    /** update_zero_and_negative_flags; each `Assign` is one of the
        `status | FLAG` / `status & !FLAG` choices of the Rust method. */
    method UpdateZeroAndNegativeFlags(result: uint8)
      requires Valid()
      modifies this
      ensures Model() == old(Model()).(status := ZeroNegative(old(status), result))
    {
      status := Assign(status, Zero, result == 0);
      status := Assign(status, Negative, SignBit(result));
    }

    /** set_register_a */
    method SetRegisterA(value: uint8)
      requires Valid()
      modifies this
      ensures Model() == Machine.SetRegisterA(old(Model()), value)
    {
      registerA := value;
      UpdateZeroAndNegativeFlags(registerA);
    }

    /** add_to_register_a */
    method AddToRegisterA(data: uint8)
      requires Valid()
      modifies this
      ensures var sum := AddWithCarry(old(registerA), data, old(status));
        Model() == old(Model()).(a := sum.value, status := sum.status)
    {
      var sum := registerA as int + data as int + CarryIn(status);
      var carry := sum > 0xFF;
      status := Assign(status, Carry, carry);
      var result := (sum % 0x100) as uint8;
      status := Assign(status, Flags.Overflow, OverflowRule(registerA, data, result));
      SetRegisterA(result);
    }

    /** compare */
    method Compare(mode: AddressingMode, compareWith: uint8) returns (r: Result<()>)
      requires Valid()
      modifies this
      ensures Became(r, Machine.Compare(old(Model()), mode, compareWith))
    {
      var addr :- GetOperandAddress(mode);
      var data :- MemRead(addr);
      status := Assign(status, Carry, data <= compareWith);
      UpdateZeroAndNegativeFlags(WrappingSub8(compareWith, data));
      r := Ok(());
    }

    // -------------------------------------------------------------- instructions

    /** lda */
    method Lda(mode: AddressingMode) returns (r: Result<()>)
      requires Valid()
      modifies this
      ensures Became(r, Machine.Lda(old(Model()), mode))
    {
      var addr :- GetOperandAddress(mode);
      var value :- MemRead(addr);
      SetRegisterA(value);
      r := Ok(());
    }

    /** ldx */
    method Ldx(mode: AddressingMode) returns (r: Result<()>)
      requires Valid()
      modifies this
      ensures Became(r, Machine.Ldx(old(Model()), mode))
    {
      var addr :- GetOperandAddress(mode);
      var data :- MemRead(addr);
      registerX := data;
      UpdateZeroAndNegativeFlags(registerX);
      r := Ok(());
    }

    /** adc */
    method Adc(mode: AddressingMode) returns (r: Result<()>)
      requires Valid()
      modifies this
      ensures Became(r, Machine.Adc(old(Model()), mode))
    {
      var addr :- GetOperandAddress(mode);
      var value :- MemRead(addr);
      AddToRegisterA(value);
      r := Ok(());
    }

    /** dex */
    method Dex()
      requires Valid()
      modifies this
      ensures Model() == Machine.Dex(old(Model()))
    {
      registerX := WrappingSub8(registerX, 1);
      UpdateZeroAndNegativeFlags(registerX);
    }

    /** sta */
    method Sta(mode: AddressingMode) returns (r: Result<()>)
      requires Valid()
      modifies memory
      ensures Became(r, Machine.Sta(old(Model()), mode))
    {
      var addr :- GetOperandAddress(mode);
      r := MemWrite(addr, registerA);
    }

    /** The STX arm of `run`. */
    method Stx(mode: AddressingMode) returns (r: Result<()>)
      requires Valid()
      modifies memory
      ensures Became(r, Machine.Stx(old(Model()), mode))
    {
      var addr :- GetOperandAddress(mode);
      r := MemWrite(addr, registerX);
    }

    /** tax */
    method Tax()
      requires Valid()
      modifies this
      ensures Model() == Machine.Tax(old(Model()))
    {
      registerX := registerA;
      UpdateZeroAndNegativeFlags(registerX);
    }

    /** inx */
    method Inx()
      requires Valid()
      modifies this
      ensures Model() == Machine.Inx(old(Model()))
    {
      registerX := WrappingAdd8(registerX, 1);
      UpdateZeroAndNegativeFlags(registerX);
    }

    /** brk */
    method Brk()
      requires Valid()
      modifies this
      ensures Model() == Machine.Brk(old(Model()))
    {
      status := status | 0x30;
    }

    /** The JSR arm of `run`; `program_counter + 2` is a non-wrapping addition. */
    method Jsr() returns (r: Result<()>)
      requires Valid()
      modifies this, memory
      ensures Became(r, Machine.Jsr(old(Model())))
    {
      if programCounter as int + 2 > 0xFFFF {
        return Err(Overflow);
      }
      StackPushU16(programCounter + 2 - 1);
      // the guard above keeps both bytes of the target inside memory
      var targetAddress := MemReadU16(programCounter);
      programCounter := targetAddress.value;
      r := Ok(());
    }

    /** The BNE arm of `run`. */
    method Bne() returns (r: Result<()>)
      requires Valid()
      modifies this
      ensures Became(r, Machine.Bne(old(Model())))
    {
      if status & 0x02 == 0 {
        var jump :- MemRead(programCounter);
        programCounter := WrappingAdd16(WrappingAdd16(programCounter, 1), SignExtend(jump));
      }
      r := Ok(());
    }

    // -------------------------------------------------------------- the loop

    /** The `match code` of `run`, with the program counter already past the
        opcode. The arms that resolve an operand are in `ExecuteOperand`. */
    method ExecuteInstruction(code: uint8, mode: AddressingMode) returns (r: Signal)
      requires Valid()
      modifies this, memory
      ensures Reached(r, Execute(old(Model()), code, mode))
    {
      match code {
        case 0xA9 | 0xA5 | 0xB5 | 0xAD | 0xBD | 0xB9 | 0xA1 | 0xB1 | 0xA2 | 0xA6 | 0xB6 | 0xAE | 0xBE
           | 0x85 | 0x95 | 0x8D | 0x9D | 0x99 | 0x81 | 0x91 | 0x86 | 0x96 | 0x8E | 0xE0 | 0xE4 | 0xEC
           | 0x69 | 0x65 | 0x75 | 0x6D | 0x7D | 0x79 | 0x61 | 0x71 =>
          r := ExecuteOperand(code, mode);
        case 0x20 =>
          var done := Jsr();
          r := Signalled(done);
        case 0xD0 =>
          var done := Bne();
          r := Signalled(done);
        case 0xCA =>
          Dex();
          r := Running;
        case 0xAA =>
          Tax();
          r := Running;
        case 0xE8 =>
          Inx();
          r := Running;
        case 0x00 =>
          Brk();
          r := Stopped;
        case _ =>
          r := Panicked(NotImplemented(code));
      }
    }

    /** The arms of the `match code` of `run` that resolve an operand: LDA,
        LDX, STA, STX, CPX and ADC. */
    method ExecuteOperand(code: uint8, mode: AddressingMode) returns (r: Signal)
      requires Valid()
      requires code in {0xA9, 0xA5, 0xB5, 0xAD, 0xBD, 0xB9, 0xA1, 0xB1, 0xA2, 0xA6, 0xB6, 0xAE, 0xBE,
                        0x85, 0x95, 0x8D, 0x9D, 0x99, 0x81, 0x91, 0x86, 0x96, 0x8E, 0xE0, 0xE4, 0xEC,
                        0x69, 0x65, 0x75, 0x6D, 0x7D, 0x79, 0x61, 0x71}
      modifies this, memory
      ensures Reached(r, Execute(old(Model()), code, mode))
    {
      var done: Result<()>;
      if code in {0xA9, 0xA5, 0xB5, 0xAD, 0xBD, 0xB9, 0xA1, 0xB1} {
        done := Lda(mode);
      } else if code in {0xA2, 0xA6, 0xB6, 0xAE, 0xBE} {
        done := Ldx(mode);
      } else if code in {0x85, 0x95, 0x8D, 0x9D, 0x99, 0x81, 0x91} {
        done := Sta(mode);
      } else if code in {0x86, 0x96, 0x8E} {
        done := Stx(mode);
      } else if code in {0xE0, 0xE4, 0xEC} {
        done := Compare(mode, registerX);
      } else {
        done := Adc(mode);
      }
      r := Signalled(done);
    }

    /** One iteration of the loop of `run`. */
    method Step() returns (r: Signal)
      requires Valid()
      modifies this, memory
      ensures Reached(r, Machine.Step(old(Model())))
    {
      var fetched := MemRead(programCounter);
      if fetched.Err? {
        return Panicked(fetched.fault);
      }
      var code := fetched.value;
      programCounter := programCounter + 1;
      var programCounterState := programCounter;
      var opcode := Lookup(code);
      if opcode.None? {
        return Panicked(UnknownOpcode(code));
      }
      r := ExecuteInstruction(code, opcode.value.mode);
      if r == Running && programCounterState == programCounter {
        if programCounter as int + (opcode.value.len - 1) > 0xFFFF {
          return Panicked(Overflow);
        }
        programCounter := programCounter + (opcode.value.len - 1) as uint16;
      }
    }

    /** One pass of the loop of `run`, when the bounded run from here, with
        `left` more passes allowed, comes to `goal`: the pass either stops
        the run with `goal`, or leaves the object where the rest of the
        bounded run, one pass shorter, comes to `goal`. */
    method RunOnce(left: nat, ghost goal: Outcome) returns (r: Signal)
      requires Valid() && left > 0
      requires goal == Machine.Run(Model(), left)
      modifies this, memory
      ensures r != Running ==> Reached(r, goal)
      ensures r == Running ==> goal == Machine.Run(Model(), left - 1)
    {
      ghost var before := Model();
      r := Step();
      if r != Running {
        RunProps.RunStopsInFirstStep(before, left);
      } else {
        RunProps.RunContinues(before, Model(), left);
      }
    }

    /** run, stopped after at most `fuel` iterations of its loop. */
    method Run(fuel: nat) returns (r: Signal)
      requires Valid()
      modifies this, memory
      ensures Reached(r, Machine.Run(old(Model()), fuel))
    {
      ghost var goal := Machine.Run(Model(), fuel);
      var left := fuel;
      r := Running;
      while left > 0
        invariant r == Running
        invariant goal == Machine.Run(Model(), left)
      {
        r := RunOnce(left, goal);
        if r != Running {
          return;
        }
        left := left - 1;
      }
      RunProps.RunNoFuel(Model());
    }

    /** load_and_run, with at most `fuel` iterations of the loop. */
    method LoadAndRun(program: seq<uint8>, fuel: nat) returns (r: Signal)
      requires Valid()
      modifies this, memory
      ensures Reached(r, Machine.LoadAndRun(old(Model()), program, fuel))
    {
      var loaded := Load(program);
      if loaded.Err? {
        return Panicked(loaded.fault);
      }
      Reset();
      r := Run(fuel);
    }
  }
}
