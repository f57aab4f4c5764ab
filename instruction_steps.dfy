/** One loop iteration for each instruction the tests of src/cpu.rs use, with
    its operands in memory: a run of `m + 1` iterations from such a state is a
    run of `m` iterations from the whole new state, written out. Together
    with `MachineProps.BneStep` and `MachineProps.BrkStep` these give the
    meaning of every instruction in those programs. */
module InstructionSteps {
  import opened Bytes
  import opened Results
  import opened Flags
  import opened Opcodes
  import opened Machine
  import RunProps
  import MachineProps

  /** A step fetches the opcode, looks it up, executes it with the table's
      mode and advances by the table's length; when that continues to
      `next`, a run of `m + 1` iterations is one of `m` from `next`. */
  lemma StepExecutes(s: State, op: OpCode, next: State, m: nat)
    requires s.pc as int < MemorySize && Lookup(s.mem[s.pc]) == Some(op)
    requires match Execute(s.(pc := s.pc + 1), op.code, op.mode)
      case Continue(after) => Advance(s.pc + 1, after, op.len) == Continue(next)
      case _ => false
    ensures Run(s, m + 1) == Run(next, m)
  {
    assert Step(s) == Continue(next);
    RunProps.IterateStep(Step, s, next, m);
  }

  /** LDA #imm (0xA9): A takes the byte after the opcode. */
  lemma LdaImmediateStep(s: State, next: State, m: nat)
    requires s.pc as int + 1 < MemorySize && s.mem[s.pc] == 0xA9
    requires var v := s.mem[s.pc as int + 1];
      next == s.(pc := s.pc + 2, a := v, status := ZeroNegative(s.status, v))
    ensures Run(s, m + 1) == Run(next, m)
  {
    StepExecutes(s, OpCode(0xA9, "LDA", 2, Immediate), next, m);
  }

  /** LDA zp (0xA5): A takes the zero-page byte the operand names. */
  lemma LdaZeroPageStep(s: State, next: State, m: nat)
    requires s.pc as int + 1 < MemorySize && s.mem[s.pc] == 0xA5
    requires var v := s.mem[s.mem[s.pc as int + 1]];
      next == s.(pc := s.pc + 2, a := v, status := ZeroNegative(s.status, v))
    ensures Run(s, m + 1) == Run(next, m)
  {
    StepExecutes(s, OpCode(0xA5, "LDA", 2, ZeroPage), next, m);
  }

  /** LDX #imm (0xA2): X takes the byte after the opcode. */
  lemma LdxImmediateStep(s: State, next: State, m: nat)
    requires s.pc as int + 1 < MemorySize && s.mem[s.pc] == 0xA2
    requires var v := s.mem[s.pc as int + 1];
      next == s.(pc := s.pc + 2, x := v, status := ZeroNegative(s.status, v))
    ensures Run(s, m + 1) == Run(next, m)
  {
    StepExecutes(s, OpCode(0xA2, "LDX", 2, Immediate), next, m);
  }

  /** STA zp (0x85): A is stored at the zero-page address the operand names. */
  lemma StaZeroPageStep(s: State, next: State, m: nat)
    requires s.pc as int + 1 < MemorySize && s.mem[s.pc] == 0x85
    requires next == s.(pc := s.pc + 2, mem := s.mem[s.mem[s.pc as int + 1] := s.a])
    ensures Run(s, m + 1) == Run(next, m)
  {
    StepExecutes(s, OpCode(0x85, "STA", 2, ZeroPage), next, m);
  }

  /** STA abs (0x8D): A is stored at the little-endian address after the
      opcode. */
  lemma StaAbsoluteStep(s: State, next: State, m: nat)
    requires s.pc as int + 2 < MemorySize && s.mem[s.pc] == 0x8D
    requires s.mem[s.pc as int + 1] as int + 0x100 * s.mem[s.pc as int + 2] as int < MemorySize
    requires var addr := s.mem[s.pc as int + 1] as int + 0x100 * s.mem[s.pc as int + 2] as int;
      next == s.(pc := s.pc + 3, mem := s.mem[addr := s.a])
    ensures Run(s, m + 1) == Run(next, m)
  {
    StepExecutes(s, OpCode(0x8D, "STA", 3, Absolute), next, m);
  }

  /** STX abs (0x8E): X is stored at the little-endian address after the
      opcode. */
  lemma StxAbsoluteStep(s: State, next: State, m: nat)
    requires s.pc as int + 2 < MemorySize && s.mem[s.pc] == 0x8E
    requires s.mem[s.pc as int + 1] as int + 0x100 * s.mem[s.pc as int + 2] as int < MemorySize
    requires var addr := s.mem[s.pc as int + 1] as int + 0x100 * s.mem[s.pc as int + 2] as int;
      next == s.(pc := s.pc + 3, mem := s.mem[addr := s.x])
    ensures Run(s, m + 1) == Run(next, m)
  {
    StepExecutes(s, OpCode(0x8E, "STX", 3, Absolute), next, m);
  }

  /** CPX #imm (0xE0): only the status changes, to the flags of comparing X
      with the byte after the opcode. */
  lemma CpxImmediateStep(s: State, next: State, m: nat)
    requires s.pc as int + 1 < MemorySize && s.mem[s.pc] == 0xE0
    requires next == s.(pc := s.pc + 2, status := CompareFlags(s.x, s.mem[s.pc as int + 1], s.status))
    ensures Run(s, m + 1) == Run(next, m)
  {
    StepExecutes(s, OpCode(0xE0, "CPX", 2, Immediate), next, m);
  }

  /** ADC #imm (0x69): A and the status become those of adding the byte after
      the opcode and the carry. */
  lemma AdcImmediateStep(s: State, next: State, m: nat)
    requires s.pc as int + 1 < MemorySize && s.mem[s.pc] == 0x69
    requires var sum := AddWithCarry(s.a, s.mem[s.pc as int + 1], s.status);
      next == s.(pc := s.pc + 2, a := sum.value, status := sum.status)
    ensures Run(s, m + 1) == Run(next, m)
  {
    StepExecutes(s, OpCode(0x69, "ADC", 2, Immediate), next, m);
  }

  /** ADC zp (0x65): the same with the zero-page byte the operand names. */
  lemma AdcZeroPageStep(s: State, next: State, m: nat)
    requires s.pc as int + 1 < MemorySize && s.mem[s.pc] == 0x65
    requires var sum := AddWithCarry(s.a, s.mem[s.mem[s.pc as int + 1]], s.status);
      next == s.(pc := s.pc + 2, a := sum.value, status := sum.status)
    ensures Run(s, m + 1) == Run(next, m)
  {
    StepExecutes(s, OpCode(0x65, "ADC", 2, ZeroPage), next, m);
  }

  /** TAX (0xAA): X takes A. */
  lemma TaxStep(s: State, next: State, m: nat)
    requires s.pc as int < MemorySize && s.mem[s.pc] == 0xAA
    requires next == s.(pc := s.pc + 1, x := s.a, status := ZeroNegative(s.status, s.a))
    ensures Run(s, m + 1) == Run(next, m)
  {
    StepExecutes(s, OpCode(0xAA, "TAX", 1, NoneAddressing), next, m);
  }

  /** INX (0xE8): X goes up by one, wrapping. */
  lemma InxStep(s: State, next: State, m: nat)
    requires s.pc as int < MemorySize && s.mem[s.pc] == 0xE8
    requires var x := WrappingAdd8(s.x, 1);
      next == s.(pc := s.pc + 1, x := x, status := ZeroNegative(s.status, x))
    ensures Run(s, m + 1) == Run(next, m)
  {
    StepExecutes(s, OpCode(0xE8, "INX", 1, NoneAddressing), next, m);
  }

  /** DEX (0xCA): X goes down by one, wrapping. */
  lemma DexStep(s: State, next: State, m: nat)
    requires s.pc as int < MemorySize && s.mem[s.pc] == 0xCA
    requires var x := WrappingSub8(s.x, 1);
      next == s.(pc := s.pc + 1, x := x, status := ZeroNegative(s.status, x))
    ensures Run(s, m + 1) == Run(next, m)
  {
    StepExecutes(s, OpCode(0xCA, "DEX", 1, NoneAddressing), next, m);
  }

  /** BNE (0xD0) with Z set: not taken, the run goes on after the offset
      byte. */
  lemma BneNotTakenStep(s: State, next: State, m: nat)
    requires s.pc as int + 1 < MemorySize && s.mem[s.pc] == 0xD0 && IsSet(s.status, Zero)
    requires next == s.(pc := s.pc + 2)
    ensures Run(s, m + 1) == Run(next, m)
  {
    MachineProps.BneStep(s);
    RunProps.IterateStep(Step, s, next, m);
  }

  /** BNE (0xD0) with Z clear and a target other than the offset byte: the run
      goes on at the target. */
  lemma BneTakenStep(s: State, next: State, m: nat)
    requires s.pc as int + 1 < MemorySize && s.mem[s.pc] == 0xD0 && !IsSet(s.status, Zero)
    requires MachineProps.BranchTarget(s) as int != s.pc as int + 1
    requires next == s.(pc := MachineProps.BranchTarget(s))
    ensures Run(s, m + 1) == Run(next, m)
  {
    MachineProps.BneStep(s);
    RunProps.IterateStep(Step, s, next, m);
  }

  /** BRK (0x00): the run halts with bits 4 and 5 of the status set and the
      program counter one past the BRK. */
  lemma BrkHalts(s: State, final: State, m: nat)
    requires s.pc as int < MemorySize && s.mem[s.pc] == 0x00
    requires final == s.(pc := s.pc + 1, status := s.status | 0x30)
    ensures Run(s, m + 1) == Halted(final)
  {
    MachineProps.BrkStep(s);
  }
}
