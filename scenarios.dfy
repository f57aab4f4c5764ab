/** The unit tests of src/cpu.rs:375-487 as lemmas. Each test builds a fresh
    machine, calls load_and_run on a small program and asserts the final
    registers, flags and program counter.

    Every lemma here is stated for an arbitrary machine, not only a fresh one:
    reset clears the registers and status, so only the memory outside the
    program matters, and where it does (a byte the program reads, or the zero
    byte after a program that does not end in BRK) the lemma requires it.
    A `...Run` lemma gives the exact state the run halts in, for any fuel at
    least the number of iterations the program takes (`m` more than that);
    the lemma named after the test states what the test checks. */
module Scenarios {
  import opened Bytes
  import opened Results
  import opened Flags
  import opened Machine
  import RunProps
  import MachineProps
  import opened InstructionSteps

  // ---------------------------------------------------------------- helpers

  /** `program` sits at 0x8000. */
  predicate CodeAt(s: State, program: seq<uint8>) {
    && ProgramStart as int + |program| <= MemorySize
    && forall i :: 0 <= i < |program| ==> s.mem[ProgramStart as int + i] == program[i]
  }

  /** The registers as reset leaves them: the program counter at 0x8000,
      A, X, Y and the status cleared, the stack pointer at 0xFD. */
  predicate Cleared(s: State) {
    s.pc == ProgramStart && s.a == 0 && s.x == 0 && s.y == 0 && s.status == 0 && s.sp == StackReset
  }

  /** The state in which the loop of load_and_run starts: `program` at 0x8000
      and the registers cleared. */
  predicate Ready(s: State, program: seq<uint8>) {
    CodeAt(s, program) && Cleared(s)
  }

  /** load followed by reset leaves the machine ready to run the program and
      changes no byte outside the program and the reset vector. */
  lemma LoadResetReady(s: State, program: seq<uint8>)
    requires ProgramStart as int + |program| <= ResetVector as int
    ensures Load(s, program).Ok?
    ensures Ready(Reset(Load(s, program).value), program)
    ensures forall i :: 0 <= i < MemorySize && !(ProgramStart as int <= i < ResetVector as int + 2) ==>
      Reset(Load(s, program).value).mem[i] == s.mem[i]
  {
  }

  /** The machine `load_and_run` starts from: load and then reset leave it
      ready on the program, every byte outside the program and the reset
      vector is as before, and `load_and_run` is the loop run from it. */
  lemma Started(s0: State, program: seq<uint8>, fuel: nat) returns (s: State)
    requires ProgramStart as int + |program| <= ResetVector as int
    ensures s == Reset(Load(s0, program).value)
    ensures Ready(s, program)
    ensures forall i :: 0 <= i < MemorySize && !(ProgramStart as int <= i < ResetVector as int + 2) ==> s.mem[i] == s0.mem[i]
    ensures LoadAndRun(s0, program, fuel) == Run(s, fuel)
  {
    LoadResetReady(s0, program);
    s := Reset(Load(s0, program).value);
  }


  // ---------------------------------------------------------------- LDA, TAX, INX

  const LdaImmediateProgram: seq<uint8> := [0xA9, 0x05, 0x00]

  /** The bytes of `LdaImmediateProgram`, one by one. */
  lemma LdaImmediateLoaded(s: State)
    requires CodeAt(s, LdaImmediateProgram)
    ensures s.mem[0x8000] == 0xA9 && s.mem[0x8001] == 0x05 && s.mem[0x8002] == 0x00
  {
    var p := LdaImmediateProgram;
    assert s.mem[0x8000] == p[0] && s.mem[0x8001] == p[1] && s.mem[0x8002] == p[2];
  }

  lemma LdaImmediateRun(s: State, m: nat)
    requires Cleared(s)
    requires s.mem[0x8000] == 0xA9 && s.mem[0x8001] == 0x05 && s.mem[0x8002] == 0x00
    ensures Run(s, m + 2) == Halted(s.(pc := 0x8003, a := 0x05, status := 0x30))
  {
    var s1 := s.(pc := 0x8002, a := 0x05);
    LdaImmediateStep(s, s1, m + 1);
    BrkHalts(s1, s.(pc := 0x8003, a := 0x05, status := 0x30), m);
  }

  /** test_0xa9_lda_immediate_load_data: LDA #$05; BRK loads 5 with Z and N
      clear. */
  lemma LdaImmediate(s0: State, fuel: nat)
    requires fuel >= 2
    ensures var r := LoadAndRun(s0, LdaImmediateProgram, fuel);
      && r.Halted? && r.final.a == 0x05
      && !IsSet(r.final.status, Zero) && !IsSet(r.final.status, Negative)
  {
    var s := Started(s0, LdaImmediateProgram, fuel);
    LdaImmediateLoaded(s);
    LdaImmediateRun(s, fuel - 2);
  }

  const LdaZeroProgram: seq<uint8> := [0xA9, 0x00, 0x00]

  /** The bytes of `LdaZeroProgram`, one by one. */
  lemma LdaZeroLoaded(s: State)
    requires CodeAt(s, LdaZeroProgram)
    ensures s.mem[0x8000] == 0xA9 && s.mem[0x8001] == 0x00 && s.mem[0x8002] == 0x00
  {
    var p := LdaZeroProgram;
    assert s.mem[0x8000] == p[0] && s.mem[0x8001] == p[1] && s.mem[0x8002] == p[2];
  }

  lemma LdaZeroRun(s: State, m: nat)
    requires Cleared(s)
    requires s.mem[0x8000] == 0xA9 && s.mem[0x8001] == 0x00 && s.mem[0x8002] == 0x00
    ensures Run(s, m + 2) == Halted(s.(pc := 0x8003, status := 0x32))
  {
    var s1 := s.(pc := 0x8002, status := 0x02);
    LdaImmediateStep(s, s1, m + 1);
    BrkHalts(s1, s.(pc := 0x8003, status := 0x32), m);
  }

  /** test_0xa9_lda_zero_flag: LDA #$00; BRK sets Z. */
  lemma LdaZeroFlag(s0: State, fuel: nat)
    requires fuel >= 2
    ensures var r := LoadAndRun(s0, LdaZeroProgram, fuel);
      r.Halted? && IsSet(r.final.status, Zero)
  {
    var s := Started(s0, LdaZeroProgram, fuel);
    LdaZeroLoaded(s);
    LdaZeroRun(s, fuel - 2);
  }

  const TaxProgram: seq<uint8> := [0xA9, 0x0A, 0xAA, 0x00]

  /** The bytes of `TaxProgram`, one by one. */
  lemma TaxLoaded(s: State)
    requires CodeAt(s, TaxProgram)
    ensures s.mem[0x8000] == 0xA9 && s.mem[0x8001] == 0x0A && s.mem[0x8002] == 0xAA && s.mem[0x8003] == 0x00
  {
    var p := TaxProgram;
    assert s.mem[0x8000] == p[0] && s.mem[0x8001] == p[1] && s.mem[0x8002] == p[2] && s.mem[0x8003] == p[3];
  }

  lemma TaxRun(s: State, m: nat)
    requires Cleared(s)
    requires s.mem[0x8000] == 0xA9 && s.mem[0x8001] == 0x0A && s.mem[0x8002] == 0xAA && s.mem[0x8003] == 0x00
    ensures Run(s, m + 3) == Halted(s.(pc := 0x8004, a := 0x0A, x := 0x0A, status := 0x30))
  {
    var s1 := s.(pc := 0x8002, a := 0x0A);
    LdaImmediateStep(s, s1, m + 2);
    var s2 := s1.(pc := 0x8003, x := 0x0A);
    TaxStep(s1, s2, m + 1);
    BrkHalts(s2, s.(pc := 0x8004, a := 0x0A, x := 0x0A, status := 0x30), m);
  }

  /** test_0xaa_tax_move_a_to_x: LDA #$0A; TAX; BRK copies 10 into X. (The
      test also sets A to 10 before load_and_run; reset clears it again.) */
  lemma TaxMovesAToX(s0: State, fuel: nat)
    requires fuel >= 3
    ensures var r := LoadAndRun(s0, TaxProgram, fuel);
      r.Halted? && r.final.x == 10
  {
    var s := Started(s0, TaxProgram, fuel);
    TaxLoaded(s);
    TaxRun(s, fuel - 3);
  }

  const FiveOpsProgram: seq<uint8> := [0xA9, 0xC0, 0xAA, 0xE8, 0x00]

  /** The bytes of `FiveOpsProgram`, one by one. */
  lemma FiveOpsLoaded(s: State)
    requires CodeAt(s, FiveOpsProgram)
    ensures s.mem[0x8000] == 0xA9 && s.mem[0x8001] == 0xC0 && s.mem[0x8002] == 0xAA && s.mem[0x8003] == 0xE8
    ensures s.mem[0x8004] == 0x00
  {
    var p := FiveOpsProgram;
    assert s.mem[0x8000] == p[0] && s.mem[0x8001] == p[1] && s.mem[0x8002] == p[2] && s.mem[0x8003] == p[3];
    assert s.mem[0x8004] == p[4];
  }

  lemma FiveOpsRun(s: State, m: nat)
    requires Cleared(s)
    requires s.mem[0x8000] == 0xA9 && s.mem[0x8001] == 0xC0 && s.mem[0x8002] == 0xAA && s.mem[0x8003] == 0xE8
    requires s.mem[0x8004] == 0x00
    ensures Run(s, m + 4) == Halted(s.(pc := 0x8005, a := 0xC0, x := 0xC1, status := 0xB0))
  {
    var s1 := s.(pc := 0x8002, a := 0xC0, status := 0x80);
    LdaImmediateStep(s, s1, m + 3);
    var s2 := s1.(pc := 0x8003, x := 0xC0);
    TaxStep(s1, s2, m + 2);
    var s3 := s2.(pc := 0x8004, x := 0xC1);
    InxStep(s2, s3, m + 1);
    BrkHalts(s3, s.(pc := 0x8005, a := 0xC0, x := 0xC1, status := 0xB0), m);
  }

  /** test_5_ops_working_together: LDA #$C0; TAX; INX; BRK leaves 0xC1 in X. */
  lemma FiveOpsWorkingTogether(s0: State, fuel: nat)
    requires fuel >= 4
    ensures var r := LoadAndRun(s0, FiveOpsProgram, fuel);
      r.Halted? && r.final.x == 0xC1
  {
    var s := Started(s0, FiveOpsProgram, fuel);
    FiveOpsLoaded(s);
    FiveOpsRun(s, fuel - 4);
  }

  const InxOverflowProgram: seq<uint8> := [0xA9, 0xFF, 0xAA, 0xE8, 0xE8, 0x00]

  /** The bytes of `InxOverflowProgram`, one by one. */
  lemma InxOverflowLoaded(s: State)
    requires CodeAt(s, InxOverflowProgram)
    ensures s.mem[0x8000] == 0xA9 && s.mem[0x8001] == 0xFF && s.mem[0x8002] == 0xAA && s.mem[0x8003] == 0xE8
    ensures s.mem[0x8004] == 0xE8 && s.mem[0x8005] == 0x00
  {
    var p := InxOverflowProgram;
    assert s.mem[0x8000] == p[0] && s.mem[0x8001] == p[1] && s.mem[0x8002] == p[2] && s.mem[0x8003] == p[3];
    assert s.mem[0x8004] == p[4] && s.mem[0x8005] == p[5];
  }

  lemma InxOverflowRun(s: State, m: nat)
    requires Cleared(s)
    requires s.mem[0x8000] == 0xA9 && s.mem[0x8001] == 0xFF && s.mem[0x8002] == 0xAA && s.mem[0x8003] == 0xE8
    requires s.mem[0x8004] == 0xE8 && s.mem[0x8005] == 0x00
    ensures Run(s, m + 5) == Halted(s.(pc := 0x8006, a := 0xFF, x := 0x01, status := 0x30))
  {
    var s1 := s.(pc := 0x8002, a := 0xFF, status := 0x80);
    LdaImmediateStep(s, s1, m + 4);
    var s2 := s1.(pc := 0x8003, x := 0xFF);
    TaxStep(s1, s2, m + 3);
    var s3 := s2.(pc := 0x8004, x := 0x00, status := 0x02);
    InxStep(s2, s3, m + 2);
    var s4 := s3.(pc := 0x8005, x := 0x01, status := 0x00);
    InxStep(s3, s4, m + 1);
    BrkHalts(s4, s.(pc := 0x8006, a := 0xFF, x := 0x01, status := 0x30), m);
  }

  /** test_inx_overflow: X = 0xFF incremented twice wraps round to 1. */
  lemma InxOverflow(s0: State, fuel: nat)
    requires fuel >= 5
    ensures var r := LoadAndRun(s0, InxOverflowProgram, fuel);
      r.Halted? && r.final.x == 1
  {
    var s := Started(s0, InxOverflowProgram, fuel);
    InxOverflowLoaded(s);
    InxOverflowRun(s, fuel - 5);
  }

  const LdaFromMemoryProgram: seq<uint8> := [0xA5, 0x10, 0x00]

  /** The bytes of `LdaFromMemoryProgram`, one by one. */
  lemma LdaFromMemoryLoaded(s: State)
    requires CodeAt(s, LdaFromMemoryProgram)
    ensures s.mem[0x8000] == 0xA5 && s.mem[0x8001] == 0x10 && s.mem[0x8002] == 0x00
  {
    var p := LdaFromMemoryProgram;
    assert s.mem[0x8000] == p[0] && s.mem[0x8001] == p[1] && s.mem[0x8002] == p[2];
  }

  lemma LdaFromMemoryRun(s: State, m: nat)
    requires Cleared(s)
    requires s.mem[0x8000] == 0xA5 && s.mem[0x8001] == 0x10 && s.mem[0x8002] == 0x00
    requires s.mem[0x10] == 0x55
    ensures Run(s, m + 2) == Halted(s.(pc := 0x8003, a := 0x55, status := 0x30))
  {
    var s1 := s.(pc := 0x8002, a := 0x55);
    LdaZeroPageStep(s, s1, m + 1);
    BrkHalts(s1, s.(pc := 0x8003, a := 0x55, status := 0x30), m);
  }

  /** test_lda_from_memory: a byte written to 0x10 before load_and_run is still
      there, and LDA $10; BRK loads it. */
  lemma LdaFromMemory(s0: State, fuel: nat)
    requires s0.mem[0x10] == 0x55
    requires fuel >= 2
    ensures var r := LoadAndRun(s0, LdaFromMemoryProgram, fuel);
      r.Halted? && r.final.a == 0x55
  {
    var s := Started(s0, LdaFromMemoryProgram, fuel);
    LdaFromMemoryLoaded(s);
    LdaFromMemoryRun(s, fuel - 2);
  }

  // ---------------------------------------------------------------- easy 6502 programs

  /** LDA #$01; STA $0200; LDA #$05; STA $0201; LDA #$08; STA $0202, and then
      the zero byte after it, a BRK. */
  const FirstProgram: seq<uint8> :=
    [0xA9, 0x01, 0x8D, 0x00, 0x02, 0xA9, 0x05, 0x8D, 0x01, 0x02, 0xA9, 0x08, 0x8D, 0x02, 0x02]

  /** The bytes of `FirstProgram`, one by one. */
  lemma FirstLoaded(s: State)
    requires CodeAt(s, FirstProgram)
    ensures s.mem[0x8000] == 0xA9 && s.mem[0x8001] == 0x01 && s.mem[0x8002] == 0x8D && s.mem[0x8003] == 0x00
    ensures s.mem[0x8004] == 0x02 && s.mem[0x8005] == 0xA9 && s.mem[0x8006] == 0x05 && s.mem[0x8007] == 0x8D
    ensures s.mem[0x8008] == 0x01 && s.mem[0x8009] == 0x02 && s.mem[0x800A] == 0xA9 && s.mem[0x800B] == 0x08
    ensures s.mem[0x800C] == 0x8D && s.mem[0x800D] == 0x02 && s.mem[0x800E] == 0x02
  {
    var p := FirstProgram;
    assert s.mem[0x8000] == p[0] && s.mem[0x8001] == p[1] && s.mem[0x8002] == p[2] && s.mem[0x8003] == p[3];
    assert s.mem[0x8004] == p[4] && s.mem[0x8005] == p[5] && s.mem[0x8006] == p[6] && s.mem[0x8007] == p[7];
    assert s.mem[0x8008] == p[8] && s.mem[0x8009] == p[9] && s.mem[0x800A] == p[10] && s.mem[0x800B] == p[11];
    assert s.mem[0x800C] == p[12] && s.mem[0x800D] == p[13] && s.mem[0x800E] == p[14];
  }

  /** LDA #v; STA abs, two iterations: A and the stored byte become v. */
  lemma LoadStoreSteps(s: State, next: State, m: nat)
    requires s.pc as int + 4 < MemorySize && s.mem[s.pc] == 0xA9 && s.mem[s.pc as int + 2] == 0x8D
    requires s.mem[s.pc as int + 3] as int + 0x100 * s.mem[s.pc as int + 4] as int < MemorySize
    requires var v := s.mem[s.pc as int + 1];
      var addr := s.mem[s.pc as int + 3] as int + 0x100 * s.mem[s.pc as int + 4] as int;
      next == s.(pc := s.pc + 5, a := v, status := ZeroNegative(s.status, v), mem := s.mem[addr := v])
    ensures Run(s, m + 2) == Run(next, m)
  {
    var v := s.mem[s.pc as int + 1];
    var s1 := s.(pc := s.pc + 2, a := v, status := ZeroNegative(s.status, v));
    LdaImmediateStep(s, s1, m + 1);
    StaAbsoluteStep(s1, next, m);
  }

  lemma FirstRun(s: State, m: nat)
    requires Cleared(s)
    requires s.mem[0x8000] == 0xA9 && s.mem[0x8001] == 0x01 && s.mem[0x8002] == 0x8D && s.mem[0x8003] == 0x00
    requires s.mem[0x8004] == 0x02 && s.mem[0x8005] == 0xA9 && s.mem[0x8006] == 0x05 && s.mem[0x8007] == 0x8D
    requires s.mem[0x8008] == 0x01 && s.mem[0x8009] == 0x02 && s.mem[0x800A] == 0xA9 && s.mem[0x800B] == 0x08
    requires s.mem[0x800C] == 0x8D && s.mem[0x800D] == 0x02 && s.mem[0x800E] == 0x02
    requires s.mem[0x800F] == 0x00
    ensures Run(s, m + 7) == Halted(s.(pc := 0x8010, a := 0x08, status := 0x30,
                                   mem := s.mem[0x200 := 0x01][0x201 := 0x05][0x202 := 0x08]))
  {
    var s2 := s.(pc := 0x8005, a := 0x01, mem := s.mem[0x200 := 0x01]);
    LoadStoreSteps(s, s2, m + 5);
    var s4 := s2.(pc := 0x800A, a := 0x05, mem := s2.mem[0x201 := 0x05]);
    LoadStoreSteps(s2, s4, m + 3);
    var s6 := s4.(pc := 0x800F, a := 0x08, mem := s4.mem[0x202 := 0x08]);
    LoadStoreSteps(s4, s6, m + 1);
    BrkHalts(s6, s.(pc := 0x8010, a := 0x08, status := 0x30, mem := s.mem[0x200 := 0x01][0x201 := 0x05][0x202 := 0x08]), m);
  }

  /** test_easy_6502_first_program: three loads and stores, then the BRK
      after the program, at 0x800F, stops at 0x8010 = 32784 with A = 8. The
      three stores put 1, 5 and 8 at 0x0200, 0x0201 and 0x0202. */
  lemma EasyFirstProgram(s0: State, fuel: nat)
    requires s0.mem[0x800F] == 0x00
    requires fuel >= 7
    ensures var r := LoadAndRun(s0, FirstProgram, fuel);
      && r.Halted? && r.final.pc == 32784
      && r.final.x == 0x00 && r.final.y == 0x00 && r.final.a == 0x08
      && r.final.mem[0x200] == 0x01 && r.final.mem[0x201] == 0x05 && r.final.mem[0x202] == 0x08
  {
    var s := Started(s0, FirstProgram, fuel);
    FirstLoaded(s);
    FirstRun(s, fuel - 7);
  }

  /** LDA #$C0; TAX; INX; ADC #$C4; BRK */
  const SecondProgram: seq<uint8> := [0xA9, 0xC0, 0xAA, 0xE8, 0x69, 0xC4, 0x00]

  /** The bytes of `SecondProgram`, one by one. */
  lemma SecondLoaded(s: State)
    requires CodeAt(s, SecondProgram)
    ensures s.mem[0x8000] == 0xA9 && s.mem[0x8001] == 0xC0 && s.mem[0x8002] == 0xAA && s.mem[0x8003] == 0xE8
    ensures s.mem[0x8004] == 0x69 && s.mem[0x8005] == 0xC4 && s.mem[0x8006] == 0x00
  {
    var p := SecondProgram;
    assert s.mem[0x8000] == p[0] && s.mem[0x8001] == p[1] && s.mem[0x8002] == p[2] && s.mem[0x8003] == p[3];
    assert s.mem[0x8004] == p[4] && s.mem[0x8005] == p[5] && s.mem[0x8006] == p[6];
  }

  /** 0xC0 + 0xC4 with the carry clear and N set: 0x84, with C and N set. */
  lemma SecondSum()
    ensures AddWithCarry(0xC0, 0xC4, 0x80) == Sum(0x84, 0x81)
  {
    var r := AddWithCarry(0xC0, 0xC4, 0x80);
    assert CarryIn(0x80) == 0;
    assert r.value == 0x84;
    assert Signed(0xC0) + Signed(0xC4) == -124;
    assert IsSet(r.status, Carry) && !IsSet(r.status, Flags.Overflow);
    assert !IsSet(r.status, Zero) && IsSet(r.status, Negative);
    assert r.status & 0x3C == 0;
    StatusOfFlags(r.status);
  }

  /** A status with bits 2 to 5 clear is the sum of its C, Z, V and N bits. */
  lemma StatusOfFlags(status: bv8)
    requires status & 0x3C == 0
    ensures status == (status & 0x01) | (status & 0x02) | (status & 0x40) | (status & 0x80)
  {
  }

  lemma SecondRun(s: State, m: nat)
    requires Cleared(s)
    requires s.mem[0x8000] == 0xA9 && s.mem[0x8001] == 0xC0 && s.mem[0x8002] == 0xAA && s.mem[0x8003] == 0xE8
    requires s.mem[0x8004] == 0x69 && s.mem[0x8005] == 0xC4 && s.mem[0x8006] == 0x00
    ensures Run(s, m + 5) == Halted(s.(pc := 0x8007, a := 0x84, x := 0xC1, status := 0xB1))
  {
    var s1 := s.(pc := 0x8002, a := 0xC0, status := 0x80);
    LdaImmediateStep(s, s1, m + 4);
    var s2 := s1.(pc := 0x8003, x := 0xC0);
    TaxStep(s1, s2, m + 3);
    var s3 := s2.(pc := 0x8004, x := 0xC1);
    InxStep(s2, s3, m + 2);
    var s4 := s3.(pc := 0x8006, a := 0x84, status := 0x81);
    SecondSum();
    AdcImmediateStep(s3, s4, m + 1);
    BrkHalts(s4, s.(pc := 0x8007, a := 0x84, x := 0xC1, status := 0xB1), m);
  }

  /** test_easy_6502_second_program: 0xC0 + 0xC4 = 0x184, so A = 0x84 = 132
      with C and N set, X = 0xC1 = 193, and the status 0b1011_0001 once BRK
      has set bits 4 and 5; the program counter stops at 32775. */
  lemma EasySecondProgram(s0: State, fuel: nat)
    requires fuel >= 5
    ensures var r := LoadAndRun(s0, SecondProgram, fuel);
      && r.Halted? && r.final.pc == 32775
      && r.final.x == 193 && r.final.y == 0x00 && r.final.a == 132
      && r.final.status == 0xB1
  {
    var s := Started(s0, SecondProgram, fuel);
    SecondLoaded(s);
    SecondRun(s, fuel - 5);
  }

  /** LDA #$80; STA $01; ADC $01, and then the zero byte after it, a BRK. */
  const AdcProgram: seq<uint8> := [0xA9, 0x80, 0x85, 0x01, 0x65, 0x01]

  /** The bytes of `AdcProgram`, one by one. */
  lemma AdcLoaded(s: State)
    requires CodeAt(s, AdcProgram)
    ensures s.mem[0x8000] == 0xA9 && s.mem[0x8001] == 0x80 && s.mem[0x8002] == 0x85 && s.mem[0x8003] == 0x01
    ensures s.mem[0x8004] == 0x65 && s.mem[0x8005] == 0x01
  {
    var p := AdcProgram;
    assert s.mem[0x8000] == p[0] && s.mem[0x8001] == p[1] && s.mem[0x8002] == p[2] && s.mem[0x8003] == p[3];
    assert s.mem[0x8004] == p[4] && s.mem[0x8005] == p[5];
  }

  /** 0x80 + 0x80 with the carry clear and N set: 0x00, with C, Z and V set. */
  lemma AdcSum()
    ensures AddWithCarry(0x80, 0x80, 0x80) == Sum(0x00, 0x43)
  {
    assert CarryIn(0x80) == 0;
    assert Assign(0x80, Carry, true) == 0x81;
    assert OverflowRule(0x80, 0x80, 0x00);
    assert Assign(0x81, Flags.Overflow, true) == 0xC1;
    assert ZeroNegative(0xC1, 0x00) == 0x43;
  }

  lemma AdcRun(s: State, m: nat)
    requires Cleared(s)
    requires s.mem[0x8000] == 0xA9 && s.mem[0x8001] == 0x80 && s.mem[0x8002] == 0x85 && s.mem[0x8003] == 0x01
    requires s.mem[0x8004] == 0x65 && s.mem[0x8005] == 0x01
    requires s.mem[0x8006] == 0x00
    ensures Run(s, m + 4) == Halted(s.(pc := 0x8007, a := 0x00, status := 0x73, mem := s.mem[0x01 := 0x80]))
  {
    var s1 := s.(pc := 0x8002, a := 0x80, status := 0x80);
    LdaImmediateStep(s, s1, m + 3);
    var s2 := s1.(pc := 0x8004, mem := s1.mem[0x01 := 0x80]);
    StaZeroPageStep(s1, s2, m + 2);
    var s3 := s2.(pc := 0x8006, a := 0x00, status := 0x43);
    AdcSum();
    AdcZeroPageStep(s2, s3, m + 1);
    BrkHalts(s3, s.(pc := 0x8007, a := 0x00, status := 0x73, mem := s.mem[0x01 := 0x80]), m);
  }

  /** test_easy_6502_adc: 0x80 + 0x80 = 0x100, so A = 0 with C, V and Z set
      (two negative numbers gave a non-negative sum), the status 0b0111_0011
      once BRK has set bits 4 and 5, and the program counter at 32775. */
  lemma EasyAdc(s0: State, fuel: nat)
    requires s0.mem[0x8006] == 0x00
    requires fuel >= 4
    ensures var r := LoadAndRun(s0, AdcProgram, fuel);
      && r.Halted? && r.final.pc == 32775
      && r.final.x == 0x00 && r.final.y == 0x00 && r.final.a == 0x00
      && r.final.status == 0x73
  {
    var s := Started(s0, AdcProgram, fuel);
    AdcLoaded(s);
    AdcRun(s, fuel - 4);
  }

  /** LDX #$08; loop: DEX; STX $0200; CPX #$03; BNE loop; STX $0201; BRK */
  const BranchingProgram: seq<uint8> :=
    [0xA2, 0x08, 0xCA, 0x8E, 0x00, 0x02, 0xE0, 0x03, 0xD0, 0xF8, 0x8E, 0x01, 0x02, 0x00]

  /** The bytes of `BranchingProgram`, one by one. */
  lemma BranchingLoaded(s: State)
    requires CodeAt(s, BranchingProgram)
    ensures s.mem[0x8000] == 0xA2 && s.mem[0x8001] == 0x08 && s.mem[0x8002] == 0xCA && s.mem[0x8003] == 0x8E
    ensures s.mem[0x8004] == 0x00 && s.mem[0x8005] == 0x02 && s.mem[0x8006] == 0xE0 && s.mem[0x8007] == 0x03
    ensures s.mem[0x8008] == 0xD0 && s.mem[0x8009] == 0xF8 && s.mem[0x800A] == 0x8E && s.mem[0x800B] == 0x01
    ensures s.mem[0x800C] == 0x02 && s.mem[0x800D] == 0x00
  {
    var p := BranchingProgram;
    assert s.mem[0x8000] == p[0] && s.mem[0x8001] == p[1] && s.mem[0x8002] == p[2] && s.mem[0x8003] == p[3];
    assert s.mem[0x8004] == p[4] && s.mem[0x8005] == p[5] && s.mem[0x8006] == p[6] && s.mem[0x8007] == p[7];
    assert s.mem[0x8008] == p[8] && s.mem[0x8009] == p[9] && s.mem[0x800A] == p[10] && s.mem[0x800B] == p[11];
    assert s.mem[0x800C] == p[12] && s.mem[0x800D] == p[13];
  }

  /** The flags inside a round that goes back: DEX leaves a positive non-zero
      X, so Z and N stay clear, and CPX #$03 on it sets only C. */
  lemma RoundFlags(k: uint8, status: bv8)
    requires 3 < k < 0x80 && status & 0xFE == 0
    ensures ZeroNegative(status, k) == status
    ensures CompareFlags(k, 3, status) == 0x01
  {
    assert status == 0 || status == 1;
  }

  /** DEX; STX $0200 at the top of a round: X goes down by one and is stored;
      with X above 4 and at most C set, the flags do not change. */
  lemma DecrementStore(s: State, next: State, m: nat)
    requires s.mem[0x8002] == 0xCA && s.mem[0x8003] == 0x8E && s.mem[0x8004] == 0x00 && s.mem[0x8005] == 0x02
    requires s.pc == 0x8002 && 5 <= s.x < 0x80 && s.status & 0xFE == 0
    requires next == s.(pc := 0x8006, x := s.x - 1, mem := s.mem[0x200 := s.x - 1])
    ensures Run(s, m + 2) == Run(next, m)
  {
    var k := s.x - 1;
    RoundFlags(k, s.status);
    var s1 := s.(pc := 0x8003, x := k);
    DexStep(s, s1, m + 1);
    StxAbsoluteStep(s1, next, m);
  }

  /** CPX #$03; BNE back to 0x8002 with X above 3: C set, Z clear, branch
      taken. */
  lemma CompareBranchBack(s: State, m: nat)
    requires s.mem[0x8006] == 0xE0 && s.mem[0x8007] == 0x03 && s.mem[0x8008] == 0xD0 && s.mem[0x8009] == 0xF8
    requires s.pc == 0x8006 && 3 < s.x < 0x80 && s.status & 0xFE == 0
    ensures Run(s, m + 2) == Run(s.(pc := 0x8002, status := 0x01), m)
  {
    RoundFlags(s.x, s.status);
    var s1 := s.(pc := 0x8008, status := 0x01);
    CpxImmediateStep(s, s1, m + 1);
    assert Signed(0xF8) == -8;
    BneTakenStep(s1, s.(pc := 0x8002, status := 0x01), m);
  }

  /** One round of the loop that goes back: DEX, STX $0200, CPX #$03 finding
      X above 3 (C set, Z clear) and the taken BNE back to 0x8002. */
  lemma BranchingRound(s: State, m: nat)
    requires s.mem[0x8002] == 0xCA && s.mem[0x8003] == 0x8E && s.mem[0x8004] == 0x00 && s.mem[0x8005] == 0x02
    requires s.mem[0x8006] == 0xE0 && s.mem[0x8007] == 0x03 && s.mem[0x8008] == 0xD0 && s.mem[0x8009] == 0xF8
    requires s.pc == 0x8002 && 5 <= s.x < 0x80 && s.status & 0xFE == 0
    ensures Run(s, m + 4) == Run(s.(x := s.x - 1, status := 0x01, mem := s.mem[0x200 := s.x - 1]), m)
  {
    var s2 := s.(pc := 0x8006, x := s.x - 1, mem := s.mem[0x200 := s.x - 1]);
    DecrementStore(s, s2, m + 2);
    CompareBranchBack(s2, m);
  }

  /** The last round: X = 4 goes down to 3, CPX #$03 sets C and Z, BNE falls
      through, STX $0201 and BRK. */
  lemma BranchingExit(s: State, m: nat)
    requires s.mem[0x8002] == 0xCA && s.mem[0x8003] == 0x8E && s.mem[0x8004] == 0x00 && s.mem[0x8005] == 0x02
    requires s.mem[0x8006] == 0xE0 && s.mem[0x8007] == 0x03 && s.mem[0x8008] == 0xD0 && s.mem[0x8009] == 0xF8
    requires s.mem[0x800A] == 0x8E && s.mem[0x800B] == 0x01 && s.mem[0x800C] == 0x02 && s.mem[0x800D] == 0x00
    requires s.pc == 0x8002 && s.x == 4 && s.status & 0xFE == 0
    ensures Run(s, m + 6) == Halted(s.(pc := 0x800E, x := 3, status := 0x33, mem := s.mem[0x200 := 3][0x201 := 3]))
  {
    assert ZeroNegative(s.status, 3) == s.status;
    var s1 := s.(pc := 0x8003, x := 3);
    DexStep(s, s1, m + 5);
    var s2 := s1.(pc := 0x8006, mem := s1.mem[0x200 := 3]);
    StxAbsoluteStep(s1, s2, m + 4);
    assert CompareFlags(3, 3, s.status) == 0x03;
    var s3 := s2.(pc := 0x8008, status := 0x03);
    CpxImmediateStep(s2, s3, m + 3);
    var s4 := s3.(pc := 0x800A);
    BneNotTakenStep(s3, s4, m + 2);
    var s5 := s4.(pc := 0x800D, mem := s4.mem[0x201 := 3]);
    StxAbsoluteStep(s4, s5, m + 1);
    BrkHalts(s5, s.(pc := 0x800E, x := 3, status := 0x33, mem := s.mem[0x200 := 3][0x201 := 3]), m);
  }

  /** The loop of the branching program, entered at 0x8002 with X = k
      (4 <= k < 0x80) and at most C set: it goes round k - 3 times, four
      instructions each time, then stores 3 at 0x0201 and halts with C, Z and
      bits 4 and 5 set. */
  lemma {:induction false} BranchingLoop(s: State, m: nat)
    requires s.mem[0x8002] == 0xCA && s.mem[0x8003] == 0x8E && s.mem[0x8004] == 0x00 && s.mem[0x8005] == 0x02
    requires s.mem[0x8006] == 0xE0 && s.mem[0x8007] == 0x03 && s.mem[0x8008] == 0xD0 && s.mem[0x8009] == 0xF8
    requires s.mem[0x800A] == 0x8E && s.mem[0x800B] == 0x01 && s.mem[0x800C] == 0x02 && s.mem[0x800D] == 0x00
    requires s.pc == 0x8002 && 4 <= s.x < 0x80 && s.status & 0xFE == 0
    ensures Run(s, m + 4 * (s.x as int - 3) + 2) ==
      Halted(s.(pc := 0x800E, x := 3, status := 0x33, mem := s.mem[0x200 := 3][0x201 := 3]))
    decreases s.x
  {
    if s.x == 4 {
      BranchingExit(s, m);
    } else {
      var next := s.(x := s.x - 1, status := 0x01, mem := s.mem[0x200 := s.x - 1]);
      BranchingRound(s, m + 4 * (s.x as int - 4) + 2);
      BranchingLoop(next, m);
      assert next.mem[0x200 := 3][0x201 := 3] == s.mem[0x200 := 3][0x201 := 3];
    }
  }

  lemma BranchingRun(s: State, m: nat)
    requires Cleared(s)
    requires s.mem[0x8000] == 0xA2 && s.mem[0x8001] == 0x08 && s.mem[0x8002] == 0xCA && s.mem[0x8003] == 0x8E
    requires s.mem[0x8004] == 0x00 && s.mem[0x8005] == 0x02 && s.mem[0x8006] == 0xE0 && s.mem[0x8007] == 0x03
    requires s.mem[0x8008] == 0xD0 && s.mem[0x8009] == 0xF8 && s.mem[0x800A] == 0x8E && s.mem[0x800B] == 0x01
    requires s.mem[0x800C] == 0x02 && s.mem[0x800D] == 0x00
    ensures Run(s, m + 23) == Halted(s.(pc := 0x800E, x := 3, status := 0x33, mem := s.mem[0x200 := 3][0x201 := 3]))
  {
    var s1 := s.(pc := 0x8002, x := 8);
    LdxImmediateStep(s, s1, m + 22);
    BranchingLoop(s1, m);
  }

  /** test_easy_6502_branching: X counts down from 8; the loop exits when
      CPX #$03 finds X = 3, which sets C and Z; BRK at 0x800D stops at
      0x800E = 32782 with the status 0b0011_0011. */
  lemma EasyBranching(s0: State, fuel: nat)
    requires fuel >= 23
    ensures var r := LoadAndRun(s0, BranchingProgram, fuel);
      && r.Halted? && r.final.pc == 32782
      && r.final.x == 0x03 && r.final.y == 0x00 && r.final.a == 0x00
      && r.final.status == 0x33
  {
    var s := Started(s0, BranchingProgram, fuel);
    BranchingLoaded(s);
    BranchingRun(s, fuel - 23);
  }
}
