/** The unit tests of src/cpu.rs:375-487 on the object: each method builds a
    `CPU`, sets it up as the test does, calls `LoadAndRun` and returns what the
    test asserts about the object afterwards, and its contract is the test's
    assertions together with "load_and_run returned" (the run stopped at BRK
    rather than panicking). The loop of load_and_run is given `fuel`
    iterations, at least as many as the program takes; the lemmas of
    `Scenarios` say how the run ends, and the contracts of the methods of
    `CPU` carry that over to the object. */
module CpuTests {
  import opened Bytes
  import opened Flags
  import opened Machine
  import opened Cpu
  import Scenarios

  /** test_0xa9_lda_immediate_load_data */
  method LdaImmediateLoadData(fuel: nat) returns (signal: Signal, a: uint8, status: bv8)
    requires fuel >= 2
    ensures signal == Stopped
    ensures a == 0x05 && status & 0x02 == 0 && status & 0x80 == 0
  {
    var cpu := new CPU();
    Scenarios.LdaImmediate(cpu.Model(), fuel);
    signal := cpu.LoadAndRun(Scenarios.LdaImmediateProgram, fuel);
    a, status := cpu.registerA, cpu.status;
  }

  /** test_0xa9_lda_zero_flag */
  method LdaZeroFlag(fuel: nat) returns (signal: Signal, status: bv8)
    requires fuel >= 2
    ensures signal == Stopped
    ensures status & 0x02 == 0x02
  {
    var cpu := new CPU();
    Scenarios.LdaZeroFlag(cpu.Model(), fuel);
    signal := cpu.LoadAndRun(Scenarios.LdaZeroProgram, fuel);
    status := cpu.status;
  }

  /** test_0xaa_tax_move_a_to_x */
  method TaxMoveAToX(fuel: nat) returns (signal: Signal, x: uint8)
    requires fuel >= 3
    ensures signal == Stopped
    ensures x == 10
  {
    var cpu := new CPU();
    cpu.registerA := 10;
    Scenarios.TaxMovesAToX(cpu.Model(), fuel);
    signal := cpu.LoadAndRun(Scenarios.TaxProgram, fuel);
    x := cpu.registerX;
  }

  /** test_5_ops_working_together */
  method FiveOpsWorkingTogether(fuel: nat) returns (signal: Signal, x: uint8)
    requires fuel >= 4
    ensures signal == Stopped
    ensures x == 0xC1
  {
    var cpu := new CPU();
    Scenarios.FiveOpsWorkingTogether(cpu.Model(), fuel);
    signal := cpu.LoadAndRun(Scenarios.FiveOpsProgram, fuel);
    x := cpu.registerX;
  }

  /** test_inx_overflow */
  method InxOverflow(fuel: nat) returns (signal: Signal, x: uint8)
    requires fuel >= 5
    ensures signal == Stopped
    ensures x == 1
  {
    var cpu := new CPU();
    cpu.registerX := 0xFF;
    Scenarios.InxOverflow(cpu.Model(), fuel);
    signal := cpu.LoadAndRun(Scenarios.InxOverflowProgram, fuel);
    x := cpu.registerX;
  }

  /** test_lda_from_memory */
  method LdaFromMemory(fuel: nat) returns (signal: Signal, a: uint8)
    requires fuel >= 2
    ensures signal == Stopped
    ensures a == 0x55
  {
    var cpu := new CPU();
    var _ := cpu.MemWrite(0x10, 0x55);
    Scenarios.LdaFromMemory(cpu.Model(), fuel);
    signal := cpu.LoadAndRun(Scenarios.LdaFromMemoryProgram, fuel);
    a := cpu.registerA;
  }

  /** test_easy_6502_first_program */
  method EasyFirstProgram(fuel: nat) returns (signal: Signal, pc: uint16, x: uint8, y: uint8, a: uint8)
    requires fuel >= 7
    ensures signal == Stopped
    ensures pc == 32784 && x == 0x00 && y == 0x00 && a == 0x08
  {
    var cpu := new CPU();
    Scenarios.EasyFirstProgram(cpu.Model(), fuel);
    signal := cpu.LoadAndRun(Scenarios.FirstProgram, fuel);
    pc, x, y, a := cpu.programCounter, cpu.registerX, cpu.registerY, cpu.registerA;
  }

  /** test_easy_6502_second_program */
  method EasySecondProgram(fuel: nat) returns (signal: Signal, pc: uint16, x: uint8, y: uint8, a: uint8, status: bv8)
    requires fuel >= 5
    ensures signal == Stopped
    ensures pc == 32775 && x == 193 && y == 0x00 && a == 132 && status == 0xB1
  {
    var cpu := new CPU();
    Scenarios.EasySecondProgram(cpu.Model(), fuel);
    signal := cpu.LoadAndRun(Scenarios.SecondProgram, fuel);
    pc, x, y, a, status := cpu.programCounter, cpu.registerX, cpu.registerY, cpu.registerA, cpu.status;
  }

  /** test_easy_6502_adc */
  method EasyAdc(fuel: nat) returns (signal: Signal, pc: uint16, x: uint8, y: uint8, a: uint8, status: bv8)
    requires fuel >= 4
    ensures signal == Stopped
    ensures pc == 32775 && x == 0x00 && y == 0x00 && a == 0x00 && status == 0x73
  {
    var cpu := new CPU();
    Scenarios.EasyAdc(cpu.Model(), fuel);
    signal := cpu.LoadAndRun(Scenarios.AdcProgram, fuel);
    pc, x, y, a, status := cpu.programCounter, cpu.registerX, cpu.registerY, cpu.registerA, cpu.status;
  }

  /** test_easy_6502_branching */
  method EasyBranching(fuel: nat) returns (signal: Signal, pc: uint16, x: uint8, y: uint8, a: uint8, status: bv8)
    requires fuel >= 23
    ensures signal == Stopped
    ensures pc == 32782 && x == 0x03 && y == 0x00 && a == 0x00 && status == 0x33
  {
    var cpu := new CPU();
    Scenarios.EasyBranching(cpu.Model(), fuel);
    signal := cpu.LoadAndRun(Scenarios.BranchingProgram, fuel);
    pc, x, y, a, status := cpu.programCounter, cpu.registerX, cpu.registerY, cpu.registerA, cpu.status;
  }
}
