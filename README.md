# A verified model of the eNES 6502 execution engine

This project models `src/cpu.rs` of eNES, a NES emulator in Rust. That file
holds the MOS 6502 execution engine. Its state is the `CPU` struct:

- the registers A, X and Y;
- the status byte;
- a 16-bit program counter and an 8-bit stack pointer;
- a flat memory of 0xFFFF bytes.

Its operations are:

- byte and little-endian word access to memory;
- operand-address resolution for the ten addressing modes;
- a stack in page 1;
- the Z/N, ADC and compare flag arithmetic;
- the instruction helpers;
- `reset`, `load` and `load_and_run`;
- the fetch-decode-execute loop `run`, which dispatches LDA, LDX, STA, STX,
  CPX, JSR, ADC, BNE, DEX, TAX, INX and BRK.

The model has two levels:

- **`Machine`** (`machine.dfy`) is the engine on values. `State` is the
  struct. Every operation is a function. An operation that can panic returns
  `Result` (the panics are the `Fault` values of `results.dfy`). One loop
  iteration is `Step`, which returns an `Outcome`: continue, halted by BRK,
  or faulted. `Run(s, fuel)` is at most `fuel` iterations of the loop.
- **`Cpu.CPU`** (`cpu.dfy`) is the struct as a class. Its fields are the
  registers, and memory is an `array<uint8>` of length 0xFFFF. Every Rust
  method is a Dafny method that updates the fields and the array in place, as
  the Rust code does. `Model()` reads the object as a `State`. Each method is
  proved to take the object from `old(Model())` to what the `Machine`
  function of the same name gives, or to return that function's `Fault`.
  `Run` is a `while` loop, proved to end as `Machine.Run` does.

Proofs about the functions:

- The round trips and framing of memory and stack access
  (`machine_props.dfy`).
- The effective address of every addressing mode, in arithmetic.
- The flag arithmetic against its arithmetic meaning (`flags.dfy`). For
  example, the bitwise overflow rule of ADC holds exactly when the signed sum
  leaves the range of `i8`.
- What one loop iteration does for each kind of instruction, including BNE,
  JSR and BRK. This includes the program-counter quirk: a target equal to the
  post-fetch program counter counts as "not moved" and is skipped over.
- How bounded runs compose (`run_props.dfy`).

Every unit test of `src/cpu.rs` is restated twice:

- in `scenarios.dfy`, as a lemma about `LoadAndRun`, with the exact state in
  which the run halts;
- in `cpu_tests.dfy`, as a method on a fresh `CPU` object, whose
  postcondition is the test's assertions.

The branching test's loop is proved by induction on X (`BranchingLoop`).

Numbers:

- `u8` and `u16` are the int newtypes `uint8` and `uint16` (`bytes.dfy`).
- Rust's wrapping operations are written out as `%`.
- Rust's plain `+` on `u16` is proved not to overflow, or is modelled as the
  `Overflow` fault where it can overflow: the program counter at
  src/cpu.rs:217 and src/cpu.rs:252.
- The status register is a `bv8`.

The opcode table lives in `crate::opcodes`, which is not part of this model.
`opcodes.dfy` gives a fixed table covering only the dispatched opcodes. It
uses the standard 6502 lengths and modes for them; the tests' final
program-counter values agree with those lengths.

Facts about `src/cpu.rs` that the model keeps:

- src/cpu.rs:185, 217 and 252 add to the `u16` program counter without
  wrapping, which panics in a debug build. The model turns the reachable
  ones (217 and 252) into `Overflow` faults and proves the one at 185 stays
  in range.
- Memory is `[u8; 0xFFFF]` (src/cpu.rs:14), so address 0xFFFF is out of
  bounds for `mem_read` and `mem_write` (src/cpu.rs:55, 59). The model
  returns `OutOfBounds(0xFFFF)`.
- Only the twelve instructions above are dispatched. An opcode with a table
  entry but no dispatch arm falls to `todo!()`, which is `NotImplemented`
  in the model; `DispatchCoversTable` proves the fixed table never reaches
  it.
- The panic messages do not carry the program counter, and the model's
  faults carry only the offending index or opcode.

## Model

| member | source | states |
|---|---|---|
| Machine.New | src/cpu.rs:64-74 | a new machine has zero registers, status, program counter and memory, and the stack pointer at 0xFD |
| Machine.Read | src/cpu.rs:53-56 | reading succeeds exactly below 0xFFFF and gives the stored byte; address 0xFFFF is an out-of-bounds fault |
| Machine.Write | src/cpu.rs:58-60 | writing succeeds exactly below 0xFFFF and changes only that byte |
| Machine.Read16 | src/cpu.rs:38-42 | a word read succeeds exactly when `pos + 1 < 0xFFFF`, gives `lo + 256 * hi`, and reports the first failing index otherwise |
| Machine.Write16 | src/cpu.rs:44-49 | a word write succeeds exactly when `pos + 1 < 0xFFFF`, stores the low byte at `pos` and the high byte at `pos + 1` and changes no other byte; otherwise it faults out of bounds at 0xFFFF |
| MachineProps.Read16AfterWrite16 | src/cpu.rs:38-49 | a word read after a word write at the same position gives the word back |
| MachineProps.Read16AfterOtherWrite | src/cpu.rs:38-60 | a byte write elsewhere does not change a word read |
| Machine.OperandAddress | src/cpu.rs:76-129 | resolution fails exactly for NoneAddressing or when the operand bytes run past memory; Immediate gives the program counter; zero-page modes give an address below 0x100 |
| MachineProps.OperandAddressModes | src/cpu.rs:76-123 | the effective address of every mode in arithmetic: zero-page indexing and pointer bytes wrap mod 256, absolute indexing and the (zp),Y post-index wrap mod 65536, and words are little-endian |
| Machine.Push | src/cpu.rs:137-140 | a push writes only 0x0100 + sp and then lowers sp by one mod 256 |
| Machine.Pop | src/cpu.rs:132-135 | a pop raises sp by one mod 256 first, then reads 0x0100 + sp; memory is unchanged |
| Machine.Push16 | src/cpu.rs:142-147 | a word push lowers sp by two mod 256, with the high byte at the old top and the low byte below it |
| Machine.Pop16 | src/cpu.rs:149-154 | a word pop raises sp by two mod 256, returns the word whose low byte is at 0x0100 + sp + 1 and high byte at 0x0100 + sp + 2 (each wrapping within page 1), and changes nothing else |
| MachineProps.PopAfterPush | src/cpu.rs:132-140 | a pop right after a push gives the pushed byte and restores sp, for every sp |
| MachineProps.Pop16AfterPush16 | src/cpu.rs:142-154 | a word pop right after a word push gives the word and restores sp, including when sp wraps |
| MachineProps.Push16Frame | src/cpu.rs:142-147 | a word push changes no byte outside its two stack slots |
| Machine.Reset | src/cpu.rs:156-165 | reset clears A, X, Y and the status, sets sp to 0xFD, sets the program counter to the word at 0xFFFC, and leaves memory alone |
| MachineProps.ResetIdempotent | src/cpu.rs:156-165 | a second reset changes nothing |
| Machine.Load | src/cpu.rs:167-171 | load succeeds exactly when the program ends within memory; it copies the program to 0x8000 onward except where the reset vector at 0xFFFC-0xFFFD overwrites it, writes 0x8000 there and changes no other byte; otherwise it reports the slice end |
| MachineProps.LoadThenReset | src/cpu.rs:156-171 | for every non-empty program that fits in memory, after load, reset starts at 0x8000 on the program's first byte |
| Scenarios.LoadResetReady | src/cpu.rs:173-177 | load then reset leaves the program at 0x8000, the registers cleared, and every other byte except the reset vector as before |
| Machine.LoadAndRun | src/cpu.rs:173-177 | a program too long for memory faults |
| Scenarios.Started | src/cpu.rs:173-177 | load then reset leave the machine ready on the program, keep every byte outside the program and the reset vector, and load_and_run is the loop run from that machine |
| Flags.Assign | src/cpu.rs:269-273 | the set-or-clear of one flag sets or clears that bit and keeps the other seven |
| Flags.SignBitIsBit7 | src/cpu.rs:275-279 | the negative test on a byte is exactly bit 7 of it |
| Flags.ZeroNegative | src/cpu.rs:257-280 | Z is set iff the result is zero, N iff bit 7 of the result is set, and the other six bits are kept |
| Flags.AddWithCarry | src/cpu.rs:287-313 | the new A is (A + data + C) mod 256; C iff the sum exceeds 0xFF; V iff the signed sum leaves -128..127; Z/N describe the new A; bits 2 to 5 are kept |
| Flags.OverflowIsSignedOverflow | src/cpu.rs:306-310 | the bitwise overflow test holds exactly when the signed 8-bit sum overflows |
| Flags.CompareFlags | src/cpu.rs:315-325 | C iff operand <= register; Z iff they are equal; N is bit 7 of their wrapping difference; bits 2 to 6 are kept |
| Machine.Lda | src/cpu.rs:327-331 | LDA fails exactly when its operand cannot be read; otherwise A takes the operand, Z/N describe it, and nothing else changes |
| Machine.Ldx | src/cpu.rs:333-338 | LDX fails exactly when its operand cannot be read; otherwise X takes the operand, Z/N describe it, and nothing else changes |
| Machine.Sta | src/cpu.rs:351-354 | STA fails exactly when the address cannot be resolved or is 0xFFFF; otherwise A is stored there and nothing else changes |
| Machine.Stx | src/cpu.rs:206-210 | STX fails exactly when the address cannot be resolved or is 0xFFFF; otherwise X is stored there and nothing else changes |
| Machine.Compare | src/cpu.rs:315-325 | compare fails exactly when its operand cannot be read; otherwise only the status changes, with C, Z and N as in the 6502 compare and bits 2 to 6 kept |
| Machine.Adc | src/cpu.rs:340-344 | ADC fails exactly when its operand cannot be read; otherwise only A and the status change, to the add-with-carry of A, the operand and C |
| Machine.Dex | src/cpu.rs:346-349 | X goes down by one mod 256, Z/N describe it, and nothing else changes |
| Machine.Tax | src/cpu.rs:356-359 | X takes A, Z/N describe it, and nothing else changes |
| Machine.Inx | src/cpu.rs:361-364 | X goes up by one mod 256, Z/N describe it, and nothing else changes |
| Machine.Brk | src/cpu.rs:366-368 | bits 4 and 5 of the status are set, and nothing else changes |
| MachineProps.LoadsSetZeroNegative | src/cpu.rs:257-280 | after an LDA, LDX, TAX, INX or DEX step, Z/N describe the written register and the other six status bits are as before |
| Machine.Jsr | src/cpu.rs:215-220 | JSR faults with an overflow when `program_counter + 2` exceeds 0xFFFF; what it does otherwise is stated by `MachineProps.JsrStep` |
| Machine.Bne | src/cpu.rs:227-238 | with Z set, BNE changes nothing; the taken branch is stated by `MachineProps.BneStep` |
| Machine.Execute | src/cpu.rs:188-249 | the dispatcher falls to `todo!()` exactly for an opcode with no table entry |
| Machine.Advance | src/cpu.rs:186-253 | an instruction that moved the program counter is not advanced further; one that did not is advanced by `len - 1`, or faults with an overflow when that passes 0xFFFF |
| Machine.SetRegisterA | src/cpu.rs:282-285 | A takes the value, Z/N describe it, the other six status bits are kept, and nothing else changes |
| Machine.Step | src/cpu.rs:181-253 | an iteration halts exactly on a fetched BRK; an iteration that does not fault fetched a known opcode; it never ends in `todo!()` |
| MachineProps.StepFallsThrough | src/cpu.rs:186-253 | every non-jumping instruction that completes leaves the program counter just past its operand bytes and sp unchanged |
| MachineProps.BneStep | src/cpu.rs:227-253 | BNE is taken iff Z is clear; a taken branch goes to the byte after the offset plus the signed offset, mod 65536; a target equal to the offset byte falls through; no register, flag or memory byte changes |
| MachineProps.BneOntoOffsetFallsThrough | src/cpu.rs:227-253 | a taken BNE with offset 0xFF continues after the BNE, as if not taken |
| MachineProps.BneAtTopOverflows | src/cpu.rs:251-253 | a BNE not taken at 0xFFFE overflows the program counter |
| MachineProps.JsrStep | src/cpu.rs:215-220 | JSR pushes the address of its last byte, changing only memory and sp, which drops by two mod 256, and a word pop gives that address back; it then jumps to the word after the opcode, except that a target equal to the post-fetch program counter is skipped past by three |
| MachineProps.JsrAtTopOverflows | src/cpu.rs:215-217 | JSR fetched at 0xFFFD or 0xFFFE, where `program_counter + 2` exceeds 0xFFFF, faults with an overflow |
| MachineProps.BrkStep | src/cpu.rs:243-246 | BRK halts with bits 4 and 5 set and the program counter one past the BRK; nothing else changes |
| MachineProps.FetchFaults | src/cpu.rs:182-188 | fetching at 0xFFFF faults out of bounds, and an unknown opcode faults with that opcode |
| MachineProps.DispatchCoversTable | src/cpu.rs:188-249 | for every table entry the dispatcher neither reaches `todo!()` nor resolves NoneAddressing |
| Opcodes.Lookup | src/cpu.rs:188 | every entry is one to three bytes long; an entry with a mode is the opcode byte plus that mode's operand bytes; BNE and JSR are the two entries whose length the mode does not account for: no mode, and two and three bytes long |
| Opcodes.ImpliedLength | src/cpu.rs:188 | the other entries without a mode (DEX, TAX, INX and BRK) are one byte long |
| Machine.Run | src/cpu.rs:179-254 | at most `fuel` iterations of `Step`, stopping at the first halt or fault; no run ends in `todo!()`; its other properties are the `RunProps` rows |
| RunProps.RunStopped | src/cpu.rs:179-254 | a run that stopped within n iterations ends the same way with any larger bound |
| RunProps.RunCompose | src/cpu.rs:179-254 | n iterations and then m more are n + m iterations |
| RunProps.RunHaltsAtBrk | src/cpu.rs:243-246 | a run that halts does so on a step that fetched a BRK |
| InstructionSteps.LdaImmediateStep | src/cpu.rs:191-194 | LDA #imm: A takes the byte after the opcode, Z/N describe it, and the program counter moves by two |
| InstructionSteps.LdaZeroPageStep | src/cpu.rs:191-194 | LDA zp: A takes the byte at the zero-page address |
| InstructionSteps.LdxImmediateStep | src/cpu.rs:196-199 | LDX #imm: X takes the byte after the opcode |
| InstructionSteps.StaZeroPageStep | src/cpu.rs:201-204 | STA zp stores A at the zero-page address |
| InstructionSteps.StaAbsoluteStep | src/cpu.rs:201-204 | STA abs stores A at the little-endian address and moves the program counter by three |
| InstructionSteps.StxAbsoluteStep | src/cpu.rs:206-210 | STX abs stores X at the little-endian address |
| InstructionSteps.CpxImmediateStep | src/cpu.rs:212-213 | CPX #imm sets only the compare flags |
| InstructionSteps.AdcImmediateStep | src/cpu.rs:222-225 | ADC #imm sets A and the status to the add-with-carry result |
| InstructionSteps.AdcZeroPageStep | src/cpu.rs:222-225 | ADC zp adds the byte at the zero-page address |
| InstructionSteps.TaxStep | src/cpu.rs:241 | TAX copies A to X and moves by one |
| InstructionSteps.InxStep | src/cpu.rs:242 | INX increments X mod 256 and moves by one |
| InstructionSteps.DexStep | src/cpu.rs:240 | DEX decrements X mod 256 and moves by one |
| InstructionSteps.BneNotTakenStep | src/cpu.rs:227-253 | BNE with Z set moves by two |
| InstructionSteps.BneTakenStep | src/cpu.rs:227-238 | BNE with Z clear goes to the branch target |
| InstructionSteps.BrkHalts | src/cpu.rs:243-246 | BRK ends the run, halted, one past the BRK with bits 4 and 5 set |
| Scenarios.LdaImmediateRun | src/cpu.rs:375-384 | LDA #$05; BRK halts at 0x8003 with A = 5 and the status 0x30 |
| Scenarios.LdaImmediate | src/cpu.rs:375-384 | test_0xa9_lda_immediate_load_data: A = 5 with Z and N clear |
| Scenarios.LdaZeroRun | src/cpu.rs:386-393 | LDA #$00; BRK halts with the status 0x32 |
| Scenarios.LdaZeroFlag | src/cpu.rs:386-393 | test_0xa9_lda_zero_flag: Z is set |
| Scenarios.TaxRun | src/cpu.rs:395-403 | LDA #$0A; TAX; BRK halts with A = X = 10 |
| Scenarios.TaxMovesAToX | src/cpu.rs:395-403 | test_0xaa_tax_move_a_to_x: X = 10 |
| Scenarios.FiveOpsRun | src/cpu.rs:405-411 | LDA #$C0; TAX; INX; BRK halts with X = 0xC1 and N set |
| Scenarios.FiveOpsWorkingTogether | src/cpu.rs:405-411 | test_5_ops_working_together: X = 0xC1 |
| Scenarios.InxOverflowRun | src/cpu.rs:413-421 | two INX from 0xFF halt with X = 1 |
| Scenarios.InxOverflow | src/cpu.rs:413-421 | test_inx_overflow: X wraps round to 1 |
| Scenarios.LdaFromMemoryRun | src/cpu.rs:423-431 | LDA $10 loads the byte written at 0x10 before the run |
| Scenarios.LdaFromMemory | src/cpu.rs:423-431 | test_lda_from_memory: A = 0x55 |
| Scenarios.LoadStoreSteps | src/cpu.rs:433-438 | LDA #v; STA abs takes two iterations and stores v |
| Scenarios.FirstRun | src/cpu.rs:433-444 | the first easy-6502 program stores 1, 5 and 8 at 0x200 to 0x202 and halts at 0x8010 |
| Scenarios.EasyFirstProgram | src/cpu.rs:433-444 | test_easy_6502_first_program: pc = 32784, X = Y = 0, A = 8 |
| Scenarios.SecondRun | src/cpu.rs:446-458 | the second program halts at 0x8007 with A = 0x84, X = 0xC1 and the status 0xB1 |
| Scenarios.EasySecondProgram | src/cpu.rs:446-458 | test_easy_6502_second_program: pc = 32775, X = 193, Y = 0, A = 132, status 0b1011_0001 |
| Scenarios.SecondSum | src/cpu.rs:287-313 | 0xC0 + 0xC4 with C clear gives 0x84 with C and N set and V clear |
| Scenarios.AdcSum | src/cpu.rs:287-313 | 0x80 + 0x80 with C clear gives 0 with C, V and Z set |
| Scenarios.AdcRun | src/cpu.rs:460-472 | the ADC program halts at 0x8007 with A = 0, status 0x73 and 0x80 stored at 0x01 |
| Scenarios.EasyAdc | src/cpu.rs:460-472 | test_easy_6502_adc: pc = 32775, X = Y = A = 0, status 0b0111_0011 |
| Scenarios.DecrementStore | src/cpu.rs:474-478 | DEX; STX $0200 lowers X by one and stores it |
| Scenarios.CompareBranchBack | src/cpu.rs:474-478 | CPX #$03 with X above 3 sets only C, and BNE goes back to 0x8002 |
| Scenarios.BranchingRound | src/cpu.rs:474-478 | one round of the countdown loop takes four iterations and lowers X by one |
| Scenarios.BranchingExit | src/cpu.rs:474-487 | the last round from X = 4 falls out of the loop, stores 3 at 0x201, and halts at 0x800E with the status 0x33 |
| Scenarios.BranchingLoop | src/cpu.rs:474-487 | from X = k at the top of the loop, the program halts after 4(k - 3) + 2 iterations with X = 3 |
| Scenarios.BranchingRun | src/cpu.rs:474-487 | the branching program halts after 23 iterations at 0x800E with X = 3 and 3 stored at 0x200 and 0x201 |
| Scenarios.EasyBranching | src/cpu.rs:474-487 | test_easy_6502_branching: pc = 32782, X = 3, Y = A = 0, status 0b0011_0011 |
| Cpu.CPU.constructor | src/cpu.rs:64-74 | the new object is `Machine.New()` |
| Cpu.CPU.MemRead | src/cpu.rs:53-56 | the byte read, or the out-of-bounds fault, is `Machine.Read` of the object |
| Cpu.CPU.MemWrite | src/cpu.rs:58-60 | the object becomes `Machine.Write` of its old state, or the fault is returned |
| Cpu.CPU.MemReadU16 | src/cpu.rs:38-42 | the word read is `Machine.Read16` of the object |
| Cpu.CPU.MemWriteU16 | src/cpu.rs:44-49 | the object becomes `Machine.Write16` of its old state |
| Cpu.CPU.GetOperandAddress | src/cpu.rs:76-129 | the address is `Machine.OperandAddress` of the object, which it does not change |
| Cpu.CPU.StackPop | src/cpu.rs:132-135 | the object and the byte returned are `Machine.Pop` of the old state |
| Cpu.CPU.StackPush | src/cpu.rs:137-140 | the object becomes `Machine.Push` of its old state |
| Cpu.CPU.StackPushU16 | src/cpu.rs:142-147 | the object becomes `Machine.Push16` of its old state |
| Cpu.CPU.StackPopU16 | src/cpu.rs:149-154 | the object and the word returned are `Machine.Pop16` of the old state |
| Cpu.CPU.Reset | src/cpu.rs:156-165 | the object becomes `Machine.Reset` of its old state |
| Cpu.CPU.Load | src/cpu.rs:167-171 | the in-place slice copy and vector write give `Machine.Load` of the old state, or its fault |
| Cpu.CPU.UpdateZeroAndNegativeFlags | src/cpu.rs:257-280 | only the status changes, to `ZeroNegative` of the old status |
| Cpu.CPU.SetRegisterA | src/cpu.rs:282-285 | A takes the value and Z/N describe it |
| Cpu.CPU.AddToRegisterA | src/cpu.rs:287-313 | A and the status become the add-with-carry of the old A, the data and the old carry |
| Cpu.CPU.Compare | src/cpu.rs:315-325 | the object becomes `Machine.Compare` of its old state, or the fault is returned |
| Cpu.CPU.Lda | src/cpu.rs:327-331 | the object becomes `Machine.Lda` of its old state, or the fault is returned |
| Cpu.CPU.Ldx | src/cpu.rs:333-338 | the object becomes `Machine.Ldx` of its old state, or the fault is returned |
| Cpu.CPU.Adc | src/cpu.rs:340-344 | the object becomes `Machine.Adc` of its old state, or the fault is returned |
| Cpu.CPU.Dex | src/cpu.rs:346-349 | the object becomes `Machine.Dex` of its old state |
| Cpu.CPU.Sta | src/cpu.rs:351-354 | the object becomes `Machine.Sta` of its old state, or the fault is returned |
| Cpu.CPU.Stx | src/cpu.rs:206-210 | the object becomes `Machine.Stx` of its old state, or the fault is returned |
| Cpu.CPU.Tax | src/cpu.rs:356-359 | the object becomes `Machine.Tax` of its old state |
| Cpu.CPU.Inx | src/cpu.rs:361-364 | the object becomes `Machine.Inx` of its old state |
| Cpu.CPU.Brk | src/cpu.rs:366-368 | the object becomes `Machine.Brk` of its old state |
| Cpu.CPU.Jsr | src/cpu.rs:215-220 | the object becomes `Machine.Jsr` of its old state, or the overflow fault is returned |
| Cpu.CPU.Bne | src/cpu.rs:227-238 | the object becomes `Machine.Bne` of its old state |
| Cpu.CPU.ExecuteInstruction | src/cpu.rs:190-249 | the signal and the object agree with `Machine.Execute` on the old state, for every opcode |
| Cpu.CPU.ExecuteOperand | src/cpu.rs:190-225 | the same for the arms that resolve an operand |
| Cpu.CPU.Step | src/cpu.rs:181-253 | one iteration of the loop ends as `Machine.Step` of the old state |
| Cpu.CPU.RunOnce | src/cpu.rs:182-253 | one pass of the loop either stops the run with the outcome of the bounded run, or leaves the object where that bounded run goes on with one pass fewer |
| Cpu.CPU.Run | src/cpu.rs:179-254 | the loop, bounded by `fuel` iterations, ends as `Machine.Run` of the old state |
| Cpu.CPU.LoadAndRun | src/cpu.rs:173-177 | the object ends as `Machine.LoadAndRun` of its old state |
| CpuTests.LdaImmediateLoadData | src/cpu.rs:375-384 | on a new CPU the run stops with A = 5 and Z and N clear |
| CpuTests.LdaZeroFlag | src/cpu.rs:386-393 | the run stops with Z set |
| CpuTests.TaxMoveAToX | src/cpu.rs:395-403 | with A preset to 10, the run stops with X = 10 |
| CpuTests.FiveOpsWorkingTogether | src/cpu.rs:405-411 | the run stops with X = 0xC1 |
| CpuTests.InxOverflow | src/cpu.rs:413-421 | with X preset to 0xFF, the run stops with X = 1 |
| CpuTests.LdaFromMemory | src/cpu.rs:423-431 | after writing 0x55 at 0x10, the run stops with A = 0x55 |
| CpuTests.EasyFirstProgram | src/cpu.rs:433-444 | the run stops with pc = 32784, X = Y = 0, A = 8 |
| CpuTests.EasySecondProgram | src/cpu.rs:446-458 | the run stops with pc = 32775, X = 193, Y = 0, A = 132, status 0b1011_0001 |
| CpuTests.EasyAdc | src/cpu.rs:460-472 | the run stops with pc = 32775, X = Y = A = 0, status 0b0111_0011 |
| CpuTests.EasyBranching | src/cpu.rs:474-487 | the run stops with pc = 32782, X = 3, Y = A = 0, status 0b0011_0011 |

## Left out

- The `println!` tracing of the loop (src/cpu.rs:184) and the commented-out debug prints: output only.
- `OPCODES_MAP` (src/cpu.rs:180) is in `crate::opcodes`, which is not part of this model. `Opcodes.Lookup` is a fixed table of the dispatched opcodes only, so an opcode such as RTS is an unknown-opcode fault here.
- The panic messages of `expect`, `todo!()` and `panic!`: a panic is only a `Fault` value. What the object holds after a fault is left unspecified, because the Rust process is gone.
- `run` loops until BRK. The model's `Run` stops after `fuel` iterations and reports `Continue` when the fuel runs out. Non-termination is therefore not modelled; a run that does end is captured by taking enough fuel (`RunProps.RunStopped`).
- Cpu.CPU.Run: does not model the unbounded loop itself, because Dafny methods here must terminate; it is the loop cut off after `fuel` iterations.
- The `u16` overflow panics of `pos + 1` at src/cpu.rs:40 and src/cpu.rs:48, and of the fetch increment at src/cpu.rs:185, are never reached. The out-of-bounds access to 0xFFFF comes first, and the model proves those additions stay in range. Only the overflows at src/cpu.rs:217 and src/cpu.rs:252 appear as faults.
- Cpu.CPU.UpdateZeroAndNegativeFlags, Cpu.CPU.AddToRegisterA and Cpu.CPU.Compare: each `if ... { status | FLAG } else { status & !FLAG }` of the Rust code is written as one call of `Flags.Assign`, which is exactly that choice.
- Cpu.CPU.ExecuteInstruction: the operand-resolving arms of the single `match code` are delegated to `ExecuteOperand`, which tests the same opcode sets with `if`s.
- The model follows a debug build, where the non-wrapping `u16` additions of the program counter (src/cpu.rs:217 and src/cpu.rs:252) panic. In a release build, with overflow checks off, they wrap silently instead: for example, an untaken BNE at 0xFFFE would move the program counter to 0x0000 and the loop would go on.
- Cycles, interrupts, decimal mode and the instructions that are not dispatched: none of them exist in this code.
- The commented-out `test_jsr` (src/cpu.rs:489-503) is not active and is not restated. Its program uses RTS, which has no dispatch arm.
- The scenario lemmas are stated for any starting machine, not only for `CPU::new()`. A lemma requires a memory byte only where the program reads it, or where the program relies on the zero byte after its end as a BRK. The `CpuTests` methods start from a new object, as the tests do.
