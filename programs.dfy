/**
 * Whole programs run on the machine, from the initial state of `__init__`.
 */
module Programs {
  import opened Wrappers
  import opened Isa
  import opened Machine
  import Properties
  import Cpu

  /** LDI r0,8; LDI r1,9; ADD r0,r1; PRN r0; HLT. */
  const SumProgram: seq<int> := [130, 0, 8, 130, 1, 9, 160, 0, 1, 71, 0, 1]

  /** The first `|program|` cells of memory hold `program`. */
  predicate Holds(m: State, program: seq<int>)
    requires WellFormed(m)
  {
    |program| <= RamSize && forall k :: 0 <= k < |program| ==> m.ram[k] == program[k]
  }

  // The sum program is followed one instruction at a time: each lemma below
  // starts at one of its instructions and ends where the program does.

  /** At `pc` 11 the HLT stops the loop; nothing more is printed. */
  lemma SumProgramAtHlt(m: State, fuel: nat)
    requires Live(m) && Holds(m, SumProgram) && m.pc == 11 && fuel >= 1
    ensures Run(m, fuel).out == m.out && Run(m, fuel).status == Halted
  {
    assert m.ram[11] == Opcode(HLT);
    Properties.StepHlt(m);
    Properties.RunUnfold(m, fuel);
  }

  /** At `pc` 9, with 17 in register 0, PRN prints 17 and HLT follows. */
  lemma SumProgramAtPrn(m: State, fuel: nat)
    requires Live(m) && Holds(m, SumProgram) && m.pc == 9 && fuel >= 2 && m.reg[0] == 17
    ensures Run(m, fuel).out == m.out + [Value(17)] && Run(m, fuel).status == Halted
  {
    assert m.ram[9] == Opcode(PRN) && m.ram[10] == 0;
    Properties.StepPrn(m);
    Properties.RunUnfold(m, fuel);
    SumProgramAtHlt(Step(m), fuel - 1);
  }

  /** At `pc` 6, with 8 and 9 in registers 0 and 1, ADD leaves 17 in register 0. */
  lemma SumProgramAtAdd(m: State, fuel: nat)
    requires Live(m) && Holds(m, SumProgram) && m.pc == 6 && fuel >= 3 && m.reg[0] == 8 && m.reg[1] == 9
    ensures Run(m, fuel).out == m.out + [Value(17)] && Run(m, fuel).status == Halted
  {
    assert m.ram[6] == Opcode(ADD) && m.ram[7] == 0 && m.ram[8] == 1;
    Properties.StepAdd(m);
    Properties.RunUnfold(m, fuel);
    SumProgramAtPrn(Step(m), fuel - 1);
  }

  /** At `pc` 3, with 8 in register 0, the second LDI loads 9 into register 1. */
  lemma SumProgramAtSecondLdi(m: State, fuel: nat)
    requires Live(m) && Holds(m, SumProgram) && m.pc == 3 && fuel >= 4 && m.reg[0] == 8
    ensures Run(m, fuel).out == m.out + [Value(17)] && Run(m, fuel).status == Halted
  {
    assert m.ram[3] == Opcode(LDI) && m.ram[4] == 1 && m.ram[5] == 9;
    Properties.StepLdi(m);
    Properties.RunUnfold(m, fuel);
    SumProgramAtAdd(Step(m), fuel - 1);
  }

  /**
   * A running machine whose memory starts with the sum program and whose `pc`
   * is 0 prints 17 and exits after five instructions, whatever its registers
   * held; nothing runs after that.
   */
  lemma SumProgramPrints17(m: State, fuel: nat)
    requires Live(m) && Holds(m, SumProgram) && m.pc == 0 && fuel >= 5
    ensures Run(m, fuel).out == m.out + [Value(17)] && Run(m, fuel).status == Halted
  {
    assert m.ram[0] == Opcode(LDI) && m.ram[1] == 0 && m.ram[2] == 8;
    Properties.StepLdi(m);
    Properties.RunUnfold(m, fuel);
    SumProgramAtSecondLdi(Step(m), fuel - 1);
  }

  /** Loaded into a fresh machine, the sum program prints 17 and exits. */
  lemma SumProgramFromInit(fuel: nat)
    requires fuel >= 5
    ensures Run(Load(Init(), SumProgram), fuel).out == [Value(17)]
    ensures Run(Load(Init(), SumProgram), fuel).status == Halted
  {
    SumProgramPrints17(Load(Init(), SumProgram), fuel);
  }

  /**
   * Memory that holds only zeros starts with byte 0, which has no handler:
   * the diagnostic names opcode 0 at address 0 and the loop stops.
   */
  lemma ZeroMemoryStops(fuel: nat)
    requires fuel >= 1
    ensures Run(Init(), fuel).out == [UnknownInstruction(0, 0)]
    ensures Run(Init(), fuel).status == Halted
  {
    assert Decode(0).None?;
    Properties.UnknownOpcodeStops(Init(), fuel);
  }

  /**
   * LDI of an immediate into a register followed by PRN of that register
   * prints the immediate.
   */
  lemma LdiThenPrnPrintsImmediate(m: State, r: int, v: int)
    requires Live(m) && 0 <= m.pc <= RamSize - 6 && RegIndex(r).Some?
    requires m.ram[m.pc .. m.pc + 5] == [Opcode(LDI), r, v, Opcode(PRN), r]
    ensures Run(m, 2).out == m.out + [Value(v)]
    ensures Run(m, 2).pc == m.pc + 5 && Run(m, 2).status == Running
  {
    ghost var code := m.ram[m.pc .. m.pc + 5];
    assert m.ram[m.pc] == code[0] && m.ram[m.pc + 1] == code[1] && m.ram[m.pc + 2] == code[2];
    assert m.ram[m.pc + 3] == code[3] && m.ram[m.pc + 4] == code[4];
    DecodeOpcode(LDI);
    DecodeOpcode(PRN);
    var m1 := Step(m);
    assert m1.ram == m.ram && m1.pc == m.pc + 3 && RegRead(m1, r) == Some(v);
    var m2 := Step(m1);
    assert m2.out == m.out + [Value(v)];
    Properties.RunUnfold(m, 2);
    Properties.RunUnfold(m1, 1);
  }

  /**
   * The sum program on a CPU object: loaded and run with any fuel that
   * covers its five instructions, it has printed 17 and exited.
   */
  method RunSumProgram(fuel: nat) returns (out: seq<Line>, status: Status)
    requires fuel >= 5
    ensures out == [Value(17)] && status == Halted
  {
    var cpu := new Cpu.CPU();
    cpu.Load(SumProgram);
    ghost var loaded := cpu.Snapshot();
    SumProgramPrints17(loaded, fuel);
    cpu.Run(fuel);
    out, status := cpu.out, cpu.status;
  }
}
