/**
 * Properties of the machine that relate several operations: the round trips
 * of memory, stack, and call/return, the flag values CMP can produce and what
 * the conditional jumps make of them, the arithmetic handlers, and the
 * behaviour of the fetch loop over many iterations.
 */
module Properties {
  import opened Wrappers
  import opened Isa
  import opened Machine

  // ---------------------------------------------------------------------------
  // Memory

  /**
   * A write to `address - 256` lands in the cell `address` names: Python's
   * negative indices alias the top of memory.
   */
  lemma NegativeAddressAliases(m: State, value: int, address: int)
    requires Live(m) && 0 <= address < RamSize
    ensures RamWrite(m, value, address - RamSize).status == Running
    ensures RamRead(RamWrite(m, value, address - RamSize), address) == Some(value)
  {
  }

  // ---------------------------------------------------------------------------
  // The stack

  /**
   * `pop_value()` right after a successful `push_value(value)` returns `value`
   * and restores every register; the written cell is the only trace left.
   */
  lemma PushValueThenPopValue(m: State, value: int)
    requires Live(m) && RamIndex(m.reg[SP] - 1).Some?
    ensures PopValue(PushValue(m, value)) == Some((value, PushValue(m, value).(reg := m.reg)))
  {
    var pushed := PushValue(m, value);
    assert pushed.reg[SP := pushed.reg[SP] + 1] == m.reg;
  }

  /**
   * From the initial state the stack pointer is 0, so the first push moves it
   * to -1 and stores the value in the last cell of memory.
   */
  lemma FirstPushLandsInLastCell(value: int)
    ensures PushValue(Init(), value).status == Running
    ensures PushValue(Init(), value).reg[SP] == -1
    ensures PushValue(Init(), value).ram[RamSize - 1] == value
  {
  }

  /**
   * PUSH of register `a` followed by POP into register `target` copies the
   * value across, advances `pc` by 4 and leaves every other register,
   * the stack pointer included, as it was.
   */
  lemma PushThenPopCopies(m: State, target: int)
    requires Live(m) && Push(m).status == Running && RegIndex(target).Some?
    ensures var popped := Pop(Push(m).(operandA := target));
      popped.status == Running && popped.pc == m.pc + 4 &&
      RegRead(popped, target) == RegRead(m, m.operandA) &&
      RegsKeptExcept(m, popped, target)
  {
  }

  /** PUSH then POP of the same register restores the whole register file. */
  lemma PushThenPopRestores(m: State)
    requires Live(m) && Push(m).status == Running
    ensures Pop(Push(m)).status == Running
    ensures Pop(Push(m)).reg == m.reg && Pop(Push(m)).pc == m.pc + 4
  {
    var pushed := Push(m);
    var popped := Pop(pushed);
    PushThenPopCopies(m, m.operandA);
    assert pushed.(operandA := m.operandA) == pushed;
    assert popped.reg == m.reg by {
      forall k | 0 <= k < RegCount
        ensures popped.reg[k] == m.reg[k]
      {
        if RegIndex(m.operandA) == Some(k) {
          assert RegRead(popped, m.operandA) == Some(popped.reg[k]);
        }
      }
    }
  }

  /**
   * CALL followed, after any code that leaves the stack pointer and the cell
   * it names as CALL left them, by RET: execution resumes two bytes past the
   * CALL's opcode and the stack pointer is back where it was before the CALL.
   */
  lemma CallThenRet(m: State, later: State)
    requires Live(m) && Call(m).status == Running
    requires Live(later) && later.reg[SP] == Call(m).reg[SP]
    requires RamRead(later, later.reg[SP]) == RamRead(Call(m), later.reg[SP])
    ensures Ret(later).status == Running
    ensures Ret(later).pc == m.pc + 2
    ensures Ret(later).reg == later.reg[SP := m.reg[SP]]
  {
  }

  // ---------------------------------------------------------------------------
  // Comparison and conditional jumps

  /** CMP only ever leaves 4 (equal or less) or 2 (greater) in the flag register. */
  lemma CmpFlagIsTwoOrFour(m: State)
    requires Live(m) && Cmp(m).status == Running
    ensures Cmp(m).fl == 2 || Cmp(m).fl == 4
  {
  }

  /**
   * Whatever a CMP found, a later JEQ or JNE that sees its flag does not jump:
   * JEQ waits for 1 and JNE for 0, and CMP writes neither.
   */
  lemma NoConditionalJumpAfterCmp(m: State, later: State)
    requires Live(m) && Cmp(m).status == Running
    requires Live(later) && later.fl == Cmp(m).fl && RegIndex(later.operandA).Some?
    ensures Jeq(later).status == Running && Jeq(later).pc == later.pc + 2
    ensures Jne(later).status == Running && Jne(later).pc == later.pc + 2
  {
    CmpFlagIsTwoOrFour(m);
  }

  // ---------------------------------------------------------------------------
  // Arithmetic

  /** ADD on two distinct registers leaves the same sum whichever is the target. */
  lemma AddCommutes(m: State, i: int, j: int)
    requires Live(m) && RegIndex(i).Some? && RegIndex(j).Some? && RegIndex(i) != RegIndex(j)
    ensures RegRead(Add(m.(operandA := i, operandB := j)), i) ==
            RegRead(Add(m.(operandA := j, operandB := i)), j)
  {
  }

  /** MUL on two distinct registers leaves the same product whichever is the target. */
  lemma MulCommutes(m: State, i: int, j: int)
    requires Live(m) && RegIndex(i).Some? && RegIndex(j).Some? && RegIndex(i) != RegIndex(j)
    ensures RegRead(Mul(m.(operandA := i, operandB := j)), i) ==
            RegRead(Mul(m.(operandA := j, operandB := i)), j)
  {
  }

  /** `alu("ADD", a, b)` has the ADD handler's effect, except that it leaves `pc` alone. */
  lemma AluAddAgreesWithAdd(m: State)
    requires Live(m)
    ensures Alu(m, "ADD", m.operandA, m.operandB) ==
            (var added := Add(m); if added.status == Running then added.(pc := m.pc) else added)
  {
  }

  // ---------------------------------------------------------------------------
  // The fetch loop

  /**
   * Iterating any step function for `a + b` rounds is iterating it for `a`
   * rounds and then for `b` more.
   */
  lemma {:induction false} IterateSplit(next: State -> State, m: State, a: nat, b: nat)
    ensures Iterate(next, m, a + b) == Iterate(next, Iterate(next, m, a), b)
    decreases a
  {
    if a > 0 && m.status == Running {
      IterateSplit(next, next(m), a - 1, b);
    }
  }

  /** Running for `a + b` iterations is running for `a` and then for `b` more. */
  lemma RunSplit(m: State, a: nat, b: nat)
    ensures Run(m, a + b) == Run(Run(m, a), b)
  {
    IterateSplit(Next, m, a, b);
  }

  /** One more iteration of the loop on a running machine is one more step. */
  lemma RunUnfold(m: State, fuel: nat)
    requires Live(m) && fuel > 0
    ensures Run(m, fuel) == Run(Step(m), fuel - 1)
  {
  }

  /**
   * Iterating a step function that only appends to the output, at most one
   * line at a time, appends at most one line per round.
   */
  lemma {:induction false} IterateOutputGrows(next: State -> State, m: State, fuel: nat)
    requires forall s: State :: s.out <= next(s).out && |next(s).out| <= |s.out| + 1
    ensures m.out <= Iterate(next, m, fuel).out
    ensures |Iterate(next, m, fuel).out| <= |m.out| + fuel
    decreases fuel
  {
    if fuel > 0 && m.status == Running {
      IterateOutputGrows(next, next(m), fuel - 1);
    }
  }

  /** The loop only ever appends to the output, at most one line per iteration. */
  lemma RunOutputGrows(m: State, fuel: nat)
    ensures m.out <= Run(m, fuel).out && |Run(m, fuel).out| <= |m.out| + fuel
  {
    IterateOutputGrows(Next, m, fuel);
  }

  /**
   * Once the process has exited or died, no further instruction executes:
   * more fuel changes nothing.
   */
  lemma StoppedStaysStopped(m: State, n: nat, more: nat)
    requires WellFormed(m) && Run(m, n).status != Running
    ensures Run(m, n + more) == Run(m, n)
  {
    RunSplit(m, n, more);
  }

  /**
   * A fetched LDI with register operand `a` and immediate `b` sets register
   * `a` to `b` and advances `pc` by 3; memory, the flag, the output and the
   * other registers are as they were.
   */
  lemma StepLdi(m: State)
    requires Live(m) && 0 <= m.pc && m.pc + 2 < RamSize && m.ram[m.pc] == Opcode(LDI)
    requires 0 <= m.ram[m.pc + 1] < RegCount
    ensures Step(m).status == Running
    ensures Step(m).reg == m.reg[m.ram[m.pc + 1] := m.ram[m.pc + 2]]
    ensures Step(m).pc == m.pc + 3
    ensures Step(m).ram == m.ram && Step(m).fl == m.fl && Step(m).out == m.out
  {
    DecodeOpcode(LDI);
    var r := Step(m);
    assert r == Ldi(Fetched(m));
    assert r.reg == m.reg[m.ram[m.pc + 1] := m.ram[m.pc + 2]] by {
      forall k | 0 <= k < RegCount
        ensures r.reg[k] == m.reg[m.ram[m.pc + 1] := m.ram[m.pc + 2]][k]
      {
        if k == m.ram[m.pc + 1] {
          assert RegRead(r, k) == Some(r.reg[k]);
        }
      }
    }
  }

  /**
   * A fetched ADD with register operands `a` and `b` sets register `a` to the
   * unbounded sum of the two and advances `pc` by 3; nothing else changes.
   */
  lemma StepAdd(m: State)
    requires Live(m) && 0 <= m.pc && m.pc + 2 < RamSize && m.ram[m.pc] == Opcode(ADD)
    requires 0 <= m.ram[m.pc + 1] < RegCount && 0 <= m.ram[m.pc + 2] < RegCount
    ensures var a, b := m.ram[m.pc + 1], m.ram[m.pc + 2];
      Step(m).status == Running && Step(m).reg == m.reg[a := m.reg[a] + m.reg[b]]
    ensures Step(m).pc == m.pc + 3
    ensures Step(m).ram == m.ram && Step(m).fl == m.fl && Step(m).out == m.out
  {
    DecodeOpcode(ADD);
    var r := Step(m);
    var a, b := m.ram[m.pc + 1], m.ram[m.pc + 2];
    assert r == Add(Fetched(m));
    assert r.reg == m.reg[a := m.reg[a] + m.reg[b]] by {
      forall k | 0 <= k < RegCount
        ensures r.reg[k] == m.reg[a := m.reg[a] + m.reg[b]][k]
      {
        if k == a {
          assert RegRead(r, k) == Some(r.reg[k]);
        }
      }
    }
  }

  /** A fetched PRN of register `a` prints it and advances `pc` by 2; nothing else changes. */
  lemma StepPrn(m: State)
    requires Live(m) && 0 <= m.pc && m.pc + 2 < RamSize && m.ram[m.pc] == Opcode(PRN)
    requires 0 <= m.ram[m.pc + 1] < RegCount
    ensures Step(m).status == Running
    ensures Step(m).out == m.out + [Value(m.reg[m.ram[m.pc + 1]])]
    ensures Step(m).pc == m.pc + 2
    ensures Step(m).reg == m.reg && Step(m).ram == m.ram && Step(m).fl == m.fl
  {
    DecodeOpcode(PRN);
    assert Step(m) == Prn(Fetched(m));
  }

  /** A fetched HLT ends the run and changes nothing else. */
  lemma StepHlt(m: State)
    requires Live(m) && 0 <= m.pc && m.pc + 2 < RamSize && m.ram[m.pc] == Opcode(HLT)
    ensures Step(m).status == Halted
    ensures Step(m).reg == m.reg && Step(m).ram == m.ram && Step(m).pc == m.pc
    ensures Step(m).fl == m.fl && Step(m).out == m.out
  {
    DecodeOpcode(HLT);
    assert Step(m) == Hlt(Fetched(m));
  }

  /** A byte with no entry in the dispatch table stops the loop after printing the diagnostic. */
  lemma UnknownOpcodeStops(m: State, fuel: nat)
    requires Live(m) && CanFetch(m) && Decode(Instruction(m)).None? && fuel >= 1
    ensures Run(m, fuel).status == Halted
    ensures Run(m, fuel).out == m.out + [UnknownInstruction(Instruction(m), m.pc)]
    ensures Run(m, fuel).reg == m.reg && Run(m, fuel).ram == m.ram
    ensures Run(m, fuel).pc == m.pc && Run(m, fuel).fl == m.fl
  {
    RunUnfold(m, fuel);
  }
}
