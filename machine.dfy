/**
 * The semantics of the CPU as pure functions on a snapshot of its state.
 *
 * A `State` holds what an instance of the source's `CPU` class holds: the
 * 256-cell `ram`, the 8-slot register file `reg` (register 7 is the stack
 * pointer), the program counter `pc`, the flag register `fl`, and the two
 * operand bytes of the last fetch. Two fields stand in for side effects:
 * `out` collects what the program prints, and `status` records whether the
 * process is still running, has exited (`sys.exit`), or has died with an
 * exception.
 *
 * Cells and registers are unbounded integers, as Python's are: nothing here
 * truncates a value to a byte. Indexing follows Python's list semantics: an
 * index `i` with `-n <= i < 0` addresses cell `i + n`, and anything outside
 * `-n .. n-1` raises IndexError, which ends the run with status
 * `Faulted(IndexError)`. The effects a handler has made before the failing
 * access are kept, in source order.
 */
module Machine {
  import opened Wrappers
  import opened Isa

  const RamSize: int := 256
  const RegCount: int := 8
  /** The register that holds the stack pointer. */
  const SP: nat := 7

  datatype Fault = IndexError | UnsupportedAluOperation

  datatype Status = Running | Halted | Faulted(fault: Fault)

  /** One line the machine prints: a number, or the unknown-opcode diagnostic. */
  datatype Line = Value(v: int) | UnknownInstruction(ir: int, address: int)

  datatype State = State(
    ram: seq<int>,
    reg: seq<int>,
    pc: int,
    fl: int,
    operandA: int,
    operandB: int,
    out: seq<Line>,
    status: Status)

  predicate WellFormed(m: State) {
    |m.ram| == RamSize && |m.reg| == RegCount
  }

  /** A well-formed machine whose process has neither exited nor died. */
  predicate Live(m: State) {
    WellFormed(m) && m.status == Running
  }

  /** The machine at the moment an IndexError is raised. */
  function Raise(m: State): State {
    m.(status := Faulted(IndexError))
  }

  // ---------------------------------------------------------------------------
  // Memory and register file

  /** Python's list indexing on a list of length `n`; None stands for IndexError. */
  function PyIndex(i: int, n: int): (r: Option<nat>)
    requires 0 <= n
    ensures r.Some? <==> -n <= i < n
    ensures r.Some? ==> r.value < n && (r.value == i || r.value == i + n)
  {
    if 0 <= i < n then Some(i)
    else if -n <= i < 0 then Some(i + n)
    else None
  }

  function RamIndex(address: int): Option<nat> {
    PyIndex(address, RamSize)
  }

  function RegIndex(i: int): Option<nat> {
    PyIndex(i, RegCount)
  }

  /** `ram_read(mar)`: the cell at `mar`, or None where Python raises IndexError. */
  function RamRead(m: State, mar: int): (r: Option<int>)
    requires WellFormed(m)
    ensures r.Some? <==> -RamSize <= mar < RamSize
    ensures 0 <= mar < RamSize ==> r == Some(m.ram[mar])
    ensures -RamSize <= mar < 0 ==> r == Some(m.ram[mar + RamSize])
  {
    match RamIndex(mar)
    case Some(a) => Some(m.ram[a])
    case None => None
  }

  /** The register expression `self.reg[i]`. */
  function RegRead(m: State, i: int): (r: Option<int>)
    requires WellFormed(m)
    ensures r.Some? <==> -RegCount <= i < RegCount
    ensures 0 <= i < RegCount ==> r == Some(m.reg[i])
    ensures -RegCount <= i < 0 ==> r == Some(m.reg[i + RegCount])
  {
    match RegIndex(i)
    case Some(k) => Some(m.reg[k])
    case None => None
  }

  /** Every register other than the one `i` names holds in `r` what it held in `m`. */
  predicate RegsKeptExcept(m: State, r: State, i: int)
    requires WellFormed(m) && WellFormed(r)
  {
    forall k :: 0 <= k < RegCount && RegIndex(i) != Some(k) ==> r.reg[k] == m.reg[k]
  }

  /** Every cell other than the one `address` names holds in `r` what it held in `m`. */
  predicate RamKeptExcept(m: State, r: State, address: int)
    requires WellFormed(m) && WellFormed(r)
  {
    forall k :: 0 <= k < RamSize && RamIndex(address) != Some(k) ==> r.ram[k] == m.ram[k]
  }

  /**
   * `ram_write(mdr, mar)`: afterwards `mar` reads back `mdr` and no other cell
   * changed; an address outside the list raises IndexError and writes nothing.
   */
  function RamWrite(m: State, mdr: int, mar: int): (r: State)
    requires Live(m)
    ensures WellFormed(r) && r.(ram := m.ram, status := m.status) == m
    ensures r.status == Running <==> -RamSize <= mar < RamSize
    ensures r.status != Running ==> r == Raise(m)
    ensures r.status == Running ==> RamRead(r, mar) == Some(mdr) && RamKeptExcept(m, r, mar)
  {
    match RamIndex(mar)
    case Some(a) => m.(ram := m.ram[a := mdr])
    case None => Raise(m)
  }

  // ---------------------------------------------------------------------------
  // The stack

  /**
   * `push_value(value)`: the stack pointer moves down by exactly one, and then
   * the cell it now names holds `value`. The decrement happens even when the
   * write raises IndexError.
   */
  function PushValue(m: State, value: int): (r: State)
    requires Live(m)
    ensures WellFormed(r) && r.(ram := m.ram, reg := m.reg, status := m.status) == m
    ensures r.reg == m.reg[SP := m.reg[SP] - 1]
    ensures r.status == Running <==> RamIndex(m.reg[SP] - 1).Some?
    ensures r.status != Running ==> r.ram == m.ram && r.status == Faulted(IndexError)
    ensures r.status == Running ==>
      RamRead(r, r.reg[SP]) == Some(value) && RamKeptExcept(m, r, r.reg[SP])
  {
    var moved := m.(reg := m.reg[SP := m.reg[SP] - 1]);
    RamWrite(moved, value, moved.reg[SP])
  }

  /**
   * `pop_value()`: the value in the cell the stack pointer names, and the
   * machine with the stack pointer moved up by exactly one. None when the
   * read raises IndexError, in which case nothing has changed.
   */
  function PopValue(m: State): (r: Option<(int, State)>)
    requires Live(m)
    ensures r.Some? <==> RamIndex(m.reg[SP]).Some?
    ensures r.Some? ==>
      Some(r.value.0) == RamRead(m, m.reg[SP]) &&
      r.value.1 == m.(reg := m.reg[SP := m.reg[SP] + 1])
  {
    match RamRead(m, m.reg[SP])
    case None => None
    case Some(v) => Some((v, m.(reg := m.reg[SP := m.reg[SP] + 1])))
  }

  // ---------------------------------------------------------------------------
  // The ALU

  /**
   * `alu(op, reg_a, reg_b)`: only "ADD" is implemented, and it adds register
   * `reg_b` into register `reg_a` without reducing the sum to a byte. Any other
   * name fails with "Unsupported ALU operation" before a register is touched.
   */
  function Alu(m: State, op: string, regA: int, regB: int): (r: State)
    requires Live(m)
    ensures WellFormed(r) && r.(reg := m.reg, status := m.status) == m
    ensures op != "ADD" ==> r == m.(status := Faulted(UnsupportedAluOperation))
    ensures op == "ADD" ==> (r.status == Running <==> RegIndex(regA).Some? && RegIndex(regB).Some?)
    ensures op == "ADD" && r.status != Running ==> r == Raise(m)
    ensures op == "ADD" && r.status == Running ==>
      RegRead(r, regA) == Some(RegRead(m, regA).value + RegRead(m, regB).value) &&
      RegsKeptExcept(m, r, regA)
  {
    if op == "ADD" then
      match (RegIndex(regA), RegIndex(regB))
      case (Some(a), Some(b)) => m.(reg := m.reg[a := m.reg[a] + m.reg[b]])
      case _ => Raise(m)
    else
      m.(status := Faulted(UnsupportedAluOperation))
  }

  // ---------------------------------------------------------------------------
  // The instruction handlers. Each one reads its operands from the fields
  // `operandA` and `operandB` that the fetch has just filled in.

  /** HLT: the process exits; nothing else changes. */
  function Hlt(m: State): (r: State)
    requires Live(m)
    ensures r.status == Halted && r.(status := m.status) == m
  {
    m.(status := Halted)
  }

  /** LDI: register `a` receives the immediate `b`; only it and `pc` change. */
  function Ldi(m: State): (r: State)
    requires Live(m)
    ensures WellFormed(r) && r.(reg := m.reg, pc := m.pc, status := m.status) == m
    ensures r.status == Running <==> RegIndex(m.operandA).Some?
    ensures r.status != Running ==> r == Raise(m)
    ensures r.status == Running ==>
      RegRead(r, m.operandA) == Some(m.operandB) && RegsKeptExcept(m, r, m.operandA) &&
      r.pc == m.pc + 3
  {
    match RegIndex(m.operandA)
    case Some(a) => m.(reg := m.reg[a := m.operandB], pc := m.pc + 3)
    case None => Raise(m)
  }

  /** PRN: register `a` is printed; only the output and `pc` change. */
  function Prn(m: State): (r: State)
    requires Live(m)
    ensures WellFormed(r) && r.(out := m.out, pc := m.pc, status := m.status) == m
    ensures r.status == Running <==> RegIndex(m.operandA).Some?
    ensures r.status != Running ==> r == Raise(m)
    ensures r.status == Running ==>
      r.out == m.out + [Value(RegRead(m, m.operandA).value)] && r.pc == m.pc + 2
  {
    match RegRead(m, m.operandA)
    case Some(v) => m.(out := m.out + [Value(v)], pc := m.pc + 2)
    case None => Raise(m)
  }

  /** ADD: register `a` becomes the unbounded sum of registers `a` and `b`. */
  function Add(m: State): (r: State)
    requires Live(m)
    ensures WellFormed(r) && r.(reg := m.reg, pc := m.pc, status := m.status) == m
    ensures r.status == Running <==> RegIndex(m.operandA).Some? && RegIndex(m.operandB).Some?
    ensures r.status != Running ==> r == Raise(m)
    ensures r.status == Running ==>
      RegRead(r, m.operandA) == Some(RegRead(m, m.operandA).value + RegRead(m, m.operandB).value) &&
      RegsKeptExcept(m, r, m.operandA) && r.pc == m.pc + 3
  {
    match (RegIndex(m.operandA), RegIndex(m.operandB))
    case (Some(a), Some(b)) => m.(reg := m.reg[a := m.reg[a] + m.reg[b]], pc := m.pc + 3)
    case _ => Raise(m)
  }

  /** MUL: register `a` becomes the unbounded product of registers `a` and `b`. */
  function Mul(m: State): (r: State)
    requires Live(m)
    ensures WellFormed(r) && r.(reg := m.reg, pc := m.pc, status := m.status) == m
    ensures r.status == Running <==> RegIndex(m.operandA).Some? && RegIndex(m.operandB).Some?
    ensures r.status != Running ==> r == Raise(m)
    ensures r.status == Running ==>
      RegRead(r, m.operandA) == Some(RegRead(m, m.operandA).value * RegRead(m, m.operandB).value) &&
      RegsKeptExcept(m, r, m.operandA) && r.pc == m.pc + 3
  {
    match (RegIndex(m.operandA), RegIndex(m.operandB))
    case (Some(a), Some(b)) => m.(reg := m.reg[a := m.reg[a] * m.reg[b]], pc := m.pc + 3)
    case _ => Raise(m)
  }

  /**
   * PUSH: register `a` is read first (before the stack pointer moves), then
   * pushed; `pc` advances only when the push succeeded.
   */
  function Push(m: State): (r: State)
    requires Live(m)
    ensures WellFormed(r) && r.(ram := m.ram, reg := m.reg, pc := m.pc, status := m.status) == m
    ensures RegIndex(m.operandA).None? ==> r == Raise(m)
    ensures RegIndex(m.operandA).Some? ==> r.reg == m.reg[SP := m.reg[SP] - 1]
    ensures r.status == Running <==> RegIndex(m.operandA).Some? && RamIndex(m.reg[SP] - 1).Some?
    ensures r.status != Running ==> r.ram == m.ram && r.pc == m.pc && r.status == Faulted(IndexError)
    ensures r.status == Running ==>
      RamRead(r, r.reg[SP]) == RegRead(m, m.operandA) && RamKeptExcept(m, r, r.reg[SP]) &&
      r.pc == m.pc + 2
  {
    match RegRead(m, m.operandA)
    case None => Raise(m)
    case Some(v) =>
      var pushed := PushValue(m, v);
      if pushed.status == Running then pushed.(pc := m.pc + 2) else pushed
  }

  /**
   * POP: the value is popped first (moving the stack pointer up), then stored
   * in register `a`; when `a` names the stack pointer the stored value wins.
   */
  function Pop(m: State): (r: State)
    requires Live(m)
    ensures WellFormed(r) && r.(reg := m.reg, pc := m.pc, status := m.status) == m
    ensures r.status == Running <==> RamIndex(m.reg[SP]).Some? && RegIndex(m.operandA).Some?
    ensures RamIndex(m.reg[SP]).None? ==> r == Raise(m)
    ensures RamIndex(m.reg[SP]).Some? && RegIndex(m.operandA).None? ==>
      r == Raise(m.(reg := m.reg[SP := m.reg[SP] + 1]))
    ensures r.status == Running ==>
      RegRead(r, m.operandA) == RamRead(m, m.reg[SP]) &&
      RegsKeptExcept(m.(reg := m.reg[SP := m.reg[SP] + 1]), r, m.operandA) &&
      r.pc == m.pc + 2
  {
    match PopValue(m)
    case None => Raise(m)
    case Some((v, popped)) =>
      match RegIndex(m.operandA)
      case Some(a) => popped.(reg := popped.reg[a := v], pc := m.pc + 2)
      case None => Raise(popped)
  }

  /**
   * CALL: the return address `pc + 2` is pushed, and then `pc` is set to
   * register `a`, read after the push (so a CALL through the stack pointer
   * register jumps to the decremented stack pointer). When that register read
   * raises IndexError, the return address has already been written.
   */
  function Call(m: State): (r: State)
    requires Live(m)
    ensures WellFormed(r) && r.(ram := m.ram, reg := m.reg, pc := m.pc, status := m.status) == m
    ensures r.reg == m.reg[SP := m.reg[SP] - 1]
    ensures r.status == Running <==> RamIndex(m.reg[SP] - 1).Some? && RegIndex(m.operandA).Some?
    ensures r.status != Running ==> r.pc == m.pc && r.status == Faulted(IndexError)
    ensures RamIndex(m.reg[SP] - 1).None? ==> r.ram == m.ram
    ensures RamIndex(m.reg[SP] - 1).Some? ==>
      RamRead(r, r.reg[SP]) == Some(m.pc + 2) && RamKeptExcept(m, r, r.reg[SP])
    ensures r.status == Running ==> Some(r.pc) == RegRead(r, m.operandA)
  {
    var pushed := PushValue(m, m.pc + 2);
    if pushed.status != Running then pushed
    else match RegRead(pushed, m.operandA)
      case Some(target) => pushed.(pc := target)
      case None => Raise(pushed)
  }

  /** RET: `pc` receives the popped value. */
  function Ret(m: State): (r: State)
    requires Live(m)
    ensures WellFormed(r) && r.(reg := m.reg, pc := m.pc, status := m.status) == m
    ensures r.status == Running <==> RamIndex(m.reg[SP]).Some?
    ensures r.status != Running ==> r == Raise(m)
    ensures r.status == Running ==>
      Some(r.pc) == RamRead(m, m.reg[SP]) && r.reg == m.reg[SP := m.reg[SP] + 1]
  {
    match PopValue(m)
    case None => Raise(m)
    case Some((address, popped)) => popped.(pc := address)
  }

  /** JMP: `pc` receives register `a`. */
  function Jmp(m: State): (r: State)
    requires Live(m)
    ensures WellFormed(r) && r.(pc := m.pc, status := m.status) == m
    ensures r.status == Running <==> RegIndex(m.operandA).Some?
    ensures r.status != Running ==> r == Raise(m)
    ensures r.status == Running ==> Some(r.pc) == RegRead(m, m.operandA)
  {
    match RegRead(m, m.operandA)
    case Some(address) => m.(pc := address)
    case None => Raise(m)
  }

  /**
   * JEQ: register `a` is always read; `pc` receives it exactly when the flag
   * register holds 1, and otherwise moves past the instruction.
   */
  function Jeq(m: State): (r: State)
    requires Live(m)
    ensures WellFormed(r) && r.(pc := m.pc, status := m.status) == m
    ensures r.status == Running <==> RegIndex(m.operandA).Some?
    ensures r.status != Running ==> r == Raise(m)
    ensures r.status == Running && m.fl == 1 ==> Some(r.pc) == RegRead(m, m.operandA)
    ensures r.status == Running && m.fl != 1 ==> r.pc == m.pc + 2
  {
    match RegRead(m, m.operandA)
    case Some(address) => if m.fl == 1 then m.(pc := address) else m.(pc := m.pc + 2)
    case None => Raise(m)
  }

  /**
   * JNE: register `a` is always read; `pc` receives it exactly when the flag
   * register holds 0, and otherwise moves past the instruction.
   */
  function Jne(m: State): (r: State)
    requires Live(m)
    ensures WellFormed(r) && r.(pc := m.pc, status := m.status) == m
    ensures r.status == Running <==> RegIndex(m.operandA).Some?
    ensures r.status != Running ==> r == Raise(m)
    ensures r.status == Running && m.fl == 0 ==> Some(r.pc) == RegRead(m, m.operandA)
    ensures r.status == Running && m.fl != 0 ==> r.pc == m.pc + 2
  {
    match RegRead(m, m.operandA)
    case Some(address) => if m.fl == 0 then m.(pc := address) else m.(pc := m.pc + 2)
    case None => Raise(m)
  }

  /**
   * CMP: three independent tests in turn overwrite the flag register: 4 when
   * the values are equal, 4 when the first is less, 2 when it is greater.
   * The new flag value is printed.
   */
  function Cmp(m: State): (r: State)
    requires Live(m)
    ensures WellFormed(r) && r.(fl := m.fl, out := m.out, pc := m.pc, status := m.status) == m
    ensures r.status == Running <==> RegIndex(m.operandA).Some? && RegIndex(m.operandB).Some?
    ensures r.status != Running ==> r == Raise(m)
    ensures r.status == Running ==>
      var x, y := RegRead(m, m.operandA).value, RegRead(m, m.operandB).value;
      (r.fl == 4 <==> x <= y) && (r.fl == 2 <==> x > y) &&
      r.out == m.out + [Value(r.fl)] && r.pc == m.pc + 3
  {
    match (RegRead(m, m.operandA), RegRead(m, m.operandB))
    case (Some(x), Some(y)) =>
      var fl := if x == y then 4 else m.fl;    // 0b0000100
      var fl := if x < y then 4 else fl;       // 0b00000100
      var fl := if x > y then 2 else fl;       // 0b00000010
      m.(fl := fl, out := m.out + [Value(fl)], pc := m.pc + 3)
    case _ => Raise(m)
  }

  // ---------------------------------------------------------------------------
  // Dispatch and the fetch loop

  /** The dispatch table: the handler registered for each instruction. */
  function Execute(op: Op, m: State): (r: State)
    requires Live(m)
    ensures WellFormed(r)
    ensures m.out <= r.out && |r.out| <= |m.out| + 1
    ensures r.status == Halted <==> op == HLT
    ensures r.status == Running || r.status == Halted || r.status == Faulted(IndexError)
  {
    match op
    case HLT => Hlt(m)
    case LDI => Ldi(m)
    case PRN => Prn(m)
    case MUL => Mul(m)
    case ADD => Add(m)
    case PUSH => Push(m)
    case POP => Pop(m)
    case RET => Ret(m)
    case CALL => Call(m)
    case CMP => Cmp(m)
    case JNE => Jne(m)
    case JEQ => Jeq(m)
    case JMP => Jmp(m)
  }

  /** The three bytes at `pc`, `pc + 1` and `pc + 2` can all be read. */
  predicate CanFetch(m: State) {
    -RamSize <= m.pc && m.pc + 2 < RamSize
  }

  /** The byte the fetch loop reads at `pc`. */
  function Instruction(m: State): int
    requires WellFormed(m) && CanFetch(m)
  {
    RamRead(m, m.pc).value
  }

  /** The machine once the fetch has put the two bytes after `pc` into `operandA` and `operandB`. */
  function Fetched(m: State): State
    requires WellFormed(m) && CanFetch(m)
  {
    m.(operandA := RamRead(m, m.pc + 1).value, operandB := RamRead(m, m.pc + 2).value)
  }

  /**
   * One iteration of `run`'s loop: read `ram[pc]`, then `ram[pc + 1]` into
   * `operandA` and `ram[pc + 2]` into `operandB`, whatever the opcode; then
   * call the registered handler, or print the diagnostic and exit when the
   * byte has no handler. Only HLT and an unknown byte end the run normally;
   * an unknown byte leaves registers, memory, `pc` and the flag untouched.
   */
  function Step(m: State): (r: State)
    requires Live(m)
    ensures WellFormed(r)
    ensures m.out <= r.out && |r.out| <= |m.out| + 1
    ensures !CanFetch(m) ==>
      r.status == Faulted(IndexError) && r.reg == m.reg && r.ram == m.ram && r.pc == m.pc &&
      r.fl == m.fl && r.out == m.out
    ensures -RamSize <= m.pc && m.pc + 1 < RamSize <= m.pc + 2 ==>
      r.operandA == RamRead(m, m.pc + 1).value
    ensures CanFetch(m) && Decode(Instruction(m)).Some? ==>
      r == Execute(Decode(Instruction(m)).value, Fetched(m))
    ensures CanFetch(m) && Decode(Instruction(m)).None? ==>
      r.status == Halted && r.reg == m.reg && r.ram == m.ram && r.pc == m.pc && r.fl == m.fl &&
      r.out == m.out + [UnknownInstruction(Instruction(m), m.pc)]
    ensures r.status == Halted <==>
      CanFetch(m) && (Decode(Instruction(m)).None? || Decode(Instruction(m)) == Some(HLT))
  {
    match RamRead(m, m.pc)
    case None => Raise(m)
    case Some(ir) =>
      match RamRead(m, m.pc + 1)
      case None => Raise(m)
      case Some(a) =>
        var decoded := m.(operandA := a);
        match RamRead(decoded, m.pc + 2)
        case None => Raise(decoded)
        case Some(b) =>
          var decoded := decoded.(operandB := b);
          match Decode(ir)
          case Some(op) => Execute(op, decoded)
          case None =>
            decoded.(out := m.out + [UnknownInstruction(ir, m.pc)], status := Halted)
  }

  /**
   * `next` applied at most `fuel` times, stopping as soon as the status is no
   * longer `Running`.
   */
  function Iterate(next: State -> State, m: State, fuel: nat): (r: State)
    ensures m.status != Running ==> r == m
    decreases fuel
  {
    if fuel == 0 || m.status != Running then m
    else Iterate(next, next(m), fuel - 1)
  }

  /**
   * One iteration of the loop on a live machine; a machine that is not live
   * is left as it is. Like `Step`, it prints at most one line.
   */
  function Next(m: State): (r: State)
    ensures m.out <= r.out && |r.out| <= |m.out| + 1
  {
    if Live(m) then Step(m) else m
  }

  /**
   * At most `fuel` iterations of `run`'s loop, stopping as soon as the
   * process exits or dies. (The source loops without bound.)
   */
  function Run(m: State, fuel: nat): (r: State)
    ensures m.status != Running ==> r == m
  {
    Iterate(Next, m, fuel)
  }

  // ---------------------------------------------------------------------------
  // Construction and loading

  /** `__init__`: everything zero, nothing printed, running. */
  function Init(): (m: State)
    ensures Live(m) && m.pc == 0 && m.fl == 0 && m.out == []
    ensures forall k :: 0 <= k < RamSize ==> m.ram[k] == 0
    ensures forall k :: 0 <= k < RegCount ==> m.reg[k] == 0
  {
    State(seq(RamSize, _ => 0), seq(RegCount, _ => 0), 0, 0, 0, 0, [], Running)
  }

  /**
   * The store half of `load`: the values decoded from the program file are
   * written to successive cells from address 0. A 257th value raises
   * IndexError after the first 256 have been written.
   */
  function Load(m: State, program: seq<int>): (r: State)
    requires WellFormed(m)
    ensures WellFormed(r) && r.(ram := m.ram, status := m.status) == m
    ensures forall k :: 0 <= k < |program| && k < RamSize ==> r.ram[k] == program[k]
    ensures |program| <= RamSize ==>
      r.status == m.status && forall k :: |program| <= k < RamSize ==> r.ram[k] == m.ram[k]
    ensures |program| > RamSize ==> r.status == Faulted(IndexError)
  {
    if |program| <= RamSize then m.(ram := program + m.ram[|program|..])
    else m.(ram := program[..RamSize], status := Faulted(IndexError))
  }
}
