# LS-8 byte-code machine in Dafny

This project models the execution engine of `cpu.py`, a small byte-code machine
written in Python. The machine has 256 cells of memory and 8 registers. Register 7
is the stack pointer. It also has a program counter, a flag register, and a
dispatch table of thirteen instructions: HLT, LDI, PRN, ADD, MUL, PUSH, POP, CALL,
RET, JMP, JEQ, JNE and CMP. The engine fetches one instruction at a time and
calls the handler registered for its opcode.

The model has two layers.

- `Machine` (machine.dfy) gives the meaning of every operation as a pure function
  on a `State` value. `State` holds memory, registers, `pc`, the flag, the two
  fetched operand bytes, the printed output, and a status. The status is
  `Running`, `Halted` (the process called `sys.exit`) or `Faulted` (Python raised
  an exception).
- `Cpu` (cpu.dfy) is the `CPU` class as the source has it. Memory and registers
  are arrays that its methods update in place. Each method that mirrors a
  method of the source is proved to leave the object in exactly the state the
  matching `Machine` function computes, so every property proved about
  `Machine` also holds of the object. The loop-body helper `Iteration` states
  instead how one iteration relates to the rest of the run.

The other modules are:

- `Isa` (isa.dfy): the opcode table and its decoder.
- `Properties` (properties.dfy): lemmas that relate several operations.
- `Programs` (programs.dfy): whole programs run from a given state, including
  the program that loads 8 and 9, adds them and prints 17.

Behaviour kept exactly as the code has it:

- Values are unbounded integers. Nothing is reduced to a byte, as in Python.
- Indexing follows Python lists. An index in `-n .. -1` addresses cell `i + n`.
  An index outside `-n .. n-1` raises IndexError, which becomes
  `Faulted(IndexError)`. Effects made before the failing access are kept, in
  source order. For example, PUSH lowers the stack pointer before its write fails.
- The stack pointer starts at 0, because `__init__` never sets it. The first push
  moves it to -1 and writes the last cell of memory.
- CMP writes 4 when the values are equal, 4 when the first is less, and 2 when it
  is greater. It prints the new flag value.
- JEQ jumps only when the flag holds 1, and JNE only when it holds 0. CMP writes
  neither value, so after a CMP neither instruction jumps.
  `Properties.NoConditionalJumpAfterCmp` proves this.

Where the LS-8 architecture description and the code disagree, the model follows
the code:

- The description starts the stack pointer at 244; the code leaves it at 0.
- The description says JEQ and JNE test the Equal bit that CMP sets; the code
  compares the whole flag register with 1 and 0.

## Model

| member | source | states |
|---|---|---|
| Isa.Opcode | cpu.py:16-31 | every key of the dispatch table is a byte |
| Isa.Decode | cpu.py:16-31 | a byte decodes to an instruction exactly when the dispatch table has an entry for it, and then to the instruction whose key it is |
| Isa.DecodeOpcode | cpu.py:16-31 | each of the thirteen keys decodes back to its own instruction, so the keys are distinct |
| Machine.PyIndex | cpu.py:37-39 | a list of length n accepts an index exactly when -n <= i < n; it then addresses i itself, or i + n for a negative index |
| Machine.RamRead | cpu.py:37-39 | `ram_read(mar)` yields the cell `mar` names, counting negative addresses from the top; it fails exactly outside -256 .. 255 |
| Machine.RegRead | cpu.py:163-164 | reading `reg[i]` yields the register `i` names; it fails exactly outside -8 .. 7 |
| Machine.RamWrite | cpu.py:41-43 | after `ram_write(mdr, mar)` the address reads back `mdr` and no other cell changed; an out-of-range address raises IndexError and changes nothing |
| Machine.PushValue | cpu.py:45-47 | the stack pointer always goes down by one; the cell it then names holds the value and no other cell changed; the write fails exactly when the lowered pointer is out of range |
| Machine.PopValue | cpu.py:49-52 | yields the cell the stack pointer names and the machine with the pointer raised by one; fails, changing nothing, exactly when the pointer is out of range |
| Machine.Alu | cpu.py:69-76 | "ADD" adds register b into register a, unbounded, and changes no other register; any other name fails before touching a register |
| Machine.Hlt | cpu.py:98-99 | the process exits and nothing else changes |
| Machine.Ldi | cpu.py:101-103 | register a holds the immediate b afterwards; no other register changes; `pc` advances by 3; a bad register index raises IndexError |
| Machine.Prn | cpu.py:105-107 | the value of register a is appended to the output; `pc` advances by 2; nothing else changes |
| Machine.Add | cpu.py:109-111 | register a becomes the unbounded sum of registers a and b; no other register changes; `pc` advances by 3 |
| Machine.Mul | cpu.py:113-115 | register a becomes the unbounded product of registers a and b; no other register changes; `pc` advances by 3 |
| Machine.Push | cpu.py:117-119 | the top of the stack holds the old value of register a; the pointer went down by one; `pc` advances by 2 only when the push succeeded |
| Machine.Pop | cpu.py:121-123 | register a receives the old top of the stack; the pointer went up by one before the store; `pc` advances by 2; each failure point is kept |
| Machine.Call | cpu.py:125-127 | `pc + 2` is on top of the stack and `pc` holds register a as read after the push; a failed push leaves memory unchanged, and a failed register read after the push keeps the written return address |
| Machine.Ret | cpu.py:129-130 | `pc` receives the old top of the stack and the pointer goes up by one |
| Machine.Jmp | cpu.py:133-137 | `pc` receives register a |
| Machine.Jeq | cpu.py:139-149 | `pc` receives register a exactly when the flag is 1, and otherwise advances by 2; the register is read either way |
| Machine.Jne | cpu.py:151-160 | `pc` receives register a exactly when the flag is 0, and otherwise advances by 2; the register is read either way |
| Machine.Cmp | cpu.py:162-176 | the flag is 4 exactly when a <= b and 2 exactly when a > b; the flag is printed; `pc` advances by 3 |
| Machine.Execute | cpu.py:191-192 | the dispatched handler appends at most one output line, and only HLT exits |
| Machine.Step | cpu.py:185-195 | a failed fetch raises IndexError, keeping `operandA` when only the third byte is out of range; a known opcode runs its handler on the fetched operands; an unknown opcode prints the diagnostic and exits, changing nothing else; the run exits exactly on HLT or an unknown opcode |
| Machine.Iterate | cpu.py:185-195 | a step function applied at most `fuel` times stops at once on a machine that has exited or died |
| Machine.Next | cpu.py:185-195 | one iteration of the loop appends at most one line to the output and removes none |
| Machine.Run | cpu.py:182-195 | a machine that has exited or died stays as it is |
| Machine.Init | cpu.py:10-34 | a running machine with every cell, every register, `pc` and the flag at 0 and nothing printed |
| Machine.Load | cpu.py:54-67 | the program occupies the first cells and the rest of memory is unchanged; a program longer than memory raises IndexError |
| Cpu.CPU.constructor | cpu.py:10-34 | the new object is the initial machine |
| Cpu.CPU.RamRead | cpu.py:37-39 | returns what `Machine.RamRead` gives on the object's state |
| Cpu.CPU.RamWrite | cpu.py:41-43 | the object's new state is `Machine.RamWrite` of its old state |
| Cpu.CPU.PushValue | cpu.py:45-47 | the object's new state is `Machine.PushValue` of its old state |
| Cpu.CPU.PopValue | cpu.py:49-52 | returns the popped value and leaves the state `Machine.PopValue` gives |
| Cpu.CPU.Alu | cpu.py:69-76 | the object's new state is `Machine.Alu` of its old state |
| Cpu.CPU.Hlt | cpu.py:98-99 | the object's new state is `Machine.Hlt` of its old state |
| Cpu.CPU.Ldi | cpu.py:101-103 | the object's new state is `Machine.Ldi` of its old state |
| Cpu.CPU.Prn | cpu.py:105-107 | the object's new state is `Machine.Prn` of its old state |
| Cpu.CPU.Add | cpu.py:109-111 | the object's new state is `Machine.Add` of its old state |
| Cpu.CPU.Mul | cpu.py:113-115 | the object's new state is `Machine.Mul` of its old state |
| Cpu.CPU.Push | cpu.py:117-119 | the object's new state is `Machine.Push` of its old state |
| Cpu.CPU.Pop | cpu.py:121-123 | the object's new state is `Machine.Pop` of its old state |
| Cpu.CPU.Call | cpu.py:125-127 | the object's new state is `Machine.Call` of its old state |
| Cpu.CPU.Ret | cpu.py:129-130 | the object's new state is `Machine.Ret` of its old state |
| Cpu.CPU.Jmp | cpu.py:133-137 | the object's new state is `Machine.Jmp` of its old state |
| Cpu.CPU.Jeq | cpu.py:139-149 | the object's new state is `Machine.Jeq` of its old state |
| Cpu.CPU.Jne | cpu.py:151-160 | the object's new state is `Machine.Jne` of its old state |
| Cpu.CPU.Cmp | cpu.py:162-176 | the object's new state is `Machine.Cmp` of its old state |
| Cpu.CPU.Dispatch | cpu.py:191-192 | the object's new state is `Machine.Execute` of its old state |
| Cpu.CPU.Step | cpu.py:185-195 | one iteration of the loop leaves the state `Machine.Step` gives |
| Cpu.CPU.Iteration | cpu.py:185-195 | one iteration on the object leaves a state from which the rest of the run, one iteration shorter, ends where the run from the old state would |
| Cpu.CPU.Run | cpu.py:182-195 | the loop, given `fuel` iterations, leaves the state `Machine.Run` gives |
| Cpu.CPU.Load | cpu.py:54-67 | the store loop leaves the state `Machine.Load` gives |
| Properties.NegativeAddressAliases | cpu.py:41-43 | a write to `address - 256` is read back at `address` |
| Properties.PushValueThenPopValue | cpu.py:45-52 | `pop_value` right after a successful `push_value(v)` returns v and restores every register |
| Properties.FirstPushLandsInLastCell | cpu.py:14 | from the initial state the first push moves the pointer to -1 and writes cell 255 |
| Properties.PushThenPopCopies | cpu.py:117-123 | PUSH a then POP b copies register a into register b, advances `pc` by 4, and leaves the other registers alone |
| Properties.PushThenPopRestores | cpu.py:117-123 | PUSH then POP of the same register restores the whole register file |
| Properties.CallThenRet | cpu.py:125-130 | a RET that finds the pointer and the stack top as CALL left them resumes at the CALL's `pc + 2`, with the pointer back where it was |
| Properties.CmpFlagIsTwoOrFour | cpu.py:162-176 | CMP leaves only 2 or 4 in the flag |
| Properties.NoConditionalJumpAfterCmp | cpu.py:139-176 | with the flag CMP left, neither JEQ nor JNE jumps |
| Properties.AddCommutes | cpu.py:109-111 | ADD of two distinct registers gives the same sum whichever one is the target |
| Properties.MulCommutes | cpu.py:113-115 | MUL of two distinct registers gives the same product whichever one is the target |
| Properties.AluAddAgreesWithAdd | cpu.py:69-76 | `alu("ADD", a, b)` has the ADD handler's effect on the registers, without moving `pc` |
| Properties.IterateSplit | cpu.py:185-195 | iterating any step function a + b times is iterating it a times and then b times |
| Properties.RunSplit | cpu.py:185-195 | running for a + b iterations is running for a and then for b |
| Properties.RunUnfold | cpu.py:185-195 | one more iteration of the loop on a running machine is one more step |
| Properties.IterateOutputGrows | cpu.py:185-195 | iterating a step function that appends at most one line appends at most one line per round and never removes one |
| Properties.RunOutputGrows | cpu.py:185-195 | the loop only appends to the output, at most one line per iteration |
| Properties.StoppedStaysStopped | cpu.py:185-195 | once the process has exited or died, more iterations change nothing |
| Properties.StepLdi | cpu.py:101-103 | a fetched LDI sets the named register to the byte after it and advances `pc` by 3 |
| Properties.StepAdd | cpu.py:109-111 | a fetched ADD leaves the sum in the first named register and advances `pc` by 3 |
| Properties.StepPrn | cpu.py:105-107 | a fetched PRN prints the named register and advances `pc` by 2 |
| Properties.StepHlt | cpu.py:98-99 | a fetched HLT exits and changes nothing else |
| Properties.UnknownOpcodeStops | cpu.py:193-195 | an unknown opcode prints its diagnostic and the run ends with nothing else changed |
| Programs.SumProgramAtHlt | cpu.py:98-99 | the sum program's HLT ends the run without printing |
| Programs.SumProgramAtPrn | cpu.py:105-107 | the sum program's PRN, with 17 in register 0, prints 17 and the run ends |
| Programs.SumProgramAtAdd | cpu.py:109-111 | the sum program's ADD of 8 and 9 leads to 17 being printed and the run ending |
| Programs.SumProgramAtSecondLdi | cpu.py:101-103 | the sum program's second LDI leads to 17 being printed and the run ending |
| Programs.SumProgramPrints17 | cpu.py:182-195 | from `pc` 0 the sum program prints 17 and exits within five iterations, whatever the registers held |
| Programs.SumProgramFromInit | cpu.py:54-67 | loaded into a fresh machine, the sum program prints exactly 17 and exits |
| Programs.ZeroMemoryStops | cpu.py:191-195 | a fresh machine with nothing loaded prints the unknown-opcode diagnostic for byte 0 at address 0 and exits |
| Programs.LdiThenPrnPrintsImmediate | cpu.py:101-107 | LDI of an immediate followed by PRN of the same register prints the immediate |
| Programs.RunSumProgram | cpu.py:182-195 | a new CPU object loaded with the sum program and run with enough fuel has printed exactly 17 and exited |

## Left out

- Reading the program file in `load` is I/O and is not modelled: opening the file, splitting off `#` comments, parsing binary literals and skipping unparsable lines. `Load` receives the values already decoded and models only the store loop.
- `trace` is a debugging printout that does not change the machine. It is not modelled.
- `print` and `sys.exit` are not real effects here. Printed lines go to the `out` sequence, and exiting sets the status to `Halted`.
- Python exceptions are not raised. An IndexError sets the status to `Faulted(IndexError)`, and the ALU's "Unsupported ALU operation" sets `Faulted(UnsupportedAluOperation)`. Nothing runs after either.
- Machine.Run: executes at most `fuel` iterations, while `run` in the source loops until the process exits. A program that neither exits nor faults is followed only for a finite prefix of its run.
- `operand_a` and `operand_b` start as `None` in `__init__`. The model starts them at 0. Every handler runs only after the fetch has overwritten both.
- Machine.Execute: states only what every handler shares: at most one output line, and an exit only on HLT. Each handler's own effect is in that handler's contract.
- Isa.Opcode: states only that every opcode is a byte. The values themselves are the dispatch table's keys and are pinned down by `Isa.Decode`.
