/**
 * The CPU as the source has it: an object whose memory and register file are
 * mutable arrays and whose handlers update its fields in place. Every method
 * is proved to have exactly the effect the matching function of module
 * `Machine` gives to a snapshot of the object, so everything proved about
 * those functions holds of the object.
 *
 * An IndexError raised inside a method is recorded by setting `status` to
 * `Faulted(IndexError)` and returning at once; a caller that sees a status
 * other than `Running` returns at once too, as the exception would have
 * unwound it.
 */
module Cpu {
  import opened Wrappers
  import opened Isa
  import M = Machine
  import Properties

  class CPU {
    const ram: array<int>
    const reg: array<int>
    var pc: int
    var fl: int
    var operandA: int
    var operandB: int
    /** What the program has printed so far. */
    var out: seq<M.Line>
    /** Whether the process still runs, has exited, or has died with an exception. */
    var status: M.Status

    ghost predicate Valid()
      reads this
    {
      ram.Length == M.RamSize && reg.Length == M.RegCount
    }

    /** The object's state as a value of module `Machine`. */
    ghost function Snapshot(): M.State
      reads this, ram, reg
      requires Valid()
    {
      M.State(ram[..], reg[..], pc, fl, operandA, operandB, out, status)
    }

    /** `__init__`: 256 zero cells, 8 zero registers (the stack pointer included), `pc` and the flag zero. */
    constructor ()
      ensures Valid() && fresh(ram) && fresh(reg)
      ensures Snapshot() == M.Init()
    {
      ram := new int[M.RamSize](_ => 0);
      reg := new int[M.RegCount](_ => 0);
      pc := 0;
      fl := 0;
      operandA, operandB := 0, 0;
      out := [];
      status := M.Running;
      new;
      assert ram[..] == seq(M.RamSize, _ => 0);
      assert reg[..] == seq(M.RegCount, _ => 0);
    }

    /** `ram_read(mar)`; None where Python raises IndexError. */
    method RamRead(mar: int) returns (value: Option<int>)
      requires Valid()
      ensures value == M.RamRead(Snapshot(), mar)
    {
      match M.RamIndex(mar)
      case Some(a) => value := Some(ram[a]);
      case None => value := None;
    }

    /** `ram_write(mdr, mar)`. */
    method RamWrite(mdr: int, mar: int)
      requires Valid() && status == M.Running
      modifies this, ram
      ensures Valid()
      ensures Snapshot() == M.RamWrite(old(Snapshot()), mdr, mar)
    {
      match M.RamIndex(mar)
      case Some(a) => ram[a] := mdr;
      case None => status := M.Faulted(M.IndexError);
    }

    /** `push_value(value)`. */
    method PushValue(value: int)
      requires Valid() && status == M.Running
      modifies this, ram, reg
      ensures Valid()
      ensures Snapshot() == M.PushValue(old(Snapshot()), value)
    {
      reg[M.SP] := reg[M.SP] - 1;
      RamWrite(value, reg[M.SP]);
    }

    /** `pop_value()`; None where reading the top of the stack raises IndexError. */
    method PopValue() returns (value: Option<int>)
      requires Valid() && status == M.Running
      modifies reg
      ensures Valid()
      ensures match M.PopValue(old(Snapshot()))
        case None => value.None? && Snapshot() == old(Snapshot())
        case Some((v, after)) => value == Some(v) && Snapshot() == after
    {
      value := RamRead(reg[M.SP]);
      if value.Some? {
        reg[M.SP] := reg[M.SP] + 1;
      }
    }

    /** `alu(op, reg_a, reg_b)`. */
    method Alu(op: string, regA: int, regB: int)
      requires Valid() && status == M.Running
      modifies this, reg
      ensures Valid()
      ensures Snapshot() == M.Alu(old(Snapshot()), op, regA, regB)
    {
      if op == "ADD" {
        match (M.RegIndex(regA), M.RegIndex(regB))
        case (Some(a), Some(b)) => reg[a] := reg[a] + reg[b];
        case _ => status := M.Faulted(M.IndexError);
      } else {
        status := M.Faulted(M.UnsupportedAluOperation);
      }
    }

    method Hlt()
      requires Valid() && status == M.Running
      modifies this
      ensures Valid()
      ensures Snapshot() == M.Hlt(old(Snapshot()))
    {
      status := M.Halted;
    }

    method Ldi()
      requires Valid() && status == M.Running
      modifies this, reg
      ensures Valid()
      ensures Snapshot() == M.Ldi(old(Snapshot()))
    {
      match M.RegIndex(operandA)
      case Some(a) =>
        reg[a] := operandB;
        pc := pc + 3;
      case None => status := M.Faulted(M.IndexError);
    }

    method Prn()
      requires Valid() && status == M.Running
      modifies this
      ensures Valid()
      ensures Snapshot() == M.Prn(old(Snapshot()))
    {
      match M.RegIndex(operandA)
      case Some(a) =>
        out := out + [M.Value(reg[a])];
        pc := pc + 2;
      case None => status := M.Faulted(M.IndexError);
    }

    method Add()
      requires Valid() && status == M.Running
      modifies this, reg
      ensures Valid()
      ensures Snapshot() == M.Add(old(Snapshot()))
    {
      match (M.RegIndex(operandA), M.RegIndex(operandB))
      case (Some(a), Some(b)) =>
        reg[a] := reg[a] + reg[b];
        pc := pc + 3;
      case _ => status := M.Faulted(M.IndexError);
    }

    method Mul()
      requires Valid() && status == M.Running
      modifies this, reg
      ensures Valid()
      ensures Snapshot() == M.Mul(old(Snapshot()))
    {
      match (M.RegIndex(operandA), M.RegIndex(operandB))
      case (Some(a), Some(b)) =>
        reg[a] := reg[a] * reg[b];
        pc := pc + 3;
      case _ => status := M.Faulted(M.IndexError);
    }

    method Push()
      requires Valid() && status == M.Running
      modifies this, ram, reg
      ensures Valid()
      ensures Snapshot() == M.Push(old(Snapshot()))
    {
      match M.RegIndex(operandA)
      case Some(a) =>
        PushValue(reg[a]);
        if status == M.Running {
          pc := pc + 2;
        }
      case None => status := M.Faulted(M.IndexError);
    }

    method Pop()
      requires Valid() && status == M.Running
      modifies this, reg
      ensures Valid()
      ensures Snapshot() == M.Pop(old(Snapshot()))
    {
      var value := PopValue();
      if value.None? {
        status := M.Faulted(M.IndexError);
        return;
      }
      match M.RegIndex(operandA)
      case Some(a) =>
        reg[a] := value.value;
        pc := pc + 2;
      case None => status := M.Faulted(M.IndexError);
    }

    method Call()
      requires Valid() && status == M.Running
      modifies this, ram, reg
      ensures Valid()
      ensures Snapshot() == M.Call(old(Snapshot()))
    {
      PushValue(pc + 2);
      if status != M.Running {
        return;
      }
      match M.RegIndex(operandA)
      case Some(a) => pc := reg[a];
      case None => status := M.Faulted(M.IndexError);
    }

    method Ret()
      requires Valid() && status == M.Running
      modifies this, reg
      ensures Valid()
      ensures Snapshot() == M.Ret(old(Snapshot()))
    {
      var address := PopValue();
      match address
      case Some(target) => pc := target;
      case None => status := M.Faulted(M.IndexError);
    }

    method Jmp()
      requires Valid() && status == M.Running
      modifies this
      ensures Valid()
      ensures Snapshot() == M.Jmp(old(Snapshot()))
    {
      match M.RegIndex(operandA)
      case Some(a) => pc := reg[a];
      case None => status := M.Faulted(M.IndexError);
    }

    method Jeq()
      requires Valid() && status == M.Running
      modifies this
      ensures Valid()
      ensures Snapshot() == M.Jeq(old(Snapshot()))
    {
      match M.RegIndex(operandA)
      case Some(a) =>
        var address := reg[a];
        if fl == 1 {
          pc := address;
        } else {
          pc := pc + 2;
        }
      case None => status := M.Faulted(M.IndexError);
    }

    method Jne()
      requires Valid() && status == M.Running
      modifies this
      ensures Valid()
      ensures Snapshot() == M.Jne(old(Snapshot()))
    {
      match M.RegIndex(operandA)
      case Some(a) =>
        var address := reg[a];
        if fl == 0 {
          pc := address;
        } else {
          pc := pc + 2;
        }
      case None => status := M.Faulted(M.IndexError);
    }

    method Cmp()
      requires Valid() && status == M.Running
      modifies this
      ensures Valid()
      ensures Snapshot() == M.Cmp(old(Snapshot()))
    {
      match (M.RegIndex(operandA), M.RegIndex(operandB))
      case (Some(a), Some(b)) =>
        var valueA, valueB := reg[a], reg[b];
        if valueA == valueB {
          fl := 4;  // 0b0000100
        }
        if valueA < valueB {
          fl := 4;  // 0b00000100
        }
        if valueA > valueB {
          fl := 2;  // 0b00000010
        }
        out := out + [M.Value(fl)];
        pc := pc + 3;
      case _ => status := M.Faulted(M.IndexError);
    }

    /** One iteration of `run`'s loop: fetch three bytes, then dispatch. */
    method Step()
      requires Valid() && status == M.Running
      modifies this, ram, reg
      ensures Valid()
      ensures Snapshot() == M.Step(old(Snapshot()))
    {
      var ir := RamRead(pc);
      if ir.None? {
        status := M.Faulted(M.IndexError);
        return;
      }
      var a := RamRead(pc + 1);
      if a.None? {
        status := M.Faulted(M.IndexError);
        return;
      }
      operandA := a.value;
      var b := RamRead(pc + 2);
      if b.None? {
        status := M.Faulted(M.IndexError);
        return;
      }
      operandB := b.value;
      match Decode(ir.value)
      case Some(op) => Dispatch(op);
      case None =>
        out := out + [M.UnknownInstruction(ir.value, pc)];
        status := M.Halted;
    }

    /** `self.branch_table[ir]()`: call the handler registered for `op`. */
    method Dispatch(op: Op)
      requires Valid() && status == M.Running
      modifies this, ram, reg
      ensures Valid()
      ensures Snapshot() == M.Execute(op, old(Snapshot()))
    {
      match op
      case HLT => Hlt();
      case LDI => Ldi();
      case PRN => Prn();
      case MUL => Mul();
      case ADD => Add();
      case PUSH => Push();
      case POP => Pop();
      case RET => Ret();
      case CALL => Call();
      case CMP => Cmp();
      case JNE => Jne();
      case JEQ => Jeq();
      case JMP => Jmp();
    }

    /**
     * `run`, for at most `fuel` iterations: the loop ends when the process
     * exits or dies, or when the fuel is spent.
     */
    method Run(fuel: nat)
      requires Valid()
      modifies this, ram, reg
      ensures Valid()
      ensures Snapshot() == M.Run(old(Snapshot()), fuel)
    {
      var remaining := fuel;
      ghost var target := M.Run(Snapshot(), fuel);
      while remaining > 0 && status == M.Running
        invariant Valid()
        invariant M.Run(Snapshot(), remaining) == target
      {
        Iteration(remaining);
        remaining := remaining - 1;
      }
    }

    /**
     * One iteration of `run`'s loop, seen from the loop: with `fuel`
     * iterations left, the rest of the run from the new state, one iteration
     * shorter, ends where the run from the old state would have.
     */
    method Iteration(ghost fuel: nat)
      requires Valid() && status == M.Running && fuel > 0
      modifies this, ram, reg
      ensures Valid()
      ensures M.Run(Snapshot(), fuel - 1) == M.Run(old(Snapshot()), fuel)
    {
      ghost var before := Snapshot();
      Step();
      Properties.RunUnfold(before, fuel);
    }

    /** The store loop of `load`, given the values already decoded from the file. */
    method Load(program: seq<int>)
      requires Valid()
      modifies this, ram
      ensures Valid()
      ensures Snapshot() == M.Load(old(Snapshot()), program)
    {
      var address := 0;
      while address < |program|
        invariant 0 <= address <= |program| && address <= M.RamSize
        invariant Valid()
        invariant forall k :: 0 <= k < address ==> ram[k] == program[k]
        invariant forall k :: address <= k < M.RamSize ==> ram[k] == old(ram[k])
        invariant pc == old(pc) && fl == old(fl) && out == old(out) && status == old(status)
        invariant operandA == old(operandA) && operandB == old(operandB)
      {
        if address == M.RamSize {
          status := M.Faulted(M.IndexError);
          assert ram[..] == program[..M.RamSize];
          return;
        }
        ram[address] := program[address];
        address := address + 1;
      }
      assert ram[..] == program + old(ram[..])[|program|..];
    }
  }
}
