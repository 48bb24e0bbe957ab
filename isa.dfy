/**
 * The instruction set of the machine: the thirteen opcode bytes that have an
 * entry in the CPU's dispatch table (`branch_table`), and the lookup the fetch
 * loop performs on every fetched byte.
 */
module Isa {
  import opened Wrappers

  /** The instructions that have a handler. */
  datatype Op = HLT | LDI | PRN | MUL | ADD | PUSH | POP | RET | CALL | CMP | JNE | JEQ | JMP

  /** The byte under which each handler is registered in the dispatch table. */
  function Opcode(op: Op): (b: int)
    ensures 0 <= b < 256
  {
    match op
    case HLT => 1   // 00000001
    case LDI => 130 // 10000010
    case PRN => 71  // 01000111
    case MUL => 162 // 10100010
    case ADD => 160 // 10100000
    case PUSH => 69  // 01000101
    case POP => 70  // 01000110
    case RET => 17  // 00010001
    case CALL => 80  // 01010000
    case CMP => 167 // 10100111
    case JNE => 86  // 01010110
    case JEQ => 85  // 01010101
    case JMP => 84  // 01010100
  }

  /**
   * The dispatch-table lookup `ir in branch_table`: the instruction registered
   * under the fetched value, or None when the value has no entry.
   */
  function Decode(ir: int): (r: Option<Op>)
    ensures r.Some? ==> Opcode(r.value) == ir
    ensures r.None? ==> forall op: Op :: Opcode(op) != ir
  {
    if ir == Opcode(HLT) then Some(HLT)
    else if ir == Opcode(LDI) then Some(LDI)
    else if ir == Opcode(PRN) then Some(PRN)
    else if ir == Opcode(MUL) then Some(MUL)
    else if ir == Opcode(ADD) then Some(ADD)
    else if ir == Opcode(PUSH) then Some(PUSH)
    else if ir == Opcode(POP) then Some(POP)
    else if ir == Opcode(RET) then Some(RET)
    else if ir == Opcode(CALL) then Some(CALL)
    else if ir == Opcode(CMP) then Some(CMP)
    else if ir == Opcode(JNE) then Some(JNE)
    else if ir == Opcode(JEQ) then Some(JEQ)
    else if ir == Opcode(JMP) then Some(JMP)
    else None
  }

  /** Every registered opcode is found again by the lookup: no two handlers share a byte. */
  lemma DecodeOpcode(op: Op)
    ensures Decode(Opcode(op)) == Some(op)
  {
    match op
    case HLT => case LDI => case PRN => case MUL => case ADD => case PUSH => case POP =>
    case RET => case CALL => case CMP => case JNE => case JEQ => case JMP =>
  }
}
