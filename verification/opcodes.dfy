/**
 * The LS-8 instruction encoding: opcode bytes, the decoder and the layout of
 * the flags register.
 *
 * The opcode byte itself says how many operand bytes follow it: bit 7 set
 * means two operands, otherwise bit 6 set means one, otherwise none. The
 * instruction is then identified by the exact byte value.
 */
module Opcodes {
  import opened Bits

  datatype Option<T> = None | Some(value: T)

  // Opcodes declared in the machine header.
  const LDI: Byte := 0x82   // 0b10000010, load immediate
  const HLT: Byte := 0x01   // 0b00000001, halt
  const PRN: Byte := 0x47   // 0b01000111, print register
  const MUL: Byte := 0xA2   // 0b10100010
  const ADD: Byte := 0xA0   // 0b10100000
  const PUSH: Byte := 0x45  // 0b01000101
  const POP: Byte := 0x46   // 0b01000110
  const CALL: Byte := 0x50  // 0b01010000
  const RET: Byte := 0x11   // 0b00010001

  // Opcodes the executor dispatches on but the header never defines; these
  // are their values in the LS-8 instruction set.
  const CMP: Byte := 0xA7
  const AND: Byte := 0xA8
  const OR: Byte := 0xAA
  const XOR: Byte := 0xAB
  const NOT: Byte := 0x69
  const SHL: Byte := 0xAC
  const SHR: Byte := 0xAD
  const MOD: Byte := 0xA4
  const JMP: Byte := 0x54
  const JEQ: Byte := 0x55
  const JNE: Byte := 0x56

  // Flags register layout 00000LGE.
  const FL_E: Byte := 0x01  // bit 0: equal
  const FL_G: Byte := 0x02  // bit 1: greater than
  const FL_L: Byte := 0x04  // bit 2: less than

  /** Every instruction the executor recognises. */
  datatype Instruction =
    | Ldi | Hlt | Prn
    | Mul | Add | Cmp | And | Or | Xor | Not | Shl | Shr | Mod
    | Push | Pop | Call | Ret
    | Jmp | Jeq | Jne

  function Opcode(i: Instruction): Byte
  {
    match i
    case Ldi => LDI
    case Hlt => HLT
    case Prn => PRN
    case Mul => MUL
    case Add => ADD
    case Cmp => CMP
    case And => AND
    case Or => OR
    case Xor => XOR
    case Not => NOT
    case Shl => SHL
    case Shr => SHR
    case Mod => MOD
    case Push => PUSH
    case Pop => POP
    case Call => CALL
    case Ret => RET
    case Jmp => JMP
    case Jeq => JEQ
    case Jne => JNE
  }

  /** How many operand bytes each instruction's effect reads. */
  function Operands(i: Instruction): nat
  {
    match i
    case Ldi | Mul | Add | Cmp | And | Or | Xor | Shl | Shr | Mod => 2
    case Prn | Not | Push | Pop | Call | Jmp | Jeq | Jne => 1
    case Hlt | Ret => 0
  }

  /** Dispatch on the exact opcode byte; `None` is an unrecognised byte. */
  function Decode(ir: Byte): (r: Option<Instruction>)
    ensures r.Some? ==> Opcode(r.value) == ir
  {
    if ir == LDI then Some(Ldi)
    else if ir == HLT then Some(Hlt)
    else if ir == PRN then Some(Prn)
    else if ir == MUL then Some(Mul)
    else if ir == ADD then Some(Add)
    else if ir == CMP then Some(Cmp)
    else if ir == AND then Some(And)
    else if ir == OR then Some(Or)
    else if ir == XOR then Some(Xor)
    else if ir == NOT then Some(Not)
    else if ir == SHL then Some(Shl)
    else if ir == SHR then Some(Shr)
    else if ir == MOD then Some(Mod)
    else if ir == PUSH then Some(Push)
    else if ir == POP then Some(Pop)
    else if ir == CALL then Some(Call)
    else if ir == RET then Some(Ret)
    else if ir == JMP then Some(Jmp)
    else if ir == JEQ then Some(Jeq)
    else if ir == JNE then Some(Jne)
    else None
  }

  /** Operand count read off the opcode: bit 7 gives two, else bit 6 gives one. */
  function OperandCount(ir: Byte): (n: nat)
    ensures n <= 2
  {
    if Bit(ir, 7) then 2 else if Bit(ir, 6) then 1 else 0
  }

  /** Instruction length in bytes: the opcode plus its operands. */
  function Length(ir: Byte): (n: nat)
    ensures 1 <= n <= 3
  {
    OperandCount(ir) + 1
  }

  /** Decoding an instruction's own opcode gives the instruction back. */
  lemma DecodeOpcode(i: Instruction)
    ensures Decode(Opcode(i)) == Some(i)
  {
  }

  /** A byte decodes to nothing exactly when it is no instruction's opcode. */
  lemma UnknownIffNoOpcode(ir: Byte)
    ensures Decode(ir).None? <==> forall i: Instruction :: Opcode(i) != ir
  {
    if Decode(ir).None? {
      forall i: Instruction ensures Opcode(i) != ir {
        DecodeOpcode(i);
      }
    }
  }

  /** No two instructions share an opcode, so dispatch is unambiguous. */
  lemma OpcodesDistinct(i: Instruction, j: Instruction)
    requires i != j
    ensures Opcode(i) != Opcode(j)
  {
    DecodeOpcode(i);
    DecodeOpcode(j);
  }

  /**
   * Every opcode obeys the operand-count convention: the bits of its byte
   * announce exactly as many operands as the instruction uses.
   */
  lemma ArityConvention(i: Instruction)
    ensures OperandCount(Opcode(i)) == Operands(i)
    ensures Length(Opcode(i)) == Operands(i) + 1
  {
  }

  /** The flags sit at bits 0 (E), 1 (G) and 2 (L), one bit each. */
  lemma FlagLayout()
    ensures Bit(FL_E, 0) && !Bit(FL_E, 1) && !Bit(FL_E, 2)
    ensures Bit(FL_G, 1) && !Bit(FL_G, 0) && !Bit(FL_G, 2)
    ensures Bit(FL_L, 2) && !Bit(FL_L, 0) && !Bit(FL_L, 1)
    ensures FL_E < 8 && FL_G < 8 && FL_L < 8
  {
  }
}
