/**
 * The LS-8 arithmetic-logic unit: the operations `alu` performs on two
 * register values. Every operation except CMP produces the new value of
 * register A; CMP produces the new flags byte.
 */
module Alu {
  import opened Bits
  import Opcodes

  /** The ALU operation tags (`enum alu_op`). */
  datatype AluOp =
    | AluMul | AluAdd | AluCmp | AluAnd | AluOr | AluXor | AluNot
    | AluShl | AluShr | AluMod

  /**
   * New value of register A for a register-writing operation, given the
   * values `a` and `b` of registers A and B. The C code computes on `int` and
   * stores into an `unsigned char`, which keeps the value modulo 256. The
   * shift amount is the whole register value B, not masked to 0..7. NOT
   * ignores `b`. MOD by zero is undefined in C, so it is excluded here.
   */
  function Apply(op: AluOp, a: Byte, b: Byte): (r: Byte)
    requires op != AluCmp
    requires op == AluMod ==> b != 0
    ensures op == AluMod ==> r < b
  {
    match op
    case AluMul => (a * b) % 256
    case AluAdd => (a + b) % 256
    case AluAnd => Bitwise(BitAnd, a, b, 8)
    case AluOr => Bitwise(BitOr, a, b, 8)
    case AluXor => Bitwise(BitXor, a, b, 8)
    case AluNot => Bitwise(BitNot, a, b, 8)
    case AluShl => (a * Pow2(b)) % 256
    case AluShr => ShiftRight(a, b)
    case AluMod => a % b
  }

  /** `a >> b` on a byte: `b` halvings, rounding down. */
  function ShiftRight(a: Byte, b: nat): (r: Byte)
    ensures r <= a
  {
    if b == 0 then a else ShiftRight(a / 2, b - 1)
  }

  /** New flags byte for CMP. */
  function Compare(a: Byte, b: Byte): (fl: Byte)
    ensures fl == Opcodes.FL_E || fl == Opcodes.FL_G || fl == Opcodes.FL_L
  {
    if a == b then Opcodes.FL_E
    else if a > b then Opcodes.FL_G
    else Opcodes.FL_L
  }

  /**
   * CMP leaves exactly one of the three flags set, the one that matches the
   * order of the two register values, and no other bit.
   */
  lemma CompareFlags(a: Byte, b: Byte)
    ensures var fl := Compare(a, b);
      && (Bit(fl, 0) <==> a == b)
      && (Bit(fl, 1) <==> a > b)
      && (Bit(fl, 2) <==> a < b)
      && (fl == 1 || fl == 2 || fl == 4)
  {
    Opcodes.FlagLayout();
  }

  /** AND, OR and XOR of two bytes give the bitwise result at every bit position. */
  lemma LogicIsBitwise(a: Byte, b: Byte, i: nat)
    ensures Bit(Apply(AluAnd, a, b), i) == (Bit(a, i) && Bit(b, i))
    ensures Bit(Apply(AluOr, a, b), i) == (Bit(a, i) || Bit(b, i))
    ensures Bit(Apply(AluXor, a, b), i) == (Bit(a, i) != Bit(b, i))
  {
    BitwiseExact(BitAnd, a, b, 8, i);
    BitwiseExact(BitOr, a, b, 8, i);
    BitwiseExact(BitXor, a, b, 8, i);
  }

  /** NOT flips each of the eight bits of A, i.e. gives 255 - A, whatever B is. */
  lemma NotIsBitwise(a: Byte, b: Byte, i: nat)
    requires i < 8
    ensures Bit(Apply(AluNot, a, b), i) == !Bit(a, i)
    ensures Apply(AluNot, a, b) == 255 - a
  {
    BitwiseBit(BitNot, a, b, 8, i);
    NotIsComplement(a, b, 8);
  }

  lemma {:induction false} ShiftRightZero(a: Byte, b: nat)
    requires a < Pow2(b)
    ensures ShiftRight(a, b) == 0
  {
    if b > 0 {
      ShiftRightZero(a / 2, b - 1);
    }
  }

  lemma {:induction false} Pow2Split(b: nat)
    requires b >= 8
    ensures Pow2(b) == 256 * Pow2(b - 8)
  {
    if b > 8 {
      Pow2Split(b - 1);
    }
  }

  /** Shifting a byte by eight or more places in either direction leaves 0. */
  lemma ShiftsPastWidth(a: Byte, b: Byte)
    requires b >= 8
    ensures Apply(AluShl, a, b) == 0
    ensures Apply(AluShr, a, b) == 0
  {
    Pow2Split(b);
    assert a * Pow2(b) == 256 * (a * Pow2(b - 8));
    Pow2Split(8);
    assert Pow2(b) >= 256 by {
      assert Pow2(b - 8) >= 1;
    }
    ShiftRightZero(a, b);
  }

  /** `a >> b` is integer division by 2^b. */
  lemma {:induction false} ShiftRightDivides(a: Byte, b: nat)
    ensures ShiftRight(a, b) == a / Pow2(b)
  {
    if b > 0 {
      ShiftRightDivides(a / 2, b - 1);
      HalveThenDivide(a, Pow2(b - 1));
    }
  }

  /** Halving and then dividing by `n` is dividing by `2 * n`. */
  lemma HalveThenDivide(x: nat, n: nat)
    requires n > 0
    ensures x / 2 / n == x / (2 * n)
  {
    var q, r2 := x / 2 / n, (x / 2) % n;
    assert x / 2 == n * q + r2;
    var rest := 2 * r2 + x % 2;
    assert x == (2 * n) * q + rest;
    assert 0 <= rest < 2 * n;
    DivisionUnique(x, 2 * n, q, rest);
  }

  lemma DivisionUnique(x: int, d: int, q: int, r: int)
    requires d > 0 && 0 <= r < d && x == d * q + r
    ensures x / d == q
  {
    var q', r' := x / d, x % d;
    assert d * q' + r' == d * q + r;
    if q' < q {
      MultipleAtLeast(d, q - q');
    } else if q' > q {
      MultipleAtLeast(d, q' - q);
    }
  }

  lemma MultipleAtLeast(d: nat, k: nat)
    requires k >= 1
    ensures d * k >= d
  {
    assert d * k == d + d * (k - 1);
  }
}
