/**
 * Byte-level arithmetic shared by the LS-8 model.
 *
 * Every register, the flags register, the program counter and every memory
 * cell of the LS-8 is an `unsigned char`. C promotes such values to `int`
 * before computing and truncates the result back to 8 bits on assignment, so
 * the model computes on mathematical integers and reduces modulo 256 where the
 * C code stores a value. Bitwise operations are defined bit by bit.
 */
module Bits {

  /** An `unsigned char`. */
  type Byte = n: int | 0 <= n < 256

  function Pow2(n: nat): (p: nat)
    ensures p >= 1
  {
    if n == 0 then 1 else 2 * Pow2(n - 1)
  }

  /** Bit `i` of `x`, counting from the least significant bit (bit 0). */
  predicate Bit(x: nat, i: nat)
  {
    if i == 0 then x % 2 == 1 else Bit(x / 2, i - 1)
  }

  /** The bitwise operators of C that the ALU uses (`&`, `|`, `^`, `~`). */
  datatype BitOp = BitAnd | BitOr | BitXor | BitNot

  /** The effect of an operator on one pair of bits (`~` ignores its second bit). */
  predicate Combine(op: BitOp, p: bool, q: bool)
  {
    match op
    case BitAnd => p && q
    case BitOr => p || q
    case BitXor => p != q
    case BitNot => !p
  }

  /** The low `width` bits of `op` applied bit by bit to `x` and `y`. */
  function Bitwise(op: BitOp, x: nat, y: nat, width: nat): (r: nat)
    ensures r < Pow2(width)
  {
    if width == 0 then 0
    else
      2 * Bitwise(op, x / 2, y / 2, width - 1)
      + (if Combine(op, x % 2 == 1, y % 2 == 1) then 1 else 0)
  }

  /** Bit `i` of a result below `width` is the operator applied to bit `i` of the operands. */
  lemma {:induction false} BitwiseBit(op: BitOp, x: nat, y: nat, width: nat, i: nat)
    requires i < width
    ensures Bit(Bitwise(op, x, y, width), i) == Combine(op, Bit(x, i), Bit(y, i))
  {
    var q := Bitwise(op, x / 2, y / 2, width - 1);
    var r := if Combine(op, x % 2 == 1, y % 2 == 1) then 1 else 0;
    assert (2 * q + r) / 2 == q && (2 * q + r) % 2 == r;
    if i > 0 {
      BitwiseBit(op, x / 2, y / 2, width - 1, i - 1);
    }
  }

  /** A number below 2^width has no bit set at or above `width`. */
  lemma {:induction false} NoBitsAbove(x: nat, width: nat, i: nat)
    requires x < Pow2(width) && width <= i
    ensures !Bit(x, i)
  {
    if i == 0 {
      assert x == 0;
    } else if width == 0 {
      assert x == 0;
      NoBitsAbove(0, 0, i - 1);
    } else {
      NoBitsAbove(x / 2, width - 1, i - 1);
    }
  }

  /**
   * For `&`, `|` and `^` of two `width`-bit numbers, keeping `width` bits loses
   * nothing: every bit of the result, at any position, is the operator applied
   * to the operands' bits there.
   */
  lemma BitwiseExact(op: BitOp, x: nat, y: nat, width: nat, i: nat)
    requires op != BitNot
    requires x < Pow2(width) && y < Pow2(width)
    ensures Bit(Bitwise(op, x, y, width), i) == Combine(op, Bit(x, i), Bit(y, i))
  {
    if i < width {
      BitwiseBit(op, x, y, width, i);
    } else {
      NoBitsAbove(x, width, i);
      NoBitsAbove(y, width, i);
      NoBitsAbove(Bitwise(op, x, y, width), width, i);
    }
  }

  /** `~x` truncated to `width` bits is the complement 2^width - 1 - x. */
  lemma {:induction false} NotIsComplement(x: nat, y: nat, width: nat)
    requires x < Pow2(width)
    ensures Bitwise(BitNot, x, y, width) == Pow2(width) - 1 - x
  {
    if width > 0 {
      NotIsComplement(x / 2, y / 2, width - 1);
    }
  }
}
