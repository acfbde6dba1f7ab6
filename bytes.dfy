/**
 * Fixed-width unsigned integers of the C machine state and the bitwise
 * operators the interpreter applies to them. Values are mathematical
 * integers restricted to the width; wrap-around is written out where the
 * C code relies on it, and the bitwise operators are defined bit by bit.
 */
module Bytes {

  /** A C `uint8_t`. */
  type byte = x: int | 0 <= x < 0x100

  /** A C `uint16_t`. */
  type u16 = x: int | 0 <= x < 0x1_0000

  /** Truncation of an int to `uint8_t`, as an assignment to a `uint8_t` does. */
  function Wrap8(x: int): (r: byte)
    ensures 0 <= x < 0x100 ==> r == x
    ensures (x - r) % 0x100 == 0
  {
    x % 0x100
  }

  /** Truncation of an int to `uint16_t`. */
  function Wrap16(x: int): (r: u16)
    ensures 0 <= x < 0x1_0000 ==> r == x
    ensures (x - r) % 0x1_0000 == 0
  {
    x % 0x1_0000
  }

  function Pow2(k: nat): (p: nat)
    ensures p >= 1
  {
    if k == 0 then 1 else 2 * Pow2(k - 1)
  }

  lemma {:induction false} Pow2Monotone(j: nat, k: nat)
    requires j <= k
    ensures Pow2(j) <= Pow2(k)
    decreases k
  {
    if j < k {
      Pow2Monotone(j, k - 1);
    }
  }

  /** Bit `i` of `a`, bit 0 being the least significant. */
  function Bit(a: nat, i: nat): (b: nat)
    ensures b < 2
  {
    if i == 0 then a % 2 else Bit(a / 2, i - 1)
  }

  datatype BitOp = And | Or | Xor

  function ApplyBit(op: BitOp, a: nat, b: nat): (r: nat)
    requires a < 2 && b < 2
    ensures r < 2
  {
    match op
    case And => if a == 1 && b == 1 then 1 else 0
    case Or => if a == 1 || b == 1 then 1 else 0
    case Xor => if a != b then 1 else 0
  }

  /** The bitwise operator `op` on two naturals, least significant bit first. */
  function Bitwise(op: BitOp, a: nat, b: nat): nat
    decreases a + b
  {
    if a == 0 && b == 0 then 0
    else ApplyBit(op, a % 2, b % 2) + 2 * Bitwise(op, a / 2, b / 2)
  }

  /** A bitwise operator on `w`-bit operands gives a `w`-bit result. */
  lemma {:induction false} BitwiseWidth(op: BitOp, a: nat, b: nat, w: nat)
    requires a < Pow2(w) && b < Pow2(w)
    ensures Bitwise(op, a, b) < Pow2(w)
    decreases a + b
  {
    if !(a == 0 && b == 0) {
      BitwiseWidth(op, a / 2, b / 2, w - 1);
    }
  }

  lemma Pow2Eight()
    ensures Pow2(8) == 0x100
  {
  }

  /** C's `a & b` on two `uint8_t` values. */
  function And8(a: byte, b: byte): byte
  {
    Pow2Eight();
    BitwiseWidth(And, a, b, 8);
    Bitwise(And, a, b)
  }

  /** C's `a | b` on two `uint8_t` values. */
  function Or8(a: byte, b: byte): byte
  {
    Pow2Eight();
    BitwiseWidth(Or, a, b, 8);
    Bitwise(Or, a, b)
  }

  /** C's `a ^ b` on two `uint8_t` values. */
  function Xor8(a: byte, b: byte): byte
  {
    Pow2Eight();
    BitwiseWidth(Xor, a, b, 8);
    Bitwise(Xor, a, b)
  }

  lemma {:induction false} BitwiseXorTwice(a: nat, b: nat)
    ensures Bitwise(Xor, Bitwise(Xor, a, b), b) == a
    decreases a + b
  {
    if !(a == 0 && b == 0) {
      BitwiseXorTwice(a / 2, b / 2);
      var r := Bitwise(Xor, a, b);
      if r != 0 || b != 0 {
        assert r / 2 == Bitwise(Xor, a / 2, b / 2);
      }
    }
  }

  lemma {:induction false} BitwiseZero(op: BitOp, a: nat)
    ensures Bitwise(op, a, 0) == if op == And then 0 else a
    decreases a
  {
    if a != 0 {
      BitwiseZero(op, a / 2);
    }
  }

  /** `a & (1 << k)` keeps exactly bit `k` of `a`. */
  lemma {:induction false} BitwiseAndPow2(a: nat, k: nat)
    ensures Bitwise(And, a, Pow2(k)) == if Bit(a, k) == 1 then Pow2(k) else 0
    decreases k
  {
    if k == 0 {
      BitwiseZero(And, a / 2);
    } else {
      BitwiseAndPow2(a / 2, k - 1);
    }
  }

  /** XOR-ing the same value twice is the identity. */
  lemma XorTwice(a: byte, b: byte)
    ensures Xor8(Xor8(a, b), b) == a
  {
    BitwiseXorTwice(a, b);
  }

  /** XOR and OR with zero leave a byte unchanged; AND with zero clears it. */
  lemma ZeroOperand(a: byte)
    ensures Xor8(a, 0) == a && Or8(a, 0) == a && And8(a, 0) == 0
  {
    BitwiseZero(Xor, a);
    BitwiseZero(Or, a);
    BitwiseZero(And, a);
  }

  /** `a & (1 << i)`, for a bit `i` of a byte, tests bit `i`. */
  lemma MaskTestsBit(a: byte, i: nat)
    requires i < 8
    ensures Pow2(i) < 0x100
    ensures (And8(a, Pow2(i)) != 0) == (Bit(a, i) == 1)
  {
    Pow2Monotone(i, 7);
    BitwiseAndPow2(a, i);
  }

  // The draw loop combines bytes with a pixel value that is 0 or 1; these
  // are C's `&`, `|` and `^` for such a right operand.

  function AndBit(a: byte, b: byte): (r: byte)
    requires b < 2
    ensures r < 2
  {
    if b == 1 then a % 2 else 0
  }

  function OrBit(a: byte, b: byte): byte
    requires b < 2
  {
    if b == 1 && a % 2 == 0 then a + 1 else a
  }

  function XorBit(a: byte, b: byte): byte
    requires b < 2
  {
    if b == 0 then a else if a % 2 == 0 then a + 1 else a - 1
  }

  /** The one-bit operators agree with C's operators. */
  lemma OneBitOperators(a: byte, b: byte)
    requires b < 2
    ensures AndBit(a, b) == And8(a, b)
    ensures OrBit(a, b) == Or8(a, b)
    ensures XorBit(a, b) == Xor8(a, b)
  {
    BitwiseZero(And, a / 2);
    BitwiseZero(Or, a / 2);
    BitwiseZero(Xor, a / 2);
    ZeroOperand(a);
  }
}
