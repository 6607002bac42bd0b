/** Bitwise exclusive or and signed 64-bit wrap-around, written out on integers. */
module Bits {

  function Pow2(k: nat): (p: nat)
    ensures p >= 1
  {
    if k == 0 then 1 else 2 * Pow2(k - 1)
  }

  predicate Bit(a: nat, i: nat) {
    if i == 0 then a % 2 == 1 else Bit(a / 2, i - 1)
  }

  function Xor(a: nat, b: nat): (r: nat)
    decreases a + b
  {
    if a == 0 && b == 0 then 0 else 2 * Xor(a / 2, b / 2) + (a % 2 + b % 2) % 2
  }

  /** Each bit of the result is set exactly when one of the operands has it. */
  lemma {:induction false} XorBit(a: nat, b: nat, i: nat)
    ensures Bit(Xor(a, b), i) <==> (Bit(a, i) != Bit(b, i))
    decreases i
  {
    if i > 0 {
      XorBit(a / 2, b / 2, i - 1);
      assert Xor(a, b) / 2 == Xor(a / 2, b / 2);
    }
  }

  /** Exclusive or never reaches past the width of its operands. */
  lemma {:induction false} XorBound(a: nat, b: nat, k: nat)
    requires a < Pow2(k) && b < Pow2(k)
    ensures Xor(a, b) < Pow2(k)
    decreases k
  {
    if k > 0 {
      XorBound(a / 2, b / 2, k - 1);
    }
  }

  const TWO63: int := 0x8000_0000_0000_0000
  const TWO64: int := 0x1_0000_0000_0000_0000

  /** The value a 64-bit two's complement register keeps of an exact result. */
  function Wrap64(x: int): (r: int)
    ensures -TWO63 <= r < TWO63
    ensures (x - r) % TWO64 == 0
  {
    (x + TWO63) % TWO64 - TWO63
  }

  lemma Pow2Is63()
    ensures Pow2(63) == TWO63
  {
    assert Pow2(15) == 0x8000;
    assert Pow2(31) == 0x8000_0000 by { assert Pow2(23) == 0x80_0000; }
    assert Pow2(39) == 0x80_0000_0000;
    assert Pow2(47) == 0x8000_0000_0000;
    assert Pow2(55) == 0x80_0000_0000_0000;
  }

  lemma OddFactor(x: int, m: int)
    requires m % 2 == 1 && (x * m) % 2 == 0
    ensures x % 2 == 0
  {
    assert x * m == 2 * (x * (m / 2)) + x;
  }

  /** A power of two that divides a product with an odd factor divides the other factor. */
  lemma {:induction false} PowerDividesCofactor(k: nat, x: int, m: int, q: int) returns (t: int)
    requires m % 2 == 1 && x * m == Pow2(k) * q
    ensures x == Pow2(k) * t
  {
    if k == 0 {
      t := x;
    } else {
      assert x * m == 2 * (Pow2(k - 1) * q);
      OddFactor(x, m);
      var y := x / 2;
      assert x * m == 2 * (y * m);
      t := PowerDividesCofactor(k - 1, y, m, q);
    }
  }

  /** An odd multiple of a non-negative 64-bit integer never wraps to the minimum integer. */
  lemma OddMultipleMissesMinimum(x: int, m: int)
    requires 0 <= x < TWO63 && m % 2 == 1
    ensures Wrap64(x * m) != -TWO63
  {
    if Wrap64(x * m) == -TWO63 {
      var q := (x * m + TWO63) / TWO64;
      assert x * m + TWO63 == TWO64 * q;
      Pow2Is63();
      assert x * m == Pow2(63) * (2 * q - 1);
      var t := PowerDividesCofactor(63, x, m, 2 * q - 1);
      assert false;
    }
  }
}
