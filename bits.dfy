/** Bitwise `|` and `<<` on unsigned integers, written out on mathematical naturals. */
module Bits {
  import opened Common

  /** 2^k. */
  function Pow2(k: nat): (r: nat)
    ensures r >= 1
  {
    Pow(2, k)
  }

  /** Powers of two multiply by adding their exponents. */
  lemma {:induction false} Pow2Add(a: nat, b: nat)
    ensures Pow2(a + b) == Pow2(a) * Pow2(b)
    decreases a
  {
    if a > 0 {
      Pow2Add(a - 1, b);
    }
  }

  /** The widths the source works with: 2^32 and 2^64. */
  lemma Pow2Widths()
    ensures Pow2(32) == 0x1_0000_0000
    ensures Pow2(64) == 0x1_0000_0000_0000_0000
  {
    Pow2Of32();
    Pow2Add(32, 32);
  }

  lemma Pow2Of32()
    ensures Pow2(32) == 0x1_0000_0000
  {
    Pow2Of16();
    Pow2Add(16, 16);
  }

  lemma Pow2Of16()
    ensures Pow2(16) == 0x1_0000
  {
    assert Pow2(4) == 16;
    Pow2Add(4, 4);
    Pow2Add(8, 8);
  }

  /** `a | b`: bit `i` of the result is set when bit `i` of `a` or of `b` is. */
  function Or(a: nat, b: nat): nat
    decreases a + b
  {
    if a == 0 then b
    else if b == 0 then a
    else 2 * Or(a / 2, b / 2) + (if a % 2 == 1 || b % 2 == 1 then 1 else 0)
  }

  /** `x << k` on a `width`-bit integer: the bits pushed past the top are lost. */
  function Shl(x: nat, k: nat, width: nat): (r: nat)
    ensures r < Pow2(width)
  {
    (x * Pow2(k)) % Pow2(width)
  }

  /** `|` of two `k`-bit numbers is a `k`-bit number. */
  lemma {:induction false} OrBound(a: nat, b: nat, k: nat)
    requires a < Pow2(k) && b < Pow2(k)
    ensures Or(a, b) < Pow2(k)
    decreases k
  {
    if a != 0 && b != 0 {
      OrBound(a / 2, b / 2, k - 1);
    }
  }

  /** When `b` fits below bit `k`, `(a << k) | b` adds the two: they share no set bit. */
  lemma {:induction false} OrDisjoint(a: nat, b: nat, k: nat)
    requires b < Pow2(k)
    ensures Or(a * Pow2(k), b) == a * Pow2(k) + b
    decreases k
  {
    if a != 0 && b != 0 {
      var p := Pow2(k - 1);
      assert a * Pow2(k) == 2 * (a * p);
      assert (a * Pow2(k)) / 2 == a * p && (a * Pow2(k)) % 2 == 0;
      OrDisjoint(a, b / 2, k - 1);
    }
  }
}
