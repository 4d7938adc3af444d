/**
  Fixed-width unsigned arithmetic used by the noise generator.

  The generator is written against a 32-bit `unsigned long` (the Win32 data
  model) and an 8-bit `BYTE`.  Dafny integers are unbounded, so the width of
  each field is a subset type here and every place where the C++ code could
  lose high bits is written out as an explicit reduction modulo 2^32.
 */
module Bits {

  const Two32: nat := 0x1_0000_0000

  /** A 32-bit `unsigned long`. */
  type U32 = x: nat | x < 0x1_0000_0000

  /** An 8-bit `BYTE` (`unsigned char`). */
  type Byte = x: nat | x < 0x100

  /** 2^k */
  function Pow2(k: nat): (p: nat)
    ensures p >= 1
  {
    if k == 0 then 1 else 2 * Pow2(k - 1)
  }

  /** `x << k` on a 32-bit unsigned value: bits shifted past bit 31 are lost. */
  function Shl32(x: U32, k: nat): U32
  {
    (x * Pow2(k)) % Two32
  }

  /** `x >> k` on an unsigned value. */
  function Shr(x: nat, k: nat): nat
  {
    DivIsNat(x, Pow2(k));
    x / Pow2(k)
  }

  /** A non-zero multiple of a positive `d` is at least `d` away from zero. */
  lemma MulAwayFromZero(k: int, d: int)
    requires 0 < d
    ensures k >= 1 ==> k * d >= d
    ensures k <= -1 ==> k * d <= -d
  {
    if k >= 1 {
      assert k * d == d + (k - 1) * d;
    } else if k <= -1 {
      assert k * d == -d + (k + 1) * d;
    }
  }

  /** Dividing a natural number by a positive one gives a natural number. */
  lemma DivIsNat(y: nat, d: nat)
    requires 0 < d
    ensures 0 <= y / d
  {
    var q: int := y / d;
    assert y == q * d + y % d;
    MulAwayFromZero(q, d);
  }

  /** Euclidean division is unique: the quotient and remainder of `y` by `d`
      are the only pair that rebuilds `y` with a remainder below `d`. */
  lemma DivModUnique(y: nat, d: nat, q: nat, r: nat)
    requires 0 < d
    requires y == q * d + r && r < d
    ensures y / d == q && y % d == r
  {
    var q0: int, r0: int := y / d, y % d;
    assert (q0 - q) * d == r - r0 by {
      assert q0 * d + r0 == q * d + r;
      assert (q0 - q) * d == q0 * d - q * d;
    }
    MulAwayFromZero(q0 - q, d);
  }

  /** Taking `d` off `c` takes one off the quotient and keeps the remainder. */
  lemma QuotientStep(c: nat, d: nat)
    requires 0 < d <= c
    ensures (c - d) / d + 1 == c / d && (c - d) % d == c % d
  {
    var q: int, r: int := (c - d) / d, (c - d) % d;
    assert c == (q + 1) * d + r;
    DivModUnique(c, d, q + 1, r);
  }

  /** The quotient of `y` by `d`, by repeated subtraction. */
  function Quot(y: nat, d: nat): nat
    requires 0 < d
    decreases y
  {
    if y < d then 0 else Quot(y - d, d) + 1
  }

  /** The remainder of `y` by `d`, by repeated subtraction. */
  function Rem(y: nat, d: nat): (r: nat)
    requires 0 < d
    ensures r < d
    decreases y
  {
    if y < d then y else Rem(y - d, d)
  }

  /** Repeated subtraction computes Euclidean division. */
  lemma {:induction false} QuotRemIsDivMod(y: nat, d: nat)
    requires 0 < d
    ensures Quot(y, d) == y / d && Rem(y, d) == y % d
    decreases y
  {
    if y < d {
      DivModUnique(y, d, 0, y);
    } else {
      QuotRemIsDivMod(y - d, d);
      QuotientStep(y, d);
    }
  }

  /** Adding `z` to `y` adds the whole multiples of `d` in `y`'s remainder
      plus `z`, and leaves that sum's remainder. */
  lemma {:induction false} QuotRemShift(y: nat, z: nat, d: nat)
    requires 0 < d
    ensures Quot(y + z, d) == Quot(y, d) + Quot(Rem(y, d) + z, d)
    ensures Rem(y + z, d) == Rem(Rem(y, d) + z, d)
    decreases y
  {
    if y >= d {
      QuotRemShift(y - d, z, d);
      assert y - d + z == y + z - d;
    }
  }

  /** A right shift never makes a value larger. */
  lemma ShrAtMost(x: nat, k: nat)
    ensures Shr(x, k) <= x
  {
    var p, q := Pow2(k), Shr(x, k);
    assert x == q * p + x % p;
    if q > 0 {
      MulAwayFromZero(p, q);
    }
  }

  /** `x >> k` is the number of whole multiples of 2^k in `x`. */
  lemma ShrBounds(x: nat, k: nat)
    ensures Shr(x, k) * Pow2(k) <= x < (Shr(x, k) + 1) * Pow2(k)
  {
    var p := Pow2(k);
    assert x == (x / p) * p + x % p;
    assert (x / p + 1) * p == (x / p) * p + p;
  }

  /** Shifting left by `k` and back recovers the value when no bit was lost. */
  lemma ShlShrRoundTrip(x: U32, k: nat)
    requires x * Pow2(k) < Two32
    ensures Shr(Shl32(x, k), k) == x
  {
    assert Shl32(x, k) == x * Pow2(k);
    DivModUnique(x * Pow2(k), Pow2(k), x, 0);
  }
}
