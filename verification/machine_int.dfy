/**
 Fixed-width C integer ranges and C's truncating integer division.

 Dafny's `int` is unbounded and its `/` is Euclidean (the remainder is never
 negative). The firmware runs on a 32-bit target, where `int` is 32 bits wide,
 `int16_t` and `uint16_t` are 16 bits wide, and `/` on signed integers
 truncates toward zero. This module makes those ranges and that division
 explicit so that the rest of the model can state what stays in range.
 */
module MachineInt {

  const INT16_MIN: int := -0x8000
  const INT16_MAX: int := 0x7fff
  const UINT16_MAX: int := 0xffff
  const INT32_MIN: int := -0x8000_0000
  const INT32_MAX: int := 0x7fff_ffff
  const UINT32_MAX: int := 0xffff_ffff

  /** A signed 16-bit sample (`int16_t`). */
  type Int16 = x: int | INT16_MIN <= x <= INT16_MAX

  /** An unsigned 16-bit quantity (`uint16_t`). */
  type UInt16 = x: int | 0 <= x <= UINT16_MAX

  /** An unsigned 32-bit quantity (`uint32_t`). */
  type UInt32 = x: int | 0 <= x <= UINT32_MAX

  /** True iff `x` is representable in a 32-bit two's-complement `int`. */
  predicate InInt32(x: int) {
    INT32_MIN <= x <= INT32_MAX
  }

  function Abs(x: int): nat {
    if x < 0 then -x else x
  }

  function Max(a: int, b: int): int {
    if a < b then b else a
  }

  /** C's `a / b` on signed integers: the quotient is truncated toward zero. */
  function TruncDiv(a: int, b: int): int
    requires b != 0
  {
    if b > 0 then
      if a >= 0 then a / b else -((-a) / b)
    else
      if a >= 0 then -(a / (-b)) else (-a) / (-b)
  }

  /**
   The defining property of C's division (section 6.5.5 of ISO C99): the
   remainder `a - (a / b) * b` is smaller than `b` in magnitude and is either
   zero or has the sign of the dividend.
   */
  lemma TruncDivRemainder(a: int, b: int)
    requires b != 0
    ensures Abs(a - TruncDiv(a, b) * b) < Abs(b)
    ensures a - TruncDiv(a, b) * b == 0 || (a - TruncDiv(a, b) * b > 0) == (a > 0)
  {
    var q := TruncDiv(a, b);
    if b > 0 {
      if a >= 0 {
        assert a - q * b == a % b;
      } else {
        assert q * b == -(((-a) / b) * b);
        assert a - q * b == -((-a) % b);
      }
    } else {
      if a >= 0 {
        assert q * b == (a / (-b)) * (-b);
        assert a - q * b == a % (-b);
      } else {
        assert q * b == -(((-a) / (-b)) * (-b));
        assert a - q * b == -((-a) % (-b));
      }
    }
  }

  /**
   The truncated quotient is the only integer with the two properties that
   `TruncDiv` promises, so those properties characterise C's division.
   */
  lemma TruncDivUnique(a: int, b: int, q: int)
    requires b != 0
    requires Abs(a - q * b) < Abs(b)
    requires a - q * b == 0 || (a - q * b > 0) == (a > 0)
    ensures q == TruncDiv(a, b)
  {
    var q0 := TruncDiv(a, b);
    TruncDivRemainder(a, b);
    var r, r0 := a - q * b, a - q0 * b;
    if q != q0 {
      // Both remainders lie on the dividend's side of zero, below |b| in magnitude ...
      assert Abs(r0 - r) < Abs(b) by {
        if a > 0 {
          assert 0 <= r && 0 <= r0;
        } else {
          assert r <= 0 && r0 <= 0;
        }
      }
      // ... yet they differ by a non-zero multiple of b.
      assert r0 - r == (q - q0) * b by {
        MulDistributes(q, q0, b);
      }
      AbsProductAtLeast(q - q0, b);
      assert false;
    }
  }

  lemma MulDistributes(x: int, y: int, b: int)
    ensures x * b - y * b == (x - y) * b
  {
  }

  /** |k * b| >= |b| whenever k is a non-zero integer. */
  lemma AbsProductAtLeast(k: int, b: int)
    requires k != 0
    ensures Abs(k * b) >= Abs(b)
  {
    AbsProduct(k, b);
    MulMonotone(1, Abs(k), Abs(b));
  }

  lemma AbsProduct(k: int, b: int)
    ensures Abs(k * b) == Abs(k) * Abs(b)
  {
    if k < 0 && b >= 0 {
      assert k * b == -((-k) * b);
    } else if k >= 0 && b < 0 {
      assert k * b == -(k * (-b));
    } else if k < 0 && b < 0 {
      assert k * b == (-k) * (-b);
    }
  }

  /**
   C's division differs from Dafny's Euclidean division on a negative dividend:
   -7 / 2 is -3 in C but -4 in Dafny.
   */
  lemma TruncDivDiffersFromEuclidean()
    ensures TruncDiv(-7, 2) == -3
    ensures -7 / 2 == -4
  {
  }

  /**
   Dividing a sum of `c` values that each lie in [lo, hi] (with lo <= 0 <= hi)
   by `c` with truncation gives a quotient in [lo, hi] again.
   */
  lemma TruncDivBounds(s: int, c: int, lo: int, hi: int)
    requires c > 0
    requires lo <= 0 <= hi
    requires lo * c <= s <= hi * c
    ensures lo <= TruncDiv(s, c) <= hi
  {
    if s >= 0 {
      TruncDivNonNegative(s, c, hi);
    } else {
      TruncDivNegative(s, c, lo);
    }
  }

  lemma TruncDivNonNegative(s: int, c: int, hi: int)
    requires c > 0
    requires 0 <= s <= hi * c
    ensures 0 <= TruncDiv(s, c) <= hi
  {
    assert TruncDiv(s, c) == s / c;
    DivAtMost(s, c, hi);
  }

  lemma TruncDivNegative(s: int, c: int, lo: int)
    requires c > 0
    requires lo * c <= s < 0
    ensures lo <= TruncDiv(s, c) <= 0
  {
    assert TruncDiv(s, c) == -((-s) / c);
    NegateProduct(lo, c);
    DivAtMost(-s, c, -lo);
  }

  lemma NegateProduct(a: int, c: int)
    ensures (-a) * c == -(a * c)
  {
  }

  /** Euclidean division of a non-negative `x <= k * c` by `c` is at most `k`. */
  lemma DivAtMost(x: int, c: int, k: int)
    requires c > 0
    requires 0 <= x <= k * c
    ensures x / c <= k
  {
    if x / c > k {
      MulMonotone(k + 1, x / c, c);
      assert false;
    }
  }

  lemma MulMonotone(a: int, b: int, c: int)
    requires a <= b
    requires c >= 0
    ensures a * c <= b * c
  {
    assert b * c - a * c == (b - a) * c;
  }
}
