/**
 * Integer and real helpers with the exact meaning the Python sources give them:
 * `max(lo, min(v, hi))` clamping, `int(x)` on a float (truncation toward zero),
 * and the bitwise `|` on Python's unbounded two's-complement integers.
 */
module Numeric {

  function Abs(x: int): (r: nat)
    ensures r == x || r == -x
  {
    if x < 0 then -x else x
  }

  function Min(a: int, b: int): int { if a <= b then a else b }

  function Max(a: int, b: int): int { if a >= b then a else b }

  function RealAbs(x: real): (r: real)
    ensures r >= 0.0 && (r == x || r == -x)
  {
    if x < 0.0 then -x else x
  }

  /** `max(lo, min(value, hi))`, the clamp every servo driver applies before a write. */
  function Clamp(v: int, lo: int, hi: int): (r: int)
    ensures lo <= hi ==> lo <= r <= hi
    ensures lo <= v <= hi ==> r == v
    ensures lo <= hi && v < lo ==> r == lo
    ensures v > hi ==> r == Max(lo, hi)
    ensures hi < lo ==> r == lo
  {
    Max(lo, Min(v, hi))
  }

  /** Python's `int(x)` on a float: the integer part, truncating toward zero. */
  function Trunc(x: real): (r: int)
    ensures 0.0 <= x ==> r >= 0 && r as real <= x < r as real + 1.0
    ensures x < 0.0 ==> r <= 0 && r as real - 1.0 < x <= r as real
  {
    if x >= 0.0 then x.Floor else -((-x).Floor)
  }

  /** Truncation is odd: `int(-x) == -int(x)`. */
  lemma TruncNegate(x: real)
    ensures Trunc(-x) == -Trunc(x)
  {
  }

  /** An integer lower or upper bound on `x` also bounds `int(x)`. */
  lemma TruncBetween(x: real, lo: int, hi: int)
    requires lo as real <= x <= hi as real
    ensures lo <= Trunc(x) <= hi
  {
  }

  function Pow2(k: nat): (r: nat)
    ensures r >= 1
  {
    if k == 0 then 1 else 2 * Pow2(k - 1)
  }

  lemma Pow2Ten()
    ensures Pow2(10) == 1024
  {
  }

  /**
   * Python's `a | b` on ints, read as infinite two's-complement bit strings:
   * the low bits are or-ed and the rest is or-ed recursively on `a >> 1` and `b >> 1`
   * (`a / 2` below is floor division, as `>>` is, since the divisor is positive).
   */
  function PyOr(a: int, b: int): int
    decreases Abs(a) + Abs(b)
  {
    if (a == 0 || a == -1) && (b == 0 || b == -1) then
      (if a == -1 || b == -1 then -1 else 0)
    else
      2 * PyOr(a / 2, b / 2) + (if a % 2 == 1 || b % 2 == 1 then 1 else 0)
  }

  /** `v | 0 == v`. */
  lemma {:induction false} OrZero(v: int)
    ensures PyOr(v, 0) == v
    decreases Abs(v)
  {
    if v != 0 && v != -1 {
      OrZero(v / 2);
    }
  }

  /** Setting a bit above every bit of a non-negative `v` adds it: `v | 2^k == v + 2^k`. */
  lemma {:induction false} OrHighBit(v: int, k: nat)
    requires 0 <= v < Pow2(k)
    ensures PyOr(v, Pow2(k)) == v + Pow2(k)
  {
    if k == 0 {
      assert v == 0;
      OrZero(0);
      assert PyOr(0, 1) == 2 * PyOr(0, 0) + 1;
    } else {
      assert Pow2(k) / 2 == Pow2(k - 1) && Pow2(k) % 2 == 0;
      OrHighBit(v / 2, k - 1);
      assert PyOr(v, Pow2(k)) == 2 * PyOr(v / 2, Pow2(k - 1)) + (if v % 2 == 1 then 1 else 0);
    }
  }

  /** A negative `v` at or above `-2^k` already has every bit of `-2^k`: `v | -2^k == v`. */
  lemma {:induction false} OrNegativeMask(v: int, k: nat)
    requires -(Pow2(k) as int) <= v < 0
    ensures PyOr(v, -(Pow2(k) as int)) == v
    decreases k
  {
    if k > 0 {
      assert (-(Pow2(k) as int)) / 2 == -(Pow2(k - 1) as int) && (-(Pow2(k) as int)) % 2 == 0;
      OrNegativeMask(v / 2, k - 1);
      assert PyOr(v, -(Pow2(k) as int)) == 2 * PyOr(v / 2, -(Pow2(k - 1) as int)) + (if v % 2 == 1 then 1 else 0);
    }
  }

  /** The direction bit of a Moving Speed word: `m | (d << 10)` for a 10-bit magnitude `m` and `d` in {0, 1}. */
  lemma DirectionBit(m: int, reverse: bool)
    requires 0 <= m < 1024
    ensures PyOr(m, if reverse then 1024 else 0) == (if reverse then m + 1024 else m)
  {
    Pow2Ten();
    if reverse { OrHighBit(m, 10); } else { OrZero(m); }
  }

  /** `v | (-1 << 10) == v` for `-1024 <= v < 0`. */
  lemma NegativeDirectionMask(v: int)
    requires -1024 <= v < 0
    ensures PyOr(v, -1024) == v
  {
    Pow2Ten();
    OrNegativeMask(v, 10);
  }

  /** A product of non-negative reals is non-negative. */
  lemma MulNonNegative(a: real, b: real)
    requires a >= 0.0 && b >= 0.0
    ensures a * b >= 0.0
  {
  }

  /** A product of positive reals is positive. */
  lemma MulPositive(a: real, b: real)
    requires a > 0.0 && b > 0.0
    ensures a * b > 0.0
  {
  }

  /** A fraction with a numerator no larger than its positive denominator lies in [0, 1]. */
  lemma FractionInUnit(a: real, b: real)
    requires 0.0 <= a <= b && b > 0.0
    ensures 0.0 <= a / b <= 1.0
  {
    assert a / b * b == a;
  }

  /** Scaling a non-negative `y` by a factor in [0, 1] stays in [0, y]. */
  lemma ScaleInRange(x: real, y: real)
    requires 0.0 <= x <= 1.0 && y >= 0.0
    ensures 0.0 <= x * y <= y
  {
    MulNonNegative(x, y);
    MulNonNegative(1.0 - x, y);
  }

  /** Dividing by a positive number: the quotient is at most `t` exactly when the dividend is at most `t` times the divisor. */
  lemma DivAtMost(a: real, b: real, t: real)
    requires b > 0.0
    ensures a / b <= t <==> a <= t * b
  {
    var q := a / b;
    assert q * b == a;
    if q <= t {
      MulNonNegative(t - q, b);
      assert (t - q) * b == t * b - q * b;
      assert a <= t * b;
    } else {
      MulPositive(q - t, b);
      assert (q - t) * b == q * b - t * b;
      assert a > t * b;
    }
  }
}
