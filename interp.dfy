// Linear interpolation (`_lerp`) and Python's `int()` on a float.

module Interp {

  function Min(a: real, b: real): real {
    if a <= b then a else b
  }

  function Max(a: real, b: real): real {
    if a <= b then b else a
  }

  /** Python's `min` and `max` on two integers. */
  function MinInt(a: int, b: int): int {
    if a <= b then a else b
  }

  function MaxInt(a: int, b: int): int {
    if a <= b then b else a
  }

  /** For 0 <= t <= 1, scaling d by t stays between 0 and d. */
  lemma ScaleBetween(t: real, d: real)
    requires 0.0 <= t <= 1.0
    ensures 0.0 <= d ==> 0.0 <= t * d <= d
    ensures d <= 0.0 ==> d <= t * d <= 0.0
  {
    if 0.0 <= d {
      assert 0.0 <= (1.0 - t) * d;
    } else {
      assert (1.0 - t) * d <= 0.0;
    }
  }

  /** For t in [0, 1], `(1 - t) * a + b * t` lies between a and b. */
  lemma LerpBetween(a: real, b: real, t: real)
    ensures 0.0 <= t <= 1.0 ==> Min(a, b) <= (1.0 - t) * a + b * t <= Max(a, b)
  {
    if 0.0 <= t <= 1.0 {
      var d := b - a;
      ScaleBetween(t, d);
      assert (1.0 - t) * a + b * t == a + t * d;
      if a <= b {
        assert 0.0 <= t * d <= d;
      } else {
        assert d <= t * d <= 0.0;
        assert b <= a + t * d;
      }
    }
  }

  /** `_lerp(a, b, t) = (1 - t) * a + b * t`. The parameter t is not clamped:
      values outside [0, 1] extrapolate. */
  function Lerp(a: real, b: real, t: real): (r: real)
    ensures t == 0.0 ==> r == a
    ensures t == 1.0 ==> r == b
    ensures a == b ==> r == a
    ensures 0.0 <= t <= 1.0 ==> Min(a, b) <= r <= Max(a, b)
  {
    LerpBetween(a, b, t);
    (1.0 - t) * a + b * t
  }

  /** Python's `int(x)` on a float: truncation toward zero. */
  function Trunc(x: real): (n: int)
    ensures 0.0 <= x ==> n as real <= x < n as real + 1.0
    ensures x < 0.0 ==> n as real - 1.0 < x <= n as real
  {
    if 0.0 <= x then x.Floor else -((-x).Floor)
  }

  /** Truncating a value that lies between two integers stays between them. */
  lemma TruncBetween(x: real, lo: int, hi: int)
    ensures lo as real <= x <= hi as real ==> lo <= Trunc(x) <= hi
  {
  }
}
