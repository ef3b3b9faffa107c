/**
 * Python's `round(x, 2)` on an exact real value: `x * 100` is rounded to
 * the nearest integer, a tie going to the even neighbour, and the result
 * is that many hundredths.
 */
module Rounding {

  /** A value with at most two decimals: a whole number of hundredths. */
  predicate IsCents(x: real) {
    (x * 100.0).Floor as real == x * 100.0
  }

  /** The number of hundredths `round(x, 2)` keeps. */
  function Hundredths(x: real): (n: int)
    ensures x * 100.0 - 0.5 <= n as real <= x * 100.0 + 0.5
    ensures n as real == x * 100.0 + 0.5 ==> n % 2 == 0
    ensures n as real == x * 100.0 - 0.5 ==> n % 2 == 0
  {
    var scaled := x * 100.0;
    var f := scaled.Floor;
    var frac := scaled - f as real;
    if frac > 0.5 then f + 1
    else if frac < 0.5 then f
    else if f % 2 == 0 then f
    else f + 1
  }

  /** `round(x, 2)`: within half a hundredth of x, and itself two-decimal. */
  function Round2(x: real): (r: real)
    ensures x - 0.005 <= r <= x + 0.005
    ensures IsCents(r)
  {
    Hundredths(x) as real / 100.0
  }

  /** Rounding never reverses the order of two values. */
  lemma Round2Monotone(x: real, y: real)
    requires x <= y
    ensures Round2(x) <= Round2(y)
  {
    var fx, fy := (x * 100.0).Floor, (y * 100.0).Floor;
    assert fx <= fy;
    if fx < fy {
      assert Hundredths(x) <= fx + 1 <= fy <= Hundredths(y);
    }
  }

  /** A value that already has two decimals is left as it is. */
  lemma Round2OfCents(x: real)
    requires IsCents(x)
    ensures Round2(x) == x
  {
    assert Hundredths(x) == (x * 100.0).Floor;
  }

  /** Whole numbers have two decimals. */
  lemma IntIsCents(k: int)
    ensures IsCents(k as real)
  {
    assert (k as real) * 100.0 == (100 * k) as real;
  }

  /** Adding a whole number keeps a value two-decimal. */
  lemma CentsPlusInt(x: real, k: int)
    requires IsCents(x)
    ensures IsCents(x + k as real)
  {
    var f := (x * 100.0).Floor;
    assert (x + k as real) * 100.0 == (f + 100 * k) as real;
    assert ((x + k as real) * 100.0).Floor == f + 100 * k;
  }

  /** Rounding keeps a value inside any range with whole-number ends. */
  lemma Round2Within(x: real, lo: int, hi: int)
    requires lo as real <= x <= hi as real
    ensures lo as real <= Round2(x) <= hi as real
  {
    IntIsCents(lo);
    IntIsCents(hi);
    Round2Monotone(lo as real, x);
    Round2Monotone(x, hi as real);
    Round2OfCents(lo as real);
    Round2OfCents(hi as real);
  }

  /** Rounding never takes a value below a two-decimal value it was at least. */
  lemma Round2AtLeastCents(c: real, x: real)
    ensures IsCents(c) && c <= x ==> Round2(x) >= c
  {
    if IsCents(c) && c <= x {
      Round2Monotone(c, x);
      Round2OfCents(c);
    }
  }
}
