/** Unity's Mathf helpers over reals. The source works in single-precision
    floats; no property here depends on rounding, so reals stand in for them. */
module Numeric {

  /** Mathf.Clamp: a value below `lo` becomes `lo`, above `hi` becomes `hi`.
      When lo > hi the result is still `lo` for small values and `hi` otherwise. */
  function Clamp(v: real, lo: real, hi: real): (r: real)
    ensures lo <= hi ==> lo <= r <= hi
    ensures lo <= v <= hi ==> r == v
    ensures v < lo ==> r == lo
    ensures lo <= v && v > hi ==> r == hi
  {
    if v < lo then lo else if v > hi then hi else v
  }

  /** Mathf.Clamp01. */
  function Clamp01(v: real): (r: real)
    ensures 0.0 <= r <= 1.0
    ensures 0.0 <= v <= 1.0 ==> r == v
    ensures v < 0.0 ==> r == 0.0
    ensures v > 1.0 ==> r == 1.0
  {
    Clamp(v, 0.0, 1.0)
  }

  /** Mathf.Lerp: the interpolation parameter is clamped into [0,1] first, so
      the result always lies between the two end points. */
  function Lerp(a: real, b: real, t: real): (r: real)
    ensures a <= b ==> a <= r <= b
    ensures b <= a ==> b <= r <= a
    ensures t <= 0.0 ==> r == a
    ensures t >= 1.0 ==> r == b
  {
    var c := Clamp01(t);
    ScaledDifference(a, b, c);
    a + (b - a) * c
  }

  lemma MulNonNegative(x: real, y: real)
    requires x >= 0.0 && y >= 0.0
    ensures x * y >= 0.0
  {
  }

  /** A fraction c of the gap b - a lies between 0 and the gap. */
  lemma ScaledDifference(a: real, b: real, c: real)
    requires 0.0 <= c <= 1.0
    ensures a <= b ==> 0.0 <= (b - a) * c <= b - a
    ensures b <= a ==> b - a <= (b - a) * c <= 0.0
  {
    if a <= b {
      MulNonNegative(b - a, c);
      MulNonNegative(b - a, 1.0 - c);
      assert (b - a) * (1.0 - c) == (b - a) - (b - a) * c;
    } else {
      MulNonNegative(a - b, c);
      MulNonNegative(a - b, 1.0 - c);
      assert (a - b) * (1.0 - c) == (a - b) - (a - b) * c;
      assert (b - a) * c == -((a - b) * c);
    }
  }

  function Abs(x: real): (r: real)
    ensures r >= 0.0 && (r == x || r == -x)
  {
    if x < 0.0 then -x else x
  }

  /** Mathf.Max. */
  function Max(a: real, b: real): (r: real)
    ensures r >= a && r >= b && (r == a || r == b)
  {
    if a >= b then a else b
  }

  predicate InUnit(x: real) { 0.0 <= x <= 1.0 }
}
