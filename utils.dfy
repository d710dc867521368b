// src/utils.js: the clamp and normalize helpers every rule relies on.

module Utils {
  import opened Values

  /** The value pulled into [lo, hi]. */
  function Clamp(value: real, lo: real, hi: real): (r: real)
    ensures lo <= hi ==> lo <= r <= hi
    ensures lo <= value <= hi ==> r == value
    ensures value <= lo ==> r == lo
    ensures lo <= hi && hi <= value ==> r == hi
  {
    MaxReal(lo, MinReal(hi, value))
  }

  lemma ClampMonotone(a: real, b: real, lo: real, hi: real)
    requires a <= b
    ensures Clamp(a, lo, hi) <= Clamp(b, lo, hi)
  {
  }

  /** Linear map of [lo, hi] onto [0, 100], clamped. */
  function Normalize(value: real, lo: real, hi: real): (r: real)
    requires lo < hi
    ensures 0.0 <= r <= 100.0
    ensures value <= lo ==> r == 0.0
    ensures value >= hi ==> r == 100.0
  {
    var scaled := (value - lo) / (hi - lo) * 100.0;
    assert value <= lo ==> scaled <= 0.0 by {
      if value <= lo { DivNonPositive(value - lo, hi - lo); }
    }
    assert value >= hi ==> scaled >= 100.0 by {
      if value >= hi { DivAtLeastOne(value - lo, hi - lo); }
    }
    Clamp(scaled, 0.0, 100.0)
  }

  lemma DivNonPositive(x: real, d: real)
    requires x <= 0.0 && d > 0.0
    ensures x / d <= 0.0
  {
  }

  lemma DivAtLeastOne(x: real, d: real)
    requires x >= d && d > 0.0
    ensures x / d >= 1.0
  {
  }

  lemma DivMonotone(x: real, y: real, d: real)
    requires x <= y && d > 0.0
    ensures x / d <= y / d
  {
    assert y / d - x / d == (y - x) / d;
  }

  lemma MulNonNegative(x: real, y: real)
    requires 0.0 <= x && 0.0 <= y
    ensures 0.0 <= x * y
  {
  }

  /** A product of two numbers in [0, 1] is in [0, 1] and at most either factor. */
  lemma UnitProduct(x: real, y: real)
    requires 0.0 <= x <= 1.0 && 0.0 <= y <= 1.0
    ensures 0.0 <= x * y <= x && x * y <= y
  {
    MulNonNegative(x, y);
    MulNonNegative(x, 1.0 - y);
    assert x - x * y == x * (1.0 - y);
    MulNonNegative(1.0 - x, y);
    assert y - x * y == (1.0 - x) * y;
  }

  /** normalize is non-decreasing in its value for a fixed range. */
  lemma NormalizeMonotone(a: real, b: real, lo: real, hi: real)
    requires lo < hi && a <= b
    ensures Normalize(a, lo, hi) <= Normalize(b, lo, hi)
  {
    DivMonotone(a - lo, b - lo, hi - lo);
    ClampMonotone((a - lo) / (hi - lo) * 100.0, (b - lo) / (hi - lo) * 100.0, 0.0, 100.0);
  }
}
