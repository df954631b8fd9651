/**
 * Exact models of the two numeric library operations the gesture controller
 * relies on: NumPy's one-segment linear interpolation `np.interp` and
 * Python's `int(...)` conversion of a float. Both are stated over `real`,
 * so floating-point rounding is not part of the model.
 */
module Numeric {

  function Min(a: real, b: real): real { if a <= b then a else b }

  function Max(a: real, b: real): real { if a <= b then b else a }

  /** `np.interp(x, [xp0, xp1], [fp0, fp1])`: `fp0` left of the segment,
      `fp1` right of it, and the straight line through the two points in between.
      NumPy asks for increasing sample points, hence `xp0 < xp1`. */
  function Interp(x: real, xp0: real, xp1: real, fp0: real, fp1: real): (r: real)
    requires xp0 < xp1
    ensures x <= xp0 ==> r == fp0
    ensures x >= xp1 ==> r == fp1
    ensures Min(fp0, fp1) <= r <= Max(fp0, fp1)
    ensures xp0 <= x <= xp1 ==> (r - fp0) * (xp1 - xp0) == (x - xp0) * (fp1 - fp0)
  {
    if x <= xp0 then fp0
    else if x >= xp1 then fp1
    else
      var d := xp1 - xp0;
      var t := (x - xp0) / d;
      assert t * d == x - xp0;
      MulNonneg(t, d);
      assert 0.0 <= t <= 1.0;
      LinearBetween(t, fp0, fp1);
      fp0 + t * (fp1 - fp0)
  }

  /** A point on the segment from `a` to `b` lies between them. */
  lemma LinearBetween(t: real, a: real, b: real)
    requires 0.0 <= t <= 1.0
    ensures Min(a, b) <= a + t * (b - a) <= Max(a, b)
  {
    if a <= b {
      MulNonneg(t, b - a);
      MulNonneg(1.0 - t, b - a);
    } else {
      MulNonneg(t, a - b);
      MulNonneg(1.0 - t, a - b);
    }
  }

  lemma MulNonneg(p: real, q: real)
    requires 0.0 <= p && 0.0 <= q
    ensures 0.0 <= p * q
  {
  }

  /** Interpolation keeps the order of its argument when the values increase. */
  lemma InterpMonotone(x: real, y: real, xp0: real, xp1: real, fp0: real, fp1: real)
    requires xp0 < xp1 && fp0 <= fp1 && x <= y
    ensures Interp(x, xp0, xp1, fp0, fp1) <= Interp(y, xp0, xp1, fp0, fp1)
  {
    if xp0 < x && y < xp1 {
      var d := xp1 - xp0;
      DivMonotone(x - xp0, y - xp0, d);
      MulNonneg((y - xp0) / d - (x - xp0) / d, fp1 - fp0);
    }
  }

  lemma DivMonotone(a: real, b: real, d: real)
    requires a <= b && 0.0 < d
    ensures a / d <= b / d
  {
  }

  lemma MulPos(p: real, q: real)
    requires 0.0 < p && 0.0 < q
    ensures 0.0 < p * q
  {
  }

  /** Python's `int(r)` for a float `r`: drops the fraction, rounding toward zero. */
  function Trunc(r: real): (n: int)
    ensures 0.0 <= r ==> 0 <= n && n as real <= r < n as real + 1.0
    ensures r < 0.0 ==> n <= 0 && n as real - 1.0 < r <= n as real
  {
    if r >= 0.0 then r.Floor else -((-r).Floor)
  }

  /** Truncation of non-decreasing reals is non-decreasing. */
  lemma TruncMonotone(a: real, b: real)
    requires a <= b
    ensures Trunc(a) <= Trunc(b)
  {
  }
}
