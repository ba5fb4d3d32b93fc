/**
 * Scalar helpers shared by the terrain builder and the scenery controller:
 * the `math.sat` clamp, JavaScript's `Math.round` and `Math.max`, and the
 * integer facts about row-major grid indices that the rest of the model needs.
 */
module Numerics {

  /** A value that may be missing: `null` or `undefined` in the source. */
  datatype Option<T> = None | Some(value: T)

  /** `math.sat`: clamp a value into [0, 1]. */
  function Sat(x: real): (r: real)
    ensures 0.0 <= r <= 1.0
    ensures 0.0 <= x <= 1.0 ==> r == x
    ensures x < 0.0 ==> r == 0.0
    ensures x > 1.0 ==> r == 1.0
  {
    if x < 0.0 then 0.0 else if x > 1.0 then 1.0 else x
  }

  /** Clamping never moves a value across a threshold that lies strictly inside (0, 1]. */
  lemma SatBelow(x: real, t: real)
    requires 0.0 < t <= 1.0
    ensures Sat(x) < t <==> x < t
  {
  }

  /** `Math.max` on two numbers (no NaN). */
  function MaxReal(a: real, b: real): (r: real)
    ensures r >= a && r >= b
    ensures r == a || r == b
  {
    if a >= b then a else b
  }

  /** `Math.round`: round half up, towards positive infinity. */
  function JsRound(x: real): (r: int)
    ensures r as real <= x + 0.5 < r as real + 1.0
  {
    (x + 0.5).Floor
  }

  /** Quotient and remainder of `q * d + r` are `q` and `r` when `0 <= r < d`. */
  lemma DivModOf(q: int, r: int, d: int)
    requires d > 0 && 0 <= r < d
    ensures (q * d + r) / d == q
    ensures (q * d + r) % d == r
  {
    var n := q * d + r;
    var q', r' := n / d, n % d;
    assert n == q' * d + r';
    assert (q - q') * d == r' - r;
    if q > q' {
      MulAtLeast(q - q', d);
    } else if q < q' {
      MulAtLeast(q' - q, d);
    }
  }

  lemma MulAtLeast(a: int, d: int)
    requires a >= 1 && d > 0
    ensures a * d >= d
  {
  }

  /** Every index below `d * d` splits into a row and a column below `d`. */
  lemma Decompose(v: int, d: int)
    requires d > 0 && 0 <= v
    ensures v == (v / d) * d + v % d
    ensures 0 <= v % d < d && 0 <= v / d
  {
  }

  /** A row-major index `a * d + b` of a square grid of side `d` is below `d * d`. */
  lemma GridIndexBound(a: int, b: int, d: int)
    requires 0 <= a < d && 0 <= b < d
    ensures 0 <= a * d + b < d * d
  {
    assert a * d <= (d - 1) * d by { MulMono(a, d - 1, d); }
  }

  lemma MulMono(a: int, b: int, d: int)
    requires 0 <= a <= b && d >= 0
    ensures a * d <= b * d
  {
  }

  /** Scaling by a non-negative real keeps the order. */
  lemma MulMonoReal(w: real, a: real, b: real)
    requires w >= 0.0 && a <= b
    ensures w * a <= w * b
  {
    assert w * b - w * a == w * (b - a);
  }

  lemma NonNegMul(a: real, b: real)
    requires a >= 0.0 && b >= 0.0
    ensures a * b >= 0.0
  {
  }

  /** An index below `d * d` has a row below `d`. */
  lemma RowBound(v: int, d: int)
    requires d > 0 && 0 <= v < d * d
    ensures v / d < d
  {
    Decompose(v, d);
    if v / d >= d {
      MulMono(d, v / d, d);
    }
  }
}
