/** The integer arithmetic of the icon pipeline: canvas sides and centring offsets. */
module Geometry {

  /**
   * `int(n ** 0.5)`: the square root truncated to an integer, computed exactly
   * by halving (the root of n is twice the root of n / 4, or one more).
   */
  function FloorSqrt(n: nat): (r: nat)
    ensures r * r <= n < (r + 1) * (r + 1)
  {
    if n < 4 then (if n == 0 then 0 else 1)
    else
      var s := FloorSqrt(n / 4);
      SqrtStep(n, s);
      if (2 * s + 1) * (2 * s + 1) <= n then 2 * s + 1 else 2 * s
  }

  /** From the root s of n / 4, the root of n is 2s or 2s + 1. */
  lemma SqrtStep(n: nat, s: nat)
    requires s * s <= n / 4 < (s + 1) * (s + 1)
    ensures (2 * s) * (2 * s) <= n < (2 * s + 2) * (2 * s + 2)
  {
    var q := n / 4;
    assert (2 * s) * (2 * s) == 4 * (s * s);
    assert (2 * s + 2) * (2 * s + 2) == 4 * ((s + 1) * (s + 1));
    assert q + 1 <= (s + 1) * (s + 1);
    assert n < 4 * q + 4;
  }

  /** The truncated root of n is at least every a whose square is at most n. */
  lemma FloorSqrtAtLeast(n: nat, a: nat)
    requires a * a <= n
    ensures FloorSqrt(n) >= a
  {
    var r := FloorSqrt(n);
    if r < a {
      MulMonotone(r + 1, a);
    }
  }

  /** The root of a sum of squares is at least each side. */
  lemma FloorSqrtOfSquares(w: nat, h: nat)
    ensures FloorSqrt(w * w + h * h) >= w && FloorSqrt(w * w + h * h) >= h
  {
    MulMonotone(0, w);
    MulMonotone(0, h);
    var n: nat := w * w + h * h;
    FloorSqrtAtLeast(n, w);
    FloorSqrtAtLeast(n, h);
  }

  lemma MulMonotone(a: nat, b: nat)
    requires a <= b
    ensures a * a <= b * b
  {
    assert a * a <= a * b <= b * b;
  }

  /** `int((width**2 + height**2)**0.5) + 10`: the side of the rotation canvas. */
  function ExpandedSide(w: nat, h: nat): (side: nat)
    ensures side >= w + 10 && side >= h + 10
  {
    FloorSqrtOfSquares(w, h);
    FloorSqrt(w * w + h * h) + 10
  }

  /** `(size - len) // 2`; Python's floor division and Dafny's `/` agree for a positive divisor. */
  function CentreOffset(size: int, len: int): int {
    (size - len) / 2
  }

  /**
   * Centring a length that fits: the content stays inside, and the padding
   * after it is the padding before it or one pixel more.
   */
  lemma CentreOffsetBalanced(size: int, len: nat)
    requires len <= size
    ensures var off := CentreOffset(size, len);
      && 0 <= off && off + len <= size
      && 0 <= (size - len - off) - off <= 1
  {
  }
}
