/**
 * Integer points and the exact integer forms of the floating-point geometry
 * both programs use: squared distances instead of `math.sqrt`, the integer
 * square root for `int(sqrt(...))`, and truncation toward zero for `int(...)`.
 */
module Geometry {

  /** A pixel position, as the hand-pose detector reports a landmark's first two coordinates. */
  datatype Point = Point(x: int, y: int)

  /** The square of `calculate_distance(p, q)` (Draw.py:66-67, Drums.py:58-60). */
  function Dist2(p: Point, q: Point): nat
  {
    var dx := p.x - q.x;
    var dy := p.y - q.y;
    SquareNonNegative(dx);
    SquareNonNegative(dy);
    dx * dx + dy * dy
  }

  lemma SquareNonNegative(a: int)
    ensures a * a >= 0
  {
    if a < 0 { assert a * a == (-a) * (-a); }
  }

  /**
   * Comparing a distance with an integer threshold is the same as comparing
   * its square with the squared threshold: for the real `d = sqrt(n)`,
   * `d < k` iff `n < k*k`, and `d > k` iff `n > k*k`.
   */
  lemma SqrtCompare(d: real, n: int, k: nat)
    requires d >= 0.0 && d * d == n as real
    ensures d < k as real <==> n < k * k
    ensures d > k as real <==> n > k * k
  {
    var kr := k as real;
    assert (k * k) as real == kr * kr;
    if d < kr {
      SquareBelow(d, kr);
    } else if d > kr {
      SquareBelow(kr, d);
    }
  }

  /** Squaring is strictly monotone on the non-negative reals. */
  lemma SquareBelow(a: real, b: real)
    requires 0.0 <= a < b
    ensures a * a < b * b
  {
    var aa, ab, bb := a * a, a * b, b * b;
    assert aa <= ab;
    assert ab < bb;
  }

  /** Integer square root: `int(math.sqrt(n))` for a non-negative integer `n`. */
  function FloorSqrt(n: nat): (r: nat)
    ensures r * r <= n < (r + 1) * (r + 1)
  {
    if n == 0 then 0
    else
      var s := FloorSqrt(n - 1);
      if (s + 1) * (s + 1) <= n then s + 1 else s
  }

  /** `FloorSqrt(n)` is the floor of the real square root of `n`. */
  lemma FloorSqrtIsFloor(n: nat, d: real)
    requires d >= 0.0 && d * d == n as real
    ensures FloorSqrt(n) as real <= d < FloorSqrt(n) as real + 1.0
  {
    var r := FloorSqrt(n);
    SqrtCompare(d, n, r);
    SqrtCompare(d, n, r + 1);
  }

  /** Python's `int(a / b)` for a positive divisor: the quotient truncated toward zero. */
  function TruncDiv(a: int, b: int): (q: int)
    requires b > 0
    ensures a >= 0 ==> q * b <= a < (q + 1) * b
    ensures a < 0 ==> (q - 1) * b < a <= q * b
  {
    if a >= 0 then a / b else -((-a) / b)
  }

  /** `q` is `int(r)`: the real `r` truncated toward zero. */
  predicate IsTrunc(q: int, r: real) {
    && (r >= 0.0 ==> q as real <= r < q as real + 1.0)
    && (r < 0.0 ==> q as real - 1.0 < r <= q as real)
  }

  /** `TruncDiv(a, b)` is `int()` of the real quotient `a / b`. */
  lemma TruncDivIsReal(a: int, b: int)
    requires b > 0
    ensures IsTrunc(TruncDiv(a, b), a as real / b as real)
  {
    var q, br := TruncDiv(a, b), b as real;
    var r := a as real / br;
    assert a as real == r * br;
    if a >= 0 {
      RealCancelLe(q as real, r, br);
      RealCancelLt(r, q as real + 1.0, br);
    } else {
      RealCancelLt(q as real - 1.0, r, br);
      RealCancelLe(r, q as real, br);
    }
  }

  lemma RealCancelLe(x: real, y: real, c: real)
    requires c > 0.0 && x * c <= y * c
    ensures x <= y
  {
    assert (y - x) * c >= 0.0;
  }

  lemma RealCancelLt(x: real, y: real, c: real)
    requires c > 0.0 && x * c < y * c
    ensures x < y
  {
    assert (y - x) * c > 0.0;
  }
}
