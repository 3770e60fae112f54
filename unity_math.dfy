/**
 * The numeric primitives of Unity's Mathf and of C#'s integer operators, over
 * unbounded integers and exact reals (IEEE rounding is not modelled).
 */
module UnityMath {

  /** Mathf.Clamp01: below 0 gives 0, above 1 gives 1. */
  function Clamp01(t: real): (r: real)
    ensures 0.0 <= r <= 1.0
    ensures 0.0 <= t <= 1.0 ==> r == t
    ensures t < 0.0 ==> r == 0.0
    ensures t > 1.0 ==> r == 1.0
  {
    if t < 0.0 then 0.0 else if t > 1.0 then 1.0 else t
  }

  /** Mathf.Lerp: interpolation with the parameter clamped to [0, 1]. */
  function Lerp(a: real, b: real, t: real): real
  {
    a + (b - a) * Clamp01(t)
  }

  /** The result of Lerp always lies between its two end points, whatever t is. */
  lemma LerpBetween(a: real, b: real, t: real)
    ensures a <= b ==> a <= Lerp(a, b, t) <= b
    ensures b <= a ==> b <= Lerp(a, b, t) <= a
  {
    var d, c := b - a, Clamp01(t);
    MulBetween(d, c);
    assert Lerp(a, b, t) == a + d * c;
  }

  /** Lerp hits its end points at t = 0 and t = 1. */
  lemma LerpEnds(a: real, b: real)
    ensures Lerp(a, b, 0.0) == a && Lerp(a, b, 1.0) == b
  {
  }

  lemma MulBetween(d: real, c: real)
    requires 0.0 <= c <= 1.0
    ensures 0.0 <= d ==> 0.0 <= d * c <= d
    ensures d <= 0.0 ==> d <= d * c <= 0.0
  {
    assert d - d * c == d * (1.0 - c);
  }

  /** A quotient of a non-negative number by a larger positive one lies in [0, 1], below 1 when the dividend is smaller. */
  lemma DivBetween(a: real, b: real)
    requires 0.0 <= a <= b && 0.0 < b
    ensures 0.0 <= a / b <= 1.0
    ensures a < b ==> a / b < 1.0
  {
    var q := a / b;
    assert q * b == a;
  }

  /** A product divided by c is one factor times the other divided by c. */
  lemma MulDivSwap(a: real, b: real, c: real)
    requires c != 0.0
    ensures a * b / c == b * (a / c)
  {
    var x := a / c;
    assert x * c == a;
    assert b * x * c == a * b;
  }

  /** a * f / b for 0 <= a <= b scales f by a fraction: within [0, f], reaching f only when a == b. */
  lemma ScaleBetween(a: real, f: real, b: real)
    requires 0.0 <= a <= b && 0.0 < b && 0.0 < f
    ensures 0.0 <= a * f / b <= f
    ensures a * f / b == f <==> a == b
  {
    var u := a / b;
    MulDivSwap(a, f, b);
    DivBetween(a, b);
    MulBetween(f, u);
    if a < b {
      assert f - f * u == f * (1.0 - u);
    }
  }

  /** Multiplying by c undoes dividing by c, and the other way round. */
  lemma DivMulCancel(a: real, c: real)
    requires c != 0.0
    ensures c * (a / c) == a && (c * a) / c == a
  {
  }

  /** Dividing by a positive number keeps the order. */
  lemma DivMonotone(a: real, c: real, d: real)
    requires a <= c && 0.0 < d
    ensures a / d <= c / d
  {
    var e := c / d - a / d;
    assert e * d == c - a;
  }

  /** With a non-negative end point, Lerp from 0 never decreases in t. */
  lemma LerpMonotone(b: real, s: real, t: real)
    requires 0.0 <= b && s <= t
    ensures Lerp(0.0, b, s) <= Lerp(0.0, b, t)
  {
    var cs, ct := Clamp01(s), Clamp01(t);
    assert cs <= ct;
    assert b * ct - b * cs == b * (ct - cs);
  }

  /** Mathf.FloorToInt: the largest integer not above r. */
  function FloorToInt(r: real): (i: int)
    ensures i as real <= r < i as real + 1.0
  {
    r.Floor
  }

  /** Mathf.Round, which rounds halves to the even neighbour (as Math.Round does). */
  function RoundHalfEven(r: real): (i: int)
    ensures r - 0.5 <= i as real <= r + 0.5
    ensures (i as real - r == 0.5 || r - i as real == 0.5) ==> i % 2 == 0
  {
    var f := r.Floor;
    var diff := r - f as real;
    if diff < 0.5 then f
    else if diff > 0.5 then f + 1
    else if f % 2 == 0 then f else f + 1
  }

  /** Rounding with halves away from zero, as .NET's custom numeric format "0" does. */
  function RoundHalfAwayFromZero(r: real): (i: int)
    ensures r - 0.5 <= i as real <= r + 0.5
    ensures 0.0 <= r ==> 0 <= i
    ensures r <= 0.0 ==> i <= 0
    ensures i as real - r == 0.5 ==> 0.0 <= r
    ensures r - i as real == 0.5 ==> r < 0.0
  {
    if r >= 0.0 then (r + 0.5).Floor else -((-r + 0.5).Floor)
  }

  /** C#'s `(int)` cast of a floating value: truncation toward zero. */
  function TruncateToInt(r: real): (i: int)
    ensures 0.0 <= r ==> 0 <= i && i as real <= r < i as real + 1.0
    ensures r < 0.0 ==> i <= 0 && i as real - 1.0 < r <= i as real
  {
    if r >= 0.0 then r.Floor else -((-r).Floor)
  }

  /** C#'s integer `/`, which truncates toward zero (Dafny's is Euclidean). */
  function CsDiv(a: int, b: int): int
    requires b != 0
  {
    if a >= 0 && b > 0 then a / b
    else if a < 0 && b > 0 then -((-a) / b)
    else if a >= 0 then -(a / (-b))
    else (-a) / (-b)
  }

  /** C#'s integer `%`, whose sign follows the dividend. */
  function CsMod(a: int, b: int): int
    requires b != 0
  {
    a - b * CsDiv(a, b)
  }

  /** On non-negative operands C#'s operators agree with Dafny's. */
  lemma CsDivModNonNegative(a: int, b: int)
    requires 0 <= a && 0 < b
    ensures CsDiv(a, b) == a / b && CsMod(a, b) == a % b
  {
  }

  /** A dividend below twice the divisor wraps at most once. */
  lemma CsModWrap(a: int, b: int)
    requires 0 <= a < 2 * b
    ensures CsMod(a, b) == if a < b then a else a - b
  {
    CsDivModNonNegative(a, b);
    if a < b {
      assert a / b == 0;
    } else {
      assert (a - b) / b == 0;
    }
  }

  /** On a negative dividend C#'s `/` rounds toward zero, unlike Dafny's Euclidean one. */
  lemma CsDivNegative(a: int, b: int)
    requires a < 0 && 0 < b
    ensures CsDiv(a, b) * b <= 0 && a <= CsDiv(a, b) * b && CsDiv(a, b) * b - a < b
  {
    var q := (-a) / b;
    assert q * b <= -a < q * b + b;
    assert CsDiv(a, b) == -q;
  }

  /** Absolute value of a real (Mathf.Abs / Math.Abs). */
  function Abs(r: real): (a: real)
    ensures 0.0 <= a && (a == r || a == -r)
  {
    if r < 0.0 then -r else r
  }

  /** The total of a run of frame delta times. */
  function Sum(deltas: seq<real>): real
    decreases |deltas|
  {
    if deltas == [] then 0.0 else Sum(deltas[..|deltas| - 1]) + deltas[|deltas| - 1]
  }
}
