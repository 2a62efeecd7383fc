/** JavaScript's number rounding: `Math.round` and `Number.prototype.toFixed`. */
module Numeric {

  /** `Math.max(a, b)`. */
  function Max(a: real, b: real): (r: real)
    ensures r >= a && r >= b && (r == a || r == b)
  {
    if a >= b then a else b
  }

  /** `Math.min(a, b)`. */
  function Min(a: real, b: real): (r: real)
    ensures r <= a && r <= b && (r == a || r == b)
  {
    if a <= b then a else b
  }

  /** `Math.pow(10, d)`. */
  function Pow10(d: nat): (r: real)
    ensures r >= 1.0
  {
    if d == 0 then 1.0 else 10.0 * Pow10(d - 1)
  }

  /** `Math.round(x)`: the nearest integer, a half rounded up (towards +infinity). */
  function MathRound(x: real): (n: int)
    ensures n as real - 0.5 <= x < n as real + 0.5
  {
    (x + 0.5).Floor
  }

  /** The contract of `MathRound` determines its result. */
  lemma MathRoundUnique(x: real, n: int)
    requires n as real - 0.5 <= x < n as real + 0.5
    ensures MathRound(x) == n
  {
  }

  /** An integer is its own rounding. */
  lemma MathRoundOfInt(n: int)
    ensures MathRound(n as real) == n
  {
    MathRoundUnique(n as real, n);
  }

  /**
   * `x.toFixed(d)` read back as a number: `d` decimals, a half rounded away
   * from zero (the sign is split off first, then the magnitude is rounded up).
   */
  function ToFixed(x: real, d: nat): (r: real)
    ensures x >= 0.0 ==> r >= 0.0
    ensures x <= 0.0 ==> r <= 0.0
    ensures -0.5 / Pow10(d) <= r - x <= 0.5 / Pow10(d)
  {
    if x < 0.0 then -RoundMagnitude(-x, d) else RoundMagnitude(x, d)
  }

  /** A non-negative `m` rounded to `d` decimals, a half going up. */
  function RoundMagnitude(m: real, d: nat): (r: real)
    requires m >= 0.0
    ensures r >= 0.0
    ensures -0.5 / Pow10(d) <= r - m <= 0.5 / Pow10(d)
  {
    var p := Pow10(d);
    var k := MathRound(m * p);
    assert k as real <= m * p + 0.5 && k as real > m * p - 0.5;
    DivBounds(k as real, m * p, p);
    assert (m * p) / p == m;
    k as real / p
  }

  /** Dividing `|a - b| <= 1/2` by a positive `p`. */
  lemma DivBounds(a: real, b: real, p: real)
    requires p > 0.0 && b - 0.5 <= a <= b + 0.5
    ensures b / p - 0.5 / p <= a / p <= b / p + 0.5 / p
  {
    assert a / p - b / p == (a - b) / p;
  }

  /** `Math.floor(x)`. */
  function MathFloor(x: real): (n: int)
    ensures n as real <= x < n as real + 1.0
  {
    x.Floor
  }

  /** A draw `r` in `[0, 1)` times a width `w` lies between 0 (included) and `w` (excluded). */
  lemma DrawTimes(r: real, w: real)
    requires 0.0 <= r < 1.0
    ensures w > 0.0 ==> 0.0 <= r * w < w
    ensures w < 0.0 ==> w < r * w <= 0.0
  {
    if w > 0.0 {
      MulNonNegative(r, w);
      MulPositive(1.0 - r, w);
      assert (1.0 - r) * w == w - r * w;
    } else if w < 0.0 {
      MulNonNegative(r, -w);
      MulPositive(1.0 - r, -w);
      assert r * -w == -(r * w);
      assert (1.0 - r) * -w == r * w - w;
    }
  }

  lemma MulNonNegative(a: real, b: real)
    requires a >= 0.0 && b >= 0.0
    ensures a * b >= 0.0
  {
  }

  lemma MulPositive(a: real, b: real)
    requires a > 0.0 && b > 0.0
    ensures a * b > 0.0
  {
  }

  /** `Math.floor(r * n)` for a draw `r`: a valid index into a list of length `n > 0`. */
  function DrawIndex(r: real, n: nat): (i: nat)
    requires 0.0 <= r < 1.0 && n > 0
    ensures i < n
  {
    var x := r * n as real;
    DrawTimes(r, n as real);
    assert 0.0 <= x < n as real;
    var i := MathFloor(x);
    assert i as real <= x < n as real;
    i
  }
}
