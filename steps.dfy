/**
 * Exact decimal step arithmetic. The backend converts every float to
 * `Decimal(str(x))` before dividing by a broker step, so the model works on
 * exact reals. The `to_integral_value` rounding modes it uses are ROUND_FLOOR
 * and, on values that are never negative, ROUND_DOWN and ROUND_UP, which
 * there coincide with the floor and the ceiling.
 */
module Steps {

  /** `k` steps of size `s`. */
  function Scaled(k: int, s: real): real {
    k as real * s
  }

  /** `v` is an integer number of steps of size `s`. */
  ghost predicate IsMultiple(v: real, s: real) {
    exists k: int :: v == Scaled(k, s)
  }

  /** `x` has no fractional part. */
  predicate IsIntegral(x: real) {
    x.Floor as real == x
  }

  /** ROUND_FLOOR */
  function Floor(x: real): (k: int)
    ensures k as real <= x < k as real + 1.0
  {
    x.Floor
  }

  /** Ceiling, the mirror image of `Floor`. */
  function Ceil(x: real): (k: int)
    ensures k as real - 1.0 < x <= k as real
  {
    -((-x).Floor)
  }

  lemma ScaleLe(a: real, b: real, s: real)
    requires a <= b && s > 0.0
    ensures a * s <= b * s
  {}

  lemma ScaleLt(a: real, b: real, s: real)
    requires a < b && s > 0.0
    ensures a * s < b * s
  {}

  lemma DivMul(v: real, s: real)
    requires s != 0.0
    ensures (v / s) * s == v
  {}

  /** Dividing `k` steps by the step gives back `k`. */
  lemma ScaledDiv(k: int, s: real)
    requires s != 0.0
    ensures Scaled(k, s) / s == k as real
  {}

  /** With a positive step, more steps is more volume, and conversely. */
  lemma ScaledMonotone(j: int, k: int, s: real)
    requires s > 0.0
    ensures j <= k <==> Scaled(j, s) <= Scaled(k, s)
  {
    if j <= k { ScaleLe(j as real, k as real, s); } else { ScaleLt(k as real, j as real, s); }
  }

  /** Being a whole number of steps and having an integral quotient are the same thing. */
  lemma MultipleIffIntegral(v: real, s: real)
    requires s > 0.0
    ensures IsMultiple(v, s) <==> IsIntegral(v / s)
  {
    if IsMultiple(v, s) {
      var k :| v == Scaled(k, s);
      ScaledDiv(k, s);
    }
    if IsIntegral(v / s) {
      var k := (v / s).Floor;
      DivMul(v, s);
      assert v == Scaled(k, s);
    }
  }

  /** `Scaled(k, s)` is a multiple of `s`. */
  lemma ScaledIsMultiple(k: int, s: real)
    ensures IsMultiple(Scaled(k, s), s)
  {}

  /** ROUND_FLOOR of `v / s`, times `s`: the largest multiple of `s` not above `v`. */
  function FloorSteps(v: real, s: real): (r: real)
    requires s > 0.0
    ensures IsMultiple(r, s)
    ensures r <= v < r + s
  {
    var k := Floor(v / s);
    FloorBracket(v, s, k);
    Scaled(k, s)
  }

  /** Scaling `k <= v / s < k + 1` back by `s`. */
  lemma FloorBracket(v: real, s: real, k: int)
    requires s > 0.0 && k as real <= v / s < k as real + 1.0
    ensures Scaled(k, s) <= v < Scaled(k, s) + s
    ensures IsMultiple(Scaled(k, s), s)
  {
    var x := v / s;
    ScaleLe(k as real, x, s);
    ScaleLt(x, k as real + 1.0, s);
    DivMul(v, s);
    assert (k as real + 1.0) * s == Scaled(k, s) + s;
    ScaledIsMultiple(k, s);
  }

  /** Scaling `k - 1 < v / s <= k` back by `s`. */
  lemma CeilBracket(v: real, s: real, k: int)
    requires s > 0.0 && k as real - 1.0 < v / s <= k as real
    ensures Scaled(k, s) - s < v <= Scaled(k, s)
    ensures IsMultiple(Scaled(k, s), s)
  {
    var x := v / s;
    ScaleLe(x, k as real, s);
    ScaleLt(k as real - 1.0, x, s);
    DivMul(v, s);
    assert (k as real - 1.0) * s == Scaled(k, s) - s;
    ScaledIsMultiple(k, s);
  }

  /** Ceiling of `v / s`, times `s`: the smallest multiple of `s` not below `v`. */
  function CeilSteps(v: real, s: real): (r: real)
    requires s > 0.0
    ensures IsMultiple(r, s)
    ensures r - s < v <= r
  {
    var k := Ceil(v / s);
    CeilBracket(v, s, k);
    Scaled(k, s)
  }

  /** Any multiple of `s` not above `v` is at most `FloorSteps(v, s)`. */
  lemma FloorStepsIsGreatest(v: real, s: real, k: int)
    requires s > 0.0 && Scaled(k, s) <= v
    ensures Scaled(k, s) <= FloorSteps(v, s)
  {
    var f := Floor(v / s);
    assert FloorSteps(v, s) == Scaled(f, s);
    assert Scaled(f + 1, s) == Scaled(f, s) + s;
    ScaledMonotone(f + 1, k, s);
    ScaledMonotone(k, f, s);
  }

  /** Any multiple of `s` not below `v` is at least `CeilSteps(v, s)`. */
  lemma CeilStepsIsLeast(v: real, s: real, k: int)
    requires s > 0.0 && v <= Scaled(k, s)
    ensures CeilSteps(v, s) <= Scaled(k, s)
  {
    var c := Ceil(v / s);
    assert CeilSteps(v, s) == Scaled(c, s);
    assert Scaled(c - 1, s) == Scaled(c, s) - s;
    ScaledMonotone(k, c - 1, s);
    ScaledMonotone(c, k, s);
  }

  /** A value already on the step grid is left alone by flooring. */
  lemma FloorStepsOfMultiple(v: real, s: real)
    requires s > 0.0 && IsMultiple(v, s)
    ensures FloorSteps(v, s) == v
  {
    var k :| v == Scaled(k, s);
    FloorStepsIsGreatest(v, s, k);
  }

  /** A value already on the step grid is left alone by the ceiling. */
  lemma CeilStepsOfMultiple(v: real, s: real)
    requires s > 0.0 && IsMultiple(v, s)
    ensures CeilSteps(v, s) == v
  {
    var k :| v == Scaled(k, s);
    CeilStepsIsLeast(v, s, k);
  }

  /** Two distinct multiples of `s` are at least `s` apart. */
  lemma MultiplesApart(a: real, b: real, s: real)
    requires s > 0.0 && IsMultiple(a, s) && IsMultiple(b, s) && a < b
    ensures a + s <= b
  {
    var j :| a == Scaled(j, s);
    var k :| b == Scaled(k, s);
    ScaledMonotone(k, j, s);
    ScaledMonotone(j + 1, k, s);
    assert Scaled(j + 1, s) == a + s;
  }

  /**
   * Python's `round` to an integer on an exact value: to the nearest
   * integer, ties to the even one.
   */
  function RoundHalfEven(x: real): (k: int)
    ensures k as real - 0.5 <= x <= k as real + 0.5
  {
    var f := Floor(x);
    var d := x - f as real;
    if d < 0.5 then f
    else if d > 0.5 then f + 1
    else if f % 2 == 0 then f
    else f + 1
  }

  /** A tie goes to the even neighbour. */
  lemma RoundHalfEvenTie(x: real)
    requires x - Floor(x) as real == 0.5
    ensures RoundHalfEven(x) % 2 == 0
  {}

  lemma RoundHalfEvenNonNegative(x: real)
    requires x >= 0.0
    ensures RoundHalfEven(x) >= 0
  {}

  /** `round(x, 2)` on an exact value. */
  function Round2(x: real): (r: real)
    ensures IsMultiple(r, 0.01)
    ensures r - 0.005 <= x <= r + 0.005
  {
    var k := RoundHalfEven(x * 100.0);
    assert k as real / 100.0 == Scaled(k, 0.01);
    ScaledIsMultiple(k, 0.01);
    k as real / 100.0
  }

  lemma Round2NonNegative(x: real)
    requires x >= 0.0
    ensures Round2(x) >= 0.0
  {
    RoundHalfEvenNonNegative(x * 100.0);
  }

  /** Rounding to cents never goes past a cent-aligned upper bound. */
  lemma Round2AtMost(x: real, v: real)
    requires IsMultiple(v, 0.01) && x <= v
    ensures Round2(x) <= v
  {
    var n :| v == Scaled(n, 0.01);
    var k := RoundHalfEven(x * 100.0);
    assert x * 100.0 <= n as real;
    assert k <= n;
  }
}
