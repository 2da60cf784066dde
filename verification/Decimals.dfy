/**
 The decimal library's arithmetic on exact values: sums, products and comparisons are those of the
 reals, `Div` rounds to 16 fractional digits, and both roundings go half away from zero.
 */
module Decimals {

  const SCALE: int := 10_000_000_000_000_000

  function RoundHalfAway(x: real): int {
    if x >= 0.0 then (x + 0.5).Floor else -((-x + 0.5).Floor)
  }

  function Quot(a: real, b: real): real
    requires b != 0.0
  {
    a / b
  }

  function Div(a: real, b: real): real
    requires b != 0.0
  {
    RoundHalfAway(Quot(a, b) * 10_000_000_000_000_000.0) as real / 10_000_000_000_000_000.0
  }

  /** `Floor` of the rounded quotient, and of the true one. */
  function FloorDiv(a: real, b: real): int
    requires b != 0.0
  {
    Div(a, b).Floor
  }

  function Whole(a: real, b: real): int
    requires b != 0.0
  {
    Quot(a, b).Floor
  }

  /** A product that a proof can take as one amount. */
  function Product(x: real, y: real): real { x * y }

  function Times(k: int, step: real): real { k as real * step }

  /** Half a unit in the last place of a quotient, times x. */
  function Slack(x: real): real { x / 20_000_000_000_000_000.0 }

  /** x is a whole number of steps. */
  predicate Multiple(x: real, step: real) {
    step > 0.0 && x == Times(Whole(x, step), step)
  }

  // ------------------------------------------------------------------
  // Products and quotients
  // ------------------------------------------------------------------

  lemma MulLe(x: real, y: real, z: real)
    requires x <= y && z >= 0.0
    ensures x * z <= y * z
  {
  }

  lemma MulLt(x: real, y: real, z: real)
    requires x < y && z > 0.0
    ensures x * z < y * z
  {
  }

  lemma TimesMonotone(j: int, k: int, step: real)
    requires step > 0.0
    ensures j <= k <==> Times(j, step) <= Times(k, step)
    ensures Times(j, step) == Times(k, step) ==> j == k
  {
    if j < k { MulLt(j as real, k as real, step); }
    if k < j { MulLt(k as real, j as real, step); }
  }

  lemma TimesAlgebra(j: int, k: int, step: real)
    ensures Times(j + k, step) == Times(j, step) + Times(k, step)
    ensures Times(j - k, step) == Times(j, step) - Times(k, step)
    ensures Times(j, Times(k, step)) == Times(j * k, step)
    ensures Times(-j, step) == -Times(j, step)
    ensures Times(0, step) == 0.0 && Times(1, step) == step
  {
    assert (j + k) as real == j as real + k as real;
    assert (j * k) as real == j as real * k as real;
    assert j as real * (k as real * step) == (j as real * k as real) * step;
  }

  lemma QuotTimes(k: int, step: real)
    requires step > 0.0
    ensures Quot(Times(k, step), step) == k as real
  {
  }

  lemma IsMultiple(k: int, step: real)
    requires step > 0.0
    ensures Whole(Times(k, step), step) == k && Multiple(Times(k, step), step)
  {
    hide Quot, Times;
    QuotTimes(k, step);
  }

  lemma QuotMonotone(a: real, b: real, d: real)
    requires a <= b && d > 0.0
    ensures Quot(a, d) <= Quot(b, d)
  {
  }

  /** k steps against an amount that is q of them. */
  lemma QuotAgainst(x: real, step: real, k: int)
    requires step > 0.0
    ensures k as real <= Quot(x, step) <==> Times(k, step) <= x
    ensures k as real < Quot(x, step) <==> Times(k, step) < x
  {
    var q := Quot(x, step);
    assert q * step == x;
    if k as real < q { MulLt(k as real, q, step); }
    if k as real > q { MulLt(q, k as real, step); }
  }

  lemma WholeBounds(x: real, step: real)
    requires step > 0.0
    ensures Times(Whole(x, step), step) <= x < Times(Whole(x, step), step) + step
  {
    hide Quot, Times;
    var k := Whole(x, step);
    QuotAgainst(x, step, k);
    QuotAgainst(x, step, k + 1);
    TimesAlgebra(k, 1, step);
  }

  lemma SlackScales(x: real, q: real, k: int, step: real)
    requires step > 0.0 && q == Quot(x, step) && k as real <= q + Slack(1.0)
    ensures Times(k, step) <= x + Slack(step)
  {
    assert q * step == x;
    MulLe(k as real - q, Slack(1.0), step);
    assert (k as real - q) * step == Times(k, step) - x;
    assert Slack(1.0) * step == Slack(step);
  }

  lemma PositiveMultiple(x: real, step: real)
    requires x > 0.0 && Multiple(x, step)
    ensures Whole(x, step) > 0 && step <= x
  {
    hide Quot, Times;
    var k := Whole(x, step);
    TimesMonotone(k, 0, step);
    TimesAlgebra(1, 0, step);
    TimesMonotone(1, k, step);
  }

  // ------------------------------------------------------------------
  // Rounding
  // ------------------------------------------------------------------

  lemma RoundMonotone(x: real, y: real)
    requires x <= y
    ensures RoundHalfAway(x) <= RoundHalfAway(y)
  {
  }

  lemma RoundNear(x: real)
    ensures x - 0.5 <= RoundHalfAway(x) as real <= x + 0.5
    ensures x == x.Floor as real ==> RoundHalfAway(x) == x.Floor
  {
  }

  lemma RoundOdd(x: real)
    ensures RoundHalfAway(-x) == -RoundHalfAway(x)
  {
  }

  lemma DivMonotone(a: real, b: real, d: real)
    requires a <= b && d > 0.0
    ensures Div(a, d) <= Div(b, d) && FloorDiv(a, d) <= FloorDiv(b, d)
  {
    QuotMonotone(a, b, d);
    hide Quot;
    RoundMonotone(Quot(a, d) * 10_000_000_000_000_000.0, Quot(b, d) * 10_000_000_000_000_000.0);
  }

  /** A rounded quotient is off by at most half a unit in its last place. */
  lemma DivNear(a: real, b: real)
    requires b != 0.0
    ensures Quot(a, b) - Slack(1.0) <= Div(a, b) <= Quot(a, b) + Slack(1.0)
  {
    hide Quot;
    RoundNear(Quot(a, b) * 10_000_000_000_000_000.0);
  }

  /** A number with at most 16 fractional digits is a barrier no rounding crosses. */
  lemma DivBarrier(a: real, b: real, h: int)
    requires b != 0.0
    ensures Quot(a, b) >= h as real / 10_000_000_000_000_000.0 ==> Div(a, b) >= h as real / 10_000_000_000_000_000.0
    ensures Quot(a, b) <= h as real / 10_000_000_000_000_000.0 ==> Div(a, b) <= h as real / 10_000_000_000_000_000.0
  {
    hide Quot;
    var x := Quot(a, b) * 10_000_000_000_000_000.0;
    RoundNear(h as real);
    if x >= h as real { RoundMonotone(h as real, x); }
    if x <= h as real { RoundMonotone(x, h as real); }
  }

  /** A quotient that is not negative rounds to h last places or more exactly from half a last place below them. */
  lemma DivReaches(a: real, b: real, h: int)
    requires b != 0.0 && Quot(a, b) >= 0.0 && h > 0
    ensures Div(a, b) >= h as real / 10_000_000_000_000_000.0 <==> Quot(a, b) + Slack(1.0) >= h as real / 10_000_000_000_000_000.0
  {
    var y := Quot(a, b) * 10_000_000_000_000_000.0;
    assert RoundHalfAway(y) >= h <==> y + 0.5 >= h as real;
    hide Quot;
  }

  lemma DivOdd(a: real, b: real)
    requires b != 0.0
    ensures Div(-a, b) == -Div(a, b)
  {
    assert Quot(-a, b) == -Quot(a, b);
    hide Quot;
    RoundOdd(Quot(a, b) * 10_000_000_000_000_000.0);
    hide RoundHalfAway;
  }

  /** Rounding a quotient can only lift it onto the next whole number. */
  lemma FloorDivNear(a: real, b: real)
    requires b != 0.0
    ensures Whole(a, b) <= FloorDiv(a, b) <= Whole(a, b) + 1
    ensures FloorDiv(a, b) as real <= Quot(a, b) + Slack(1.0)
    ensures FloorDiv(a, b) > Whole(a, b) ==> FloorDiv(a, b) as real > Quot(a, b)
  {
    DivNear(a, b);
    DivBarrier(a, b, Whole(a, b) * SCALE);
    hide Quot, Div;
  }

  /** So close below the next whole number that rounding to 16 digits reaches it. */
  predicate ReachesNext(a: real, b: real)
    requires b != 0.0
  {
    Quot(a, b) + Slack(1.0) >= Whole(a, b) as real + 1.0
  }

  /** The floor of a rounded quotient is the true one exactly when the quotient does not reach the next whole number. */
  lemma FloorDivTrueIff(a: real, b: real)
    requires a >= 0.0 && b > 0.0
    ensures FloorDiv(a, b) == Whole(a, b) <==> !ReachesNext(a, b)
  {
    QuotMonotone(0.0, a, b);
    QuotTimes(0, b);
    assert Times(0, b) == 0.0;
    FloorDivNear(a, b);
    hide Quot, Div, Times;
    DivReaches(a, b, (Whole(a, b) + 1) * SCALE);
  }

  lemma DivExact(k: int, step: real)
    requires step > 0.0
    ensures Div(Times(k, step), step) == k as real && FloorDiv(Times(k, step), step) == k
  {
    QuotTimes(k, step);
    hide Quot, Times;
    RoundNear((k * SCALE) as real);
  }

  /** Whole steps taken out of an amount by the rounded division, and when that is too many. */
  lemma StepsTaken(x: real, step: real)
    requires step > 0.0
    ensures x - step < Times(FloorDiv(x, step), step) <= x + Slack(step)
    ensures Times(FloorDiv(x, step), step) <= x <==> FloorDiv(x, step) == Whole(x, step)
  {
    hide Quot, Times, Slack, FloorDiv;
    var k := FloorDiv(x, step);
    FloorDivNear(x, step);
    WholeBounds(x, step);
    TimesMonotone(Whole(x, step), k, step);
    SlackScales(x, Quot(x, step), k, step);
    QuotAgainst(x, step, k);
  }

  /** A multiple of the step that bounds an amount bounds the steps taken out of it. */
  lemma StepsBounded(x: real, bound: real, step: real)
    requires Multiple(bound, step)
    ensures bound <= x ==> bound <= Times(FloorDiv(x, step), step)
    ensures x <= bound ==> Times(FloorDiv(x, step), step) <= bound
  {
    hide Quot, Times, FloorDiv;
    var k, b := FloorDiv(x, step), Whole(bound, step);
    DivExact(b, step);
    TimesMonotone(b, k, step);
    TimesMonotone(k, b, step);
    if bound <= x { DivMonotone(bound, x, step); }
    if x <= bound { DivMonotone(x, bound, step); }
  }

  // ------------------------------------------------------------------
  // When the rounded floor is the true one
  // ------------------------------------------------------------------

  /** m units over n units, as a quotient and remainder. */
  lemma UnitQuotient(a: real, b: real, m: int, n: int, u: real)
    requires n > 0 && u > 0.0 && a == Times(m, u) && b == Times(n, u)
    ensures b > 0.0
    ensures (Quot(a, b) - (m / n) as real) * n as real == (m % n) as real
    ensures Whole(a, b) == m / n
  {
    MulLt(0.0, n as real, u);
    var x := Quot(a, b);
    var y := x * n as real;
    assert y * u == a by {
      assert x * b == a;
      assert x * (n as real * u) == (x * n as real) * u;
    }
    if y < m as real { MulLt(y, m as real, u); }
    if y > m as real { MulLt(m as real, y, u); }
    QuotientRemainder(x, m, n);
  }

  lemma QuotientRemainder(x: real, m: int, n: int)
    requires n > 0 && x * n as real == m as real
    ensures (x - (m / n) as real) * n as real == (m % n) as real
    ensures x.Floor == m / n
  {
    var q, r := m / n, m % n;
    assert m == q * n + r;
    assert (q * n) as real == q as real * n as real;
    var f := x - q as real;
    assert f * n as real == r as real;
    if f < 0.0 { MulLt(f, 0.0, n as real); }
    if f >= 1.0 { MulLe(1.0, f, n as real); }
  }

  /** An n-th against half a unit in the last place. */
  lemma GapVersusSlack(gap: real, n: int)
    requires n > 0
    ensures gap * n as real >= 1.0 && n < 2 * SCALE ==> gap > Slack(1.0)
    ensures gap * n as real == 1.0 && n >= 2 * SCALE ==> gap <= Slack(1.0)
  {
    var s := Slack(1.0);
    assert s * n as real == n as real / 20_000_000_000_000_000.0;
    if gap <= s {
      MulLe(gap, s, n as real);
    } else {
      MulLt(s, gap, n as real);
    }
  }

  lemma GapAbove(x: real, q: int, r: int, n: int)
    requires n > 0 && (x - q as real) * n as real == r as real && r <= n - 1
    ensures (q as real + 1.0 - x) * n as real >= 1.0
  {
  }

  /** Floor after the rounded division is integer division, for divisors below 2 * 10^16 units. */
  lemma FloorDivExact(a: real, b: real, m: int, n: int, u: real)
    requires 0 < n < 2 * SCALE && u > 0.0 && a == Times(m, u) && b == Times(n, u)
    ensures b > 0.0 && FloorDiv(a, b) == Whole(a, b) == m / n
  {
    hide Quot, Times, Div;
    UnitQuotient(a, b, m, n, u);
    FloorDivNear(a, b);
    GapAbove(Quot(a, b), m / n, m % n, n);
    GapVersusSlack((m / n) as real + 1.0 - Quot(a, b), n);
  }

  /** From 2 * 10^16 units on, the quotient just below one rounds up to one. */
  lemma FloorDivTooFine(a: real, b: real, n: int, u: real)
    requires n >= 2 * SCALE && u > 0.0 && a == Times(n - 1, u) && b == Times(n, u)
    ensures b > 0.0 && (n - 1) / n == 0 && FloorDiv(a, b) == 1
  {
    UnitQuotient(a, b, n - 1, n, u);
    var x := Quot(a, b);
    assert (1.0 - x) * n as real == 1.0;
    GapVersusSlack(1.0 - x, n);
    FloorDivNear(a, b);
    hide Quot, Times;
    RoundMonotone(9_999_999_999_999_999.5, x * 10_000_000_000_000_000.0);
  }

  /** The bound is exact: it separates the divisors that are always safe from the others. */
  lemma FloorDivExactIff(n: int, u: real, b: real)
    requires n > 0 && u > 0.0 && b == Times(n, u)
    ensures b > 0.0
    ensures (forall m: nat :: FloorDiv(Times(m, u), b) == m / n) <==> n < 2 * SCALE
  {
    MulLt(0.0, n as real, u);
    hide Times, FloorDiv;
    if n < 2 * SCALE {
      forall m: nat ensures FloorDiv(Times(m, u), b) == m / n {
        FloorDivExact(Times(m, u), b, m, n, u);
      }
    } else {
      var m: nat := n - 1;
      FloorDivTooFine(Times(m, u), b, n, u);
      assert FloorDiv(Times(m, u), b) != m / n;
    }
  }
}
