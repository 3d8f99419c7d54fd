/**
 Arithmetic in Python's default decimal context: every result is rounded
 half-even to 28 significant digits. Amounts are the real numbers they denote;
 overflow and underflow of the exponent are not modelled.
 */
module DecimalContext {

  const PRECISION := 28

  /** Ten to the power `e`. */
  function Pow10(e: int): (r: real)
    ensures r > 0.0
    decreases if e < 0 then -e else e
  {
    if e == 0 then 1.0
    else if e > 0 then 10.0 * Pow10(e - 1)
    else Pow10(e + 1) / 10.0
  }

  function IntPow10(n: nat): (r: nat)
    ensures r >= 1
  {
    if n == 0 then 1 else 10 * IntPow10(n - 1)
  }

  /** A whole multiple of a unit. */
  function Times(k: int, unit: real): real {
    k as real * unit
  }

  lemma Pow10Step(e: int)
    ensures Pow10(e + 1) == 10.0 * Pow10(e)
  {
  }

  lemma {:induction false} Pow10Add(e: int, n: nat)
    ensures Pow10(e + n) == Times(IntPow10(n), Pow10(e))
  {
    if n > 0 {
      Pow10Add(e, n - 1);
      Pow10Step(e + n - 1);
      TenTimes(IntPow10(n - 1), Pow10(e));
    }
  }

  lemma TenTimes(k: int, unit: real)
    ensures Times(10 * k, unit) == 10.0 * Times(k, unit)
  {
    assert (10 * k) as real == 10.0 * k as real;
  }

  lemma {:induction false} Pow10Monotone(e: int, f: int)
    requires e <= f
    ensures Pow10(e) <= Pow10(f)
    decreases f - e
  {
    if e < f {
      Pow10Monotone(e, f - 1);
      Pow10Step(f - 1);
    }
  }

  /** The exponent of a positive number in scientific notation. */
  function Exponent(x: real): (e: int)
    requires x > 0.0
    decreases x < 1.0, if x >= 1.0 then x else 2.0 / x
  {
    if x >= 10.0 then
      Exponent(x / 10.0) + 1
    else if x < 1.0 then
      SmallerReciprocal(x);
      Exponent(x * 10.0) - 1
    else 0
  }

  lemma SmallerReciprocal(x: real)
    requires 0.0 < x < 1.0
    ensures 0.0 < 2.0 / (x * 10.0) <= 2.0 / x - 1.0
  {
    var y := 2.0 / x;
    assert y - 2.0 == 2.0 * (1.0 - x) / x;
    assert 2.0 / (x * 10.0) == y / 10.0 by {
      assert (y / 10.0) * (x * 10.0) == y * x == 2.0;
    }
  }

  lemma {:induction false} ExponentBounds(x: real)
    requires x > 0.0
    ensures Pow10(Exponent(x)) <= x < Pow10(Exponent(x) + 1)
    decreases x < 1.0, if x >= 1.0 then x else 2.0 / x
  {
    if x >= 10.0 {
      ExponentBounds(x / 10.0);
      Pow10Step(Exponent(x / 10.0));
      Pow10Step(Exponent(x / 10.0) + 1);
    } else if x < 1.0 {
      SmallerReciprocal(x);
      ExponentBounds(x * 10.0);
      Pow10Step(Exponent(x * 10.0) - 1);
      Pow10Step(Exponent(x * 10.0));
    } else {
      assert Pow10(1) == 10.0 * Pow10(0);
    }
  }

  /** Only one decade contains a given number. */
  function RoundHalfEven(x: real): int {
    var f := x.Floor;
    var r := x - f as real;
    if r < 0.5 then f
    else if r > 0.5 then f + 1
    else if f % 2 == 0 then f else f + 1
  }

  /** The unit of the last of the 28 digits of a positive number. */
  function Quantum(x: real): (q: real)
    requires x > 0.0
    ensures q > 0.0
  {
    Pow10(Exponent(x) - (PRECISION - 1))
  }

  /** The multiple of `unit` nearest to `x`, the even one on a tie. */
  function RoundTo(x: real, unit: real): real
    requires unit > 0.0
  {
    Times(RoundHalfEven(x / unit), unit)
  }

  function RoundPositive(x: real): real
    requires x > 0.0
  {
    RoundTo(x, Quantum(x))
  }

  /** The result an operation delivers when its exact value is `x`. */
  function Round(x: real): real {
    if x == 0.0 then 0.0
    else if x > 0.0 then RoundPositive(x)
    else -RoundPositive(-x)
  }

  function Abs(x: real): (r: real)
    ensures r >= 0.0
  {
    if x < 0.0 then -x else x
  }

  // ---- exactness on cents ------------------------------------------------

  /** A whole number of cents, at most ten thousand billion in absolute value. */
  /** One more than the largest number of cents that 28 digits can hold. */
  const CENTS_LIMIT := 100_000_000_000_000_000_000_000_000

  predicate IsCents(x: real, cents: int) {
    x * 100.0 == cents as real && -CENTS_LIMIT < cents < CENTS_LIMIT
  }

  lemma QuotientOfMultiple(k: int, q: real)
    requires q > 0.0
    ensures Times(k, q) / q == k as real
  {
  }

  lemma QuotientTimesDivisor(x: real, q: real)
    requires q > 0.0
    ensures (x / q) * q == x
  {
  }

  /** Multiplying by a positive number keeps and reflects the order. */
  lemma ScaledOrder(a: real, b: real, q: real)
    requires q > 0.0
    ensures a <= b <==> a * q <= b * q
  {
    if a <= b {
      assert (b - a) * q >= 0.0;
    } else {
      assert (a - b) * q > 0.0;
    }
  }

  /** Numbers that fit in 28 digits are not changed by rounding. */
  lemma RoundPositiveExact(x: real, unit: int, k: int)
    requires x > 0.0
    requires x == Times(k, Pow10(unit))
    requires x < Pow10(unit + PRECISION)
    ensures RoundPositive(x) == x
  {
    var e := Exponent(x);
    ExponentBounds(x);
    if e >= unit + PRECISION {
      Pow10Monotone(unit + PRECISION, e);
    }
    MultipleIsNotRounded(x, e - (PRECISION - 1), unit, k);
  }

  lemma MultipleIsNotRounded(x: real, last: int, unit: int, k: int)
    requires last <= unit && x == Times(k, Pow10(unit))
    ensures RoundTo(x, Pow10(last)) == x
  {
    Pow10Add(last, unit - last);
    RoundOfMultiple(x, Pow10(last), IntPow10(unit - last), Pow10(unit), k);
  }

  lemma RoundOfMultiple(x: real, q: real, m: int, u: real, k: int)
    requires q > 0.0 && u == Times(m, q) && x == Times(k, u)
    ensures RoundTo(x, q) == x
  {
    assert x == Times(k * m, q) by {
      assert (k * m) as real == k as real * m as real;
    }
    QuotientOfMultiple(k * m, q);
  }

  lemma Pow10OfMinusTwo()
    ensures Pow10(-2) == 0.01 && Pow10(-1) == 0.1
  {
    assert Pow10(-1) == Pow10(0) / 10.0;
    assert Pow10(-2) == Pow10(-1) / 10.0;
  }

  lemma CentsFit(e: int)
    requires e == 26
    ensures Pow10(e) == CENTS_LIMIT as real
  {
    Pow10Add(0, 26);
    assert IntPow10(13) == 10_000_000_000_000;
    assert IntPow10(26) == CENTS_LIMIT;
  }

  lemma RoundExactOnCents(x: real, cents: int)
    requires IsCents(x, cents)
    ensures Round(x) == x
  {
    Pow10OfMinusTwo();
    CentsFit(26);
    if x > 0.0 {
      RoundPositiveExact(x, -2, cents);
    } else if x < 0.0 {
      RoundPositiveExact(-x, -2, -cents);
    }
  }

  // ---- the two per cent test ----------------------------------------------

  lemma RoundHalfEvenVersusEven(y: real, k: int)
    requires k % 2 == 0
    ensures RoundHalfEven(y) <= k <==> y <= k as real + 0.5
  {
    var f := y.Floor;
    var r := y - f as real;
    if f > k {
      assert f as real >= k as real + 1.0;
    } else if f < k {
      assert f as real + 1.0 <= k as real;
    }
  }

  lemma RoundPositiveStaysInDecade(x: real)
    requires x > 0.0
    ensures Pow10(Exponent(x)) <= RoundPositive(x) <= Pow10(Exponent(x) + 1)
  {
    ExponentBounds(x);
    RoundedBetweenPowers(x, Exponent(x) - (PRECISION - 1), PRECISION - 1);
  }

  lemma RoundedBetweenPowers(x: real, last: int, n: nat)
    requires Pow10(last + n) <= x < Pow10(last + n + 1)
    ensures Pow10(last + n) <= RoundTo(x, Pow10(last)) <= Pow10(last + n + 1)
  {
    Pow10Add(last, n);
    Pow10Add(last, n + 1);
    RoundedBetween(x, Pow10(last), IntPow10(n), IntPow10(n + 1));
  }

  lemma HalfEvenBetween(y: real, low: int, high: int)
    requires low as real <= y < high as real
    ensures low <= RoundHalfEven(y) <= high
  {
  }

  lemma RoundedBetween(x: real, q: real, low: int, high: int)
    requires q > 0.0 && Times(low, q) <= x < Times(high, q)
    ensures Times(low, q) <= RoundTo(x, q) <= Times(high, q)
  {
    QuotientBounds(x, q, low as real, high as real);
    var c := RoundHalfEven(x / q);
    HalfEvenBetween(x / q, low, high);
    TimesOrder(low, c, q);
    TimesOrder(c, high, q);
  }

  lemma QuotientBounds(x: real, q: real, low: real, high: real)
    requires q > 0.0 && low * q <= x < high * q
    ensures low <= x / q < high
  {
    var y := x / q;
    QuotientTimesDivisor(x, q);
    ScaledOrder(low, y, q);
    ScaledOrder(high, y, q);
  }

  lemma TimesOrder(a: int, b: int, q: real)
    requires q > 0.0
    ensures a <= b <==> Times(a, q) <= Times(b, q)
  {
    ScaledOrder(a as real, b as real, q);
  }

  /** How far above 0.02 an exact quotient may lie and still be rounded down to it. */
  const HALF_UNIT: real := Pow10(-29) / 2.0

  /**
   The comparison `quotient <= Decimal("0.02")`, for every non-negative exact
   quotient: rounding lets through the values above 0.02 by at most half a unit
   of the 28th digit, and no others.
   */
  lemma TwoPercentTest(q: real)
    requires q >= 0.0
    ensures Round(q) <= 0.02 <==> q <= 0.02 + HALF_UNIT
  {
    Pow10OfMinusTwo();
    if q > 0.0 {
      var e := Exponent(q);
      ExponentBounds(q);
      RoundPositiveStaysInDecade(q);
      if e < -2 {
        Pow10Monotone(e + 1, -2);
      } else if e > -2 {
        Pow10Monotone(-1, e);
        SmallHalfUnit();
      } else {
        TwoPercentTestInDecade(q);
      }
    }
  }

  lemma TwoPercentTestInDecade(q: real)
    requires q > 0.0 && Exponent(q) == -2
    ensures Round(q) <= 0.02 <==> q <= 0.02 + HALF_UNIT
  {
    Pow10OfMinusTwo();
    RoundedVersusTwoHundredths(q, -2 - (PRECISION - 1), PRECISION - 1);
  }

  lemma RoundedVersusTwoHundredths(q: real, last: int, n: nat)
    requires last + n == -2
    ensures RoundTo(q, Pow10(last)) <= 0.02 <==> q <= 0.02 + Pow10(last) / 2.0
  {
    var u := Pow10(last);
    var k := TwoHundredths(last, n, u);
    RoundedVersusEven(q, u, k, 0.02);
  }

  lemma TwoHundredths(last: int, n: nat, u: real) returns (k: int)
    requires last + n == -2 && u == Pow10(last)
    ensures k % 2 == 0 && 0.02 == Times(k, u)
  {
    k := 2 * IntPow10(n);
    Doubled(IntPow10(n), u);
    HundredthOf(last, n);
  }

  lemma HundredthOf(last: int, n: nat)
    requires last + n == -2
    ensures Times(IntPow10(n), Pow10(last)) == 0.01
  {
    Pow10OfMinusTwo();
    Pow10Add(last, n);
  }

  lemma Doubled(k: int, unit: real)
    ensures Times(2 * k, unit) == 2.0 * Times(k, unit)
  {
    assert (2 * k) as real == 2.0 * k as real;
  }

  lemma RoundedVersusEven(q: real, u: real, k: int, bound: real)
    requires u > 0.0 && k % 2 == 0 && bound == Times(k, u)
    ensures RoundTo(q, u) <= bound <==> q <= bound + u / 2.0
  {
    RoundHalfEvenVersusEven(q / u, k);
    TimesOrder(RoundHalfEven(q / u), k, u);
    HalfwayScaled(q, u, k);
  }

  lemma HalfwayScaled(q: real, u: real, k: int)
    requires u > 0.0
    ensures q / u <= k as real + 0.5 <==> q <= Times(k, u) + u / 2.0
  {
    QuotientTimesDivisor(q, u);
    ScaledOrder(q / u, k as real + 0.5, u);
    assert (k as real + 0.5) * u == k as real * u + u / 2.0;
  }

  lemma SmallHalfUnit()
    ensures 0.0 < HALF_UNIT < 0.000_000_000_000_01
  {
    Pow10Monotone(-29, -14);
    Pow10Of14(-14);
  }

  lemma Pow10Of14(e: int)
    requires e == -14
    ensures Pow10(e) == 0.000_000_000_000_01
  {
    Pow10Add(e, 14);
    assert IntPow10(14) == 100_000_000_000_000;
  }

  /**
   On cents the test is exact, boundary included: it agrees with the integer
   comparison 50 * |difference| <= total.
   */
  lemma TwoPercentTestExactOnCents(difference: int, total: int)
    requires 0 < total <= 1_000_000_000_000
    ensures var exact := Abs(difference as real / 100.0) / (total as real / 100.0);
            Round(exact) <= 0.02 <==> -total <= 50 * difference <= total
  {
    var n := if difference < 0 then -difference else difference;
    var exact := Abs(difference as real / 100.0) / (total as real / 100.0);
    var t := total as real;
    assert exact * t == n as real by {
      assert Abs(difference as real / 100.0) == n as real / 100.0;
      assert exact * (t / 100.0) == n as real / 100.0;
    }
    QuotientNearTwoPercent(exact, n, total);
    TwoPercentTest(exact);
    SmallHalfUnit();
  }

  lemma QuotientNearTwoPercent(exact: real, n: nat, total: int)
    requires 0 < total <= 1_000_000_000_000 && exact * total as real == n as real
    ensures exact >= 0.0
    ensures 50 * n <= total ==> exact <= 0.02
    ensures 50 * n > total ==> exact >= 0.020_000_000_000_01
  {
    var t := total as real;
    assert 0.0 * t == 0.0;
    ScaledOrder(0.0, exact, t);
    ScaledOrder(exact, 0.02, t);
    if 50 * n <= total {
      assert exact * t <= 0.02 * t;
    } else {
      assert 0.020_000_000_000_01 * t <= 0.02 * t + 0.01;
      ScaledOrder(0.020_000_000_000_01, exact, t);
    }
  }
}
