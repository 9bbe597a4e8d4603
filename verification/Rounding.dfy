// Where the error of a conversion comes from (src/billing/service.ts:290-297): each of its two operations
// on doubles returns the exact result times 1 + d with |d| at most the unit roundoff, and then the
// code rounds to a whole number.

module Rounding {
  import opened Base
  import opened Pricing

  /** The unit roundoff of a double, 2^-53. */
  const ROUNDOFF: real := 1.0 / 9007199254740992.0

  const MILLION: real := 1000000.0

  /** What one operation may return for a nonnegative exact result. */
  predicate Operation(result: real, exact: real) {
    exact * (1.0 - ROUNDOFF) <= result <= exact * (1.0 + ROUNDOFF)
  }

  /** Within one part in `PRECISION`. */
  predicate Near(result: real, exact: real) {
    exact * (PRECISION as real - 1.0) <= result * PRECISION as real <= exact * (PRECISION as real + 1.0)
  }

  lemma ScaleUp(a: real, b: real, f: real)
    requires a <= b && f >= 0.0
    ensures a * f <= b * f
  {
  }

  lemma Swap(a: real, b: real, c: real)
    ensures a * b * c == (a * c) * b
  {
  }

  lemma Group(a: real, b: real, c: real)
    ensures a * b * c == a * (b * c)
  {
  }

  /** Two roundoffs in a row, in either direction. */
  lemma TwoFactors(whole: real, middle: real, second: real)
    requires whole >= 0.0 && Operation(middle, whole) && Operation(second, middle)
    ensures Near(second, whole)
  {
    var up, down := 1.0 + ROUNDOFF, 1.0 - ROUNDOFF;
    ScaleUp(middle, whole * up, up);
    ScaleUp(whole * down, middle, down);
    Group(whole, up, up);
    Group(whole, down, down);
    assert whole * (down * down) <= second <= whole * (up * up);
    NearFactors(whole, second);
  }

  lemma NearFactors(whole: real, second: real)
    requires whole >= 0.0
    requires whole * ((1.0 - ROUNDOFF) * (1.0 - ROUNDOFF)) <= second <= whole * ((1.0 + ROUNDOFF) * (1.0 + ROUNDOFF))
    ensures Near(second, whole)
  {
    var m := PRECISION as real;
    var up, down := (1.0 + ROUNDOFF) * (1.0 + ROUNDOFF), (1.0 - ROUNDOFF) * (1.0 - ROUNDOFF);
    assert up * m <= m + 1.0 && m - 1.0 <= down * m;
    ScaleUp(up * m, m + 1.0, whole);
    ScaleUp(m - 1.0, down * m, whole);
    assert whole * up * m == (up * m) * whole && whole * down * m == (down * m) * whole;
    ScaleUp(second, whole * up, m);
    ScaleUp(whole * down, second, m);
  }

  lemma ScaledBetween(a: real, low: real, x: real, high: real, f: real)
    requires a * low <= x <= a * high && f >= 0.0
    ensures (a * f) * low <= x * f <= (a * f) * high
  {
    ScaleUp(x, a * high, f);
    ScaleUp(a * low, x, f);
    Swap(a, high, f);
    Swap(a, low, f);
  }

  lemma ScaledOperation(exact: real, first: real, scale: real)
    requires scale >= 0.0 && Operation(first, exact)
    ensures Operation(first * scale, exact * scale)
  {
    ScaledBetween(exact, 1.0 - ROUNDOFF, first, 1.0 + ROUNDOFF, scale);
  }

  /** An operation on the scaled result of another. */
  lemma TwoOperations(exact: real, first: real, scale: real, second: real)
    requires exact >= 0.0 && scale >= 0.0 && Operation(first, exact) && Operation(second, first * scale)
    ensures Near(second, exact * scale)
  {
    ScaledOperation(exact, first, scale);
    ScaleUp(0.0, exact, scale);
    TwoFactors(exact * scale, first * scale, second);
  }

  // ---- Rounding to whole numbers ----

  lemma {:induction false} ProductAsReal(a: nat, b: nat)
    ensures (a * b) as real == a as real * b as real
    decreases a
  {
    if a > 0 {
      ProductAsReal(a - 1, b);
      assert a * b == (a - 1) * b + b;
      assert a as real * b as real == (a - 1) as real * b as real + b as real;
    }
  }

  lemma Below(a: real, b: real, f: real)
    requires a < b && f > 0.0
    ensures a * f < b * f
  {
  }

  /** A number not above one near x / y, where `whole` is x / y. */
  lemma NotAbove(n: real, q: real, whole: real, x: real, y: real, m: real)
    requires n <= q && q * m <= whole * (m + 1.0) && whole * y == x && y > 0.0 && m > 1.0
    ensures n * y * m <= x * (m + 1.0)
    ensures n < q ==> n * y * m < x * (m + 1.0)
  {
    ScaleUp(n, q, m);
    ScaleUp(n * m, whole * (m + 1.0), y);
    if n < q {
      Below(n, q, m);
      Below(n * m, whole * (m + 1.0), y);
    }
    Swap(n, m, y);
    Swap(whole, m + 1.0, y);
  }

  lemma NotBelow(n: real, q: real, whole: real, x: real, y: real, m: real)
    requires n >= q && q * m >= whole * (m - 1.0) && whole * y == x && y > 0.0 && m > 1.0
    ensures n * y * m >= x * (m - 1.0)
    ensures n > q ==> n * y * m > x * (m - 1.0)
  {
    ScaleUp(q, n, m);
    ScaleUp(whole * (m - 1.0), n * m, y);
    if n > q {
      Below(q, n, m);
      Below(whole * (m - 1.0), n * m, y);
    }
    Swap(n, m, y);
    Swap(whole, m - 1.0, y);
  }

  /** The floor of a number near x / y. */
  lemma FloorOfNear(whole: real, q: real, x: nat, y: nat)
    requires y > 0 && whole * y as real == x as real && q >= 0.0 && Near(q, whole)
    ensures FloorNear(q.Floor, x, y)
  {
    var t, m := q.Floor, PRECISION as real;
    NotAbove(t as real, q, whole, x as real, y as real, m);
    NotBelow((t + 1) as real, q, whole, x as real, y as real, m);
    ProductAsReal(t, y);
    ProductAsReal(t + 1, y);
  }

  function Ceiling(q: real): int { -((-q).Floor) }

  lemma CeilingOfNear(whole: real, q: real, x: nat, y: nat)
    requires y > 0 && whole * y as real == x as real && q >= 0.0 && Near(q, whole)
    ensures CeilingNear(Ceiling(q), x, y)
  {
    var c, m := Ceiling(q), PRECISION as real;
    NotBelow(c as real, q, whole, x as real, y as real, m);
    NotAbove((c - 1) as real, q, whole, x as real, y as real, m);
    ProductAsReal(c, y);
    if c > 0 {
      ProductAsReal(c - 1, y);
    }
  }

  // ---- The two conversions ----

  /** The rate as the code holds it, in cents per million tokens, is the fraction. */
  predicate PerMillion(rate: real, p: Price) {
    p.cents > 0 && p.tokens > 0 && rate * p.tokens as real == p.cents as real * MILLION
  }

  lemma ExactTokensScale(p: Price, rate: real, cents: nat, exact: real)
    requires PerMillion(rate, p) && exact * rate == cents as real
    ensures exact * MILLION * p.cents as real == (cents * p.tokens) as real
  {
    Swap(exact, MILLION, p.cents as real);
    Group(exact, p.cents as real, MILLION);
    Group(exact, rate, p.tokens as real);
    ProductAsReal(cents, p.tokens);
  }

  lemma Quotient(x: real, y: real)
    requires x >= 0.0 && y > 0.0
    ensures x / y >= 0.0 && (x / y) * y == x
  {
  }

  lemma FloorIsNear(p: Price, rate: real, cents: nat, exact: real, quotient: real, product: real)
    requires PerMillion(rate, p) && exact * rate == cents as real && exact >= 0.0
    requires Operation(quotient, exact) && Operation(product, quotient * MILLION) && product >= 0.0
    ensures FloorNear(product.Floor, cents * p.tokens, p.cents)
  {
    TwoOperations(exact, quotient, MILLION, product);
    ExactTokensScale(p, rate, cents, exact);
    FloorOfNear(exact * MILLION, product, cents * p.tokens, p.cents);
  }

  /** floor((cents / rate) * 1e6), whatever the two operations return within their error. */
  lemma TokensAreNear(p: Price, rate: real, cents: nat, quotient: real, product: real)
    requires PerMillion(rate, p) && rate > 0.0
    requires Operation(quotient, cents as real / rate) && Operation(product, quotient * MILLION) && product >= 0.0
    ensures FloorNear(product.Floor, cents * p.tokens, p.cents)
  {
    Quotient(cents as real, rate);
    FloorIsNear(p, rate, cents, cents as real / rate, quotient, product);
  }

  /** ceil((tokens / 1e6) * rate), likewise. */
  lemma CentsAreNear(p: Price, rate: real, tokens: nat, quotient: real, product: real)
    requires PerMillion(rate, p) && rate > 0.0
    requires Operation(quotient, tokens as real / MILLION) && Operation(product, quotient * rate) && product >= 0.0
    ensures CeilingNear(Ceiling(product), tokens * p.cents, p.tokens)
  {
    var exact := tokens as real / MILLION;
    TwoOperations(exact, quotient, rate, product);
    Group(exact, rate, p.tokens as real);
    Group(exact, MILLION, p.cents as real);
    assert exact * MILLION == tokens as real;
    ProductAsReal(tokens, p.cents);
    assert exact * (p.cents as real * MILLION) == exact * MILLION * p.cents as real;
    CeilingOfNear(exact * rate, product, tokens * p.cents, p.tokens);
  }

  // ---- It shows ----

  /**
   * One hundred cents per million, rounding at two places the way double arithmetic does there:
   * 70 000 tokens come to 7.000000000000001 cents, and 201 cents to 2 009 999.9999999998 tokens.
   */
  function HundredPerMillion(): Price {
    Price(1, 10_000,
          (c: nat) => if c == 201 then 2_009_999 else c * 10_000,
          (t: nat) => if t == 70_000 then 8 else (t + 9_999) / 10_000)
  }

  lemma HundredIsRounded()
    ensures Rounded(HundredPerMillion())
  {
    var p := HundredPerMillion();
    forall c: nat ensures FloorNear(p.tokensFor(c), c * p.tokens, p.cents) {
    }
    forall t: nat ensures CeilingNear(p.centsFor(t), t * p.cents, p.tokens) {
      CeilingBound(t, 10_000, (t + 9_999) / 10_000);
    }
  }

  /** Both bounds are reached: a cent can be lost, and a token left open while cents remain. */
  lemma RoundingShows()
    ensures var p := HundredPerMillion();
            && Rounded(p)
            && SpentCents(p, 10, 70_000) == 8 && CoveredByCents(p, 10, 70_000) == 70_000 && ExactCents(p, 70_000) == 7
            && SpentCents(p, 250, 2_010_000) == 201 && CoveredByCents(p, 250, 2_010_000) == 2_009_999
  {
    HundredIsRounded();
  }
}
