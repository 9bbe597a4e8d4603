// Pay-as-you-go conversion between tokens and cents (src/billing/service.ts:289-297). The code divides
// and multiplies doubles before it rounds, so a conversion is any function within the relative error
// of that arithmetic of the exact quotient; Rounding.dfy derives the error from the unit roundoff.

module Pricing {
  import opened Base

  /** The two roundings of a conversion move it by less than one part in this many. */
  const PRECISION: nat := 0x8_0000_0000_0000

  /** The floor of a number within the relative error of x / y. */
  ghost predicate FloorNear(t: int, x: int, y: int) {
    t * y * PRECISION <= x * (PRECISION + 1) && (t + 1) * y * PRECISION > x * (PRECISION - 1)
  }

  /** The ceiling of such a number. */
  ghost predicate CeilingNear(c: int, x: int, y: int) {
    c * y * PRECISION >= x * (PRECISION - 1) && (c - 1) * y * PRECISION < x * (PRECISION + 1)
  }

  /** A price, so many cents for so many tokens, with the conversions the arithmetic makes of it. */
  datatype Price = Price(cents: nat, tokens: nat, tokensFor: nat -> nat, centsFor: nat -> nat)

  ghost predicate Rounded(p: Price) {
    p.cents > 0 ==>
      && (forall c: nat :: FloorNear(p.tokensFor(c), c * p.tokens, p.cents))
      && (forall t: nat :: CeilingNear(p.centsFor(t), t * p.cents, p.tokens))
  }

  /**
   * A plan's overage rate. Every writer of a plan goes through the schema that bounds it at 100 000
   * cents per million tokens, a cent for ten tokens; fractions of a cent are allowed
   * (src/billing/plan-input.ts:30-39).
   */
  type Rate = p: Price | p.tokens > 0 && 10 * p.cents <= p.tokens && Rounded(p)
    witness Price(0, 1, (c: nat) => 0, (t: nat) => 0)

  /** Tokens that `cents` buy. `None` is the thrown `plan_has_no_payg_rate`. */
  function TokensForCents(rate: Rate, cents: nat): Option<nat> {
    if rate.cents == 0 then None else Some(TokensAt(rate, cents))
  }

  function TokensAt(rate: Rate, cents: nat): nat
    requires rate.cents > 0
  {
    rate.tokensFor(cents)
  }

  function CentsForTokens(rate: Rate, tokens: nat): nat { rate.centsFor(tokens) }

  /** The exact quotients. */
  function ExactTokens(rate: Price, cents: nat): nat
    requires rate.cents > 0
  {
    cents * rate.tokens / rate.cents
  }

  function ExactCents(rate: Price, tokens: nat): nat
    requires rate.tokens > 0
  {
    (tokens * rate.cents + rate.tokens - 1) / rate.tokens
  }

  /** A rate whose conversions happen to be exact. */
  ghost predicate Exact(rate: Rate) {
    rate.cents > 0 ==>
      && (forall c: nat :: rate.tokensFor(c) == ExactTokens(rate, c))
      && (forall t: nat :: rate.centsFor(t) == ExactCents(rate, t))
  }

  /** Cents taken from a balance when `want` tokens are still open. */
  function SpentCents(rate: Rate, balance: nat, want: nat): nat { Min(balance, CentsForTokens(rate, want)) }

  /** The tokens they are charged for. */
  function CoveredByCents(rate: Rate, balance: nat, want: nat): nat
    requires rate.cents > 0
  {
    Min(TokensAt(rate, SpentCents(rate, balance, want)), want)
  }

  // ---- Quotients ----

  lemma QuotientBound(a: int, b: int, q: int)
    requires b > 0
    ensures q <= a / b <==> q * b <= a
  {
    var d := a / b;
    assert d * b <= a < d * b + b;
    if q <= d {
      assert q * b <= d * b;
    } else {
      assert (d + 1) * b <= q * b;
    }
  }

  lemma CeilingBound(a: nat, b: nat, q: nat)
    requires b > 0
    ensures (a + b - 1) / b <= q <==> a <= q * b
  {
    var c := (a + b - 1) / b;
    assert c * b <= a + b - 1 < c * b + b;
    if c <= q {
      assert c * b <= q * b;
    } else {
      assert (q + 1) * b <= c * b;
    }
  }

  /** A positive factor on both sides of a comparison. */
  lemma Cancel(a: int, b: int, f: int)
    requires f > 0
    ensures a * f < b * f <==> a < b
    ensures a * f <= b * f <==> a <= b
  {
    if a < b {
      assert b * f == a * f + (b - a) * f;
    } else {
      assert a * f == b * f + (a - b) * f;
    }
  }

  // ---- The exact price ----

  /** The exact quotients are adjoint: a balance covers a quantity exactly when it meets its price. */
  lemma PriceAdjunction(rate: Rate, cents: nat, tokens: nat)
    ensures TokensForCents(rate, cents).None? <==> rate.cents == 0
    ensures rate.cents > 0 ==> (tokens <= ExactTokens(rate, cents) <==> ExactCents(rate, tokens) <= cents)
  {
    if rate.cents > 0 {
      QuotientBound(cents * rate.tokens, rate.cents, tokens);
      CeilingBound(tokens * rate.cents, rate.tokens, cents);
    }
  }

  lemma ExactTokensNear(p: Price, c: nat)
    requires p.cents > 0
    ensures FloorNear(ExactTokens(p, c), c * p.tokens, p.cents)
  {
    var x, t := c * p.tokens, ExactTokens(p, c);
    QuotientBound(x, p.cents, t);
    QuotientBound(x, p.cents, t + 1);
  }

  lemma ExactCentsNear(p: Price, t: nat)
    requires p.tokens > 0 && p.cents > 0
    ensures CeilingNear(ExactCents(p, t), t * p.cents, p.tokens)
  {
    var x, c := t * p.cents, ExactCents(p, t);
    CeilingBound(x, p.tokens, c);
    if c > 0 {
      CeilingBound(x, p.tokens, c - 1);
    }
  }

  /** The exact quotients are among the conversions a rate may have. */
  lemma ExactIsRounded(p: Price)
    requires p.tokens > 0 && 10 * p.cents <= p.tokens && p.cents > 0
    requires (forall c: nat :: p.tokensFor(c) == ExactTokens(p, c))
             && forall t: nat :: p.centsFor(t) == ExactCents(p, t)
    ensures Rounded(p)
  {
    forall c: nat ensures FloorNear(p.tokensFor(c), c * p.tokens, p.cents) {
      ExactTokensNear(p, c);
    }
    forall t: nat ensures CeilingNear(p.centsFor(t), t * p.cents, p.tokens) {
      ExactCentsNear(p, t);
    }
  }

  // ---- What rounding leaves of it ----

  lemma FreeIsFree(rate: Rate)
    requires rate.cents > 0
    ensures TokensAt(rate, 0) == 0 && CentsForTokens(rate, 0) == 0
  {
    var t: int, c: int := rate.tokensFor(0), rate.centsFor(0);
    assert FloorNear(t, 0 * rate.tokens, rate.cents) && CeilingNear(c, 0 * rate.cents, rate.tokens);
    Cancel(t, 0, rate.cents);
    Cancel(c - 1, 0, rate.tokens);
  }

  /** Within the bound on rates every cent buys at least nine tokens, whatever the rounding. */
  lemma CentBuysNine(rate: Rate, cents: nat)
    requires rate.cents > 0
    ensures TokensAt(rate, cents) >= 9 * cents
  {
    var t, x := TokensAt(rate, cents), cents * rate.tokens;
    assert FloorNear(t, x, rate.cents);
    assert cents * (10 * rate.cents) <= x;
    assert (t + 1) * PRECISION * rate.cents > 10 * cents * (PRECISION - 1) * rate.cents;
    Cancel(10 * cents * (PRECISION - 1), (t + 1) * PRECISION, rate.cents);
  }

  lemma PriceIsPositive(rate: Rate, tokens: nat)
    requires rate.cents > 0 && tokens > 0
    ensures CentsForTokens(rate, tokens) > 0
  {
    var c := CentsForTokens(rate, tokens);
    assert CeilingNear(c, tokens * rate.cents, rate.tokens);
    assert tokens * rate.cents > 0;
  }

  /** A bound on how far one part in `PRECISION` of `n` reaches. */
  lemma PartBound(a: int, n: nat)
    requires a * PRECISION < n
    ensures a <= n / PRECISION
  {
    QuotientBound(n, PRECISION, a);
  }

  /** The price of a quantity buys all of it but one token, and at most one more in 2^50. */
  lemma PriceCovers(rate: Rate, tokens: nat)
    requires rate.cents > 0
    ensures TokensAt(rate, CentsForTokens(rate, tokens)) >= tokens - 1 - 2 * tokens / PRECISION
    ensures Exact(rate) ==> TokensAt(rate, CentsForTokens(rate, tokens)) >= tokens
  {
    var c := CentsForTokens(rate, tokens);
    var t := TokensAt(rate, c);
    assert CeilingNear(c, tokens * rate.cents, rate.tokens) && FloorNear(t, c * rate.tokens, rate.cents);
    EnoughTokens(t, c * rate.tokens, tokens, rate.cents);
    PriceAdjunction(rate, c, tokens);
  }

  /** In numbers: `paid` nearly reaches tokens * unit, and (t + 1) * unit nearly exceeds `paid`. */
  lemma EnoughTokens(t: nat, paid: nat, tokens: nat, unit: nat)
    requires unit > 0 && paid * PRECISION >= tokens * unit * (PRECISION - 1)
    requires (t + 1) * unit * PRECISION > paid * (PRECISION - 1)
    ensures t >= tokens - 1 - 2 * tokens / PRECISION
  {
    var have, need := (t + 1) * unit, tokens * unit;
    assert have * PRECISION * PRECISION > need * (PRECISION - 1) * (PRECISION - 1);
    assert ((t + 1) * PRECISION * PRECISION) * unit == have * PRECISION * PRECISION;
    assert (tokens * (PRECISION - 1) * (PRECISION - 1)) * unit == need * (PRECISION - 1) * (PRECISION - 1);
    Cancel(tokens * (PRECISION - 1) * (PRECISION - 1), (t + 1) * PRECISION * PRECISION, unit);
    var gap: int := tokens - t - 1;
    assert gap * PRECISION < 2 * tokens;
    PartBound(gap, 2 * tokens);
  }

  /** If a charge leaves cents on the balance, all but one token of it is covered, and at most one more in 2^50. */
  lemma EnoughOrAll(rate: Rate, balance: nat, want: nat)
    requires rate.cents > 0
    ensures SpentCents(rate, balance, want) == balance
            || CoveredByCents(rate, balance, want) >= want - 1 - 2 * want / PRECISION
  {
    PriceCovers(rate, want);
  }

  /** In numbers: spending at most q + 1 cents, one part in `PRECISION` more, on what costs q. */
  lemma NoMoreThanPrice(spend: nat, paid: int, due: int, part: nat)
    requires part > 0 && (spend - 1) * part * PRECISION < due * (PRECISION + 1)
    requires due <= paid * part
    ensures spend <= paid + 1 + spend / PRECISION
  {
    var s := spend / PRECISION;
    if paid <= spend - 2 - s {
      Cancel(paid, spend - 2 - s, part);
      Regroup(PRECISION, spend - 1, part);
      Regroup(PRECISION + 1, spend - 2 - s, part);
      Cancel(PRECISION * (spend - 1), (PRECISION + 1) * (spend - 2 - s), part);
    }
  }

  /** In numbers: tokens worth at most a tenth of a cent each cost no less than all but one of the cents they took. */
  lemma NoMoreThanCovered(spend: nat, paid: int, t: nat, unit: nat, part: nat)
    requires part > 0 && 10 * unit <= part && (t + 1) * unit * PRECISION > spend * part * (PRECISION - 1)
    requires t * unit <= paid * part
    ensures spend <= paid + 1 + spend / PRECISION
  {
    var s := spend / PRECISION;
    if paid <= spend - 2 - s {
      var cost, all, most := t * unit, spend * part, (spend - 2 - s) * part;
      Cancel(paid, spend - 2 - s, part);
      assert (t + 1) * unit == cost + unit;
      TooMuch(cost, unit, all, most, part);
      Regroup(10 * (PRECISION - 1), spend, part);
      Regroup(10 * PRECISION, spend - 2 - s, part);
      assert (10 * (PRECISION - 1) * spend) * part < (10 * PRECISION * (spend - 2 - s) + PRECISION) * part;
      Cancel(10 * (PRECISION - 1) * spend, 10 * PRECISION * (spend - 2 - s) + PRECISION, part);
    }
  }

  lemma Regroup(k: int, n: int, part: int)
    ensures (k * n) * part == k * (n * part)
  {
  }

  lemma TooMuch(cost: int, unit: int, all: int, most: int, part: int)
    requires 10 * unit <= part && cost <= most && (cost + unit) * PRECISION > all * (PRECISION - 1)
    ensures 10 * (PRECISION - 1) * all < 10 * PRECISION * most + PRECISION * part
  {
  }

  /** In numbers: t tokens bought with `spend` cents cost at most a cent more, and one part in `PRECISION`. */
  lemma NoLessThanPrice(spend: nat, t: nat, unit: nat, part: nat)
    requires part > 0 && t * unit * PRECISION <= spend * part * (PRECISION + 1)
    ensures t * unit <= (spend + 1 + spend / PRECISION) * part
  {
    var s := spend / PRECISION;
    Cancel(spend, PRECISION * (s + 1), part);
    Regroup(PRECISION, s + 1, part);
    Distribute(spend, s + 1, part);
  }

  lemma Distribute(a: int, b: int, f: int)
    ensures (a + b) * f == a * f + b * f
  {
  }

  /**
   * What leaves the balance is the exact price of the tokens it covers, up to one cent and at most one
   * more in 2^51: no more is ever lost, and no more is invented. Exact conversions lose nothing.
   */
  lemma SpentIsPrice(rate: Rate, balance: nat, want: nat)
    requires rate.cents > 0
    ensures var spend, price := SpentCents(rate, balance, want), ExactCents(rate, CoveredByCents(rate, balance, want));
            && price - 1 - spend / PRECISION <= spend <= price + 1 + spend / PRECISION
            && (Exact(rate) ==> spend == price)
    ensures SpentCents(rate, balance, want) > 0 <==> CoveredByCents(rate, balance, want) > 0
  {
    var spend, covered := SpentCents(rate, balance, want), CoveredByCents(rate, balance, want);
    SpentNearPrice(rate, balance, want);
    if Exact(rate) {
      ExactlyPrice(rate, balance, want);
    }
    FreeIsFree(rate);
    CentBuysNine(rate, spend);
    if want > 0 {
      PriceIsPositive(rate, want);
    }
  }

  lemma PriceAtMost(spend: nat, t: nat, covered: nat, unit: nat, part: nat)
    requires part > 0 && unit > 0 && covered <= t && FloorNear(t, spend * part, unit)
    ensures (covered * unit + part - 1) / part <= spend + 1 + spend / PRECISION
  {
    var most := spend + 1 + spend / PRECISION;
    NoLessThanPrice(spend, t, unit, part);
    Cancel(covered, t, unit);
    AtMost(covered * unit, part, most);
  }

  lemma AtMost(a: nat, part: nat, most: nat)
    requires part > 0 && a <= most * part
    ensures (a + part - 1) / part <= most
  {
    CeilingBound(a, part, most);
  }

  lemma PriceOfAll(spend: nat, asked: nat, price: nat, want: nat, unit: nat, part: nat)
    requires part > 0 && spend <= asked && CeilingNear(asked, want * unit, part)
    requires price == (want * unit + part - 1) / part
    ensures spend <= price + 1 + spend / PRECISION
  {
    CeilingBound(want * unit, part, price);
    Cancel(spend - 1, asked - 1, part);
    NoMoreThanPrice(spend, price, want * unit, part);
  }

  lemma PriceOfPart(spend: nat, price: nat, t: nat, unit: nat, part: nat)
    requires part > 0 && 10 * unit <= part && FloorNear(t, spend * part, unit)
    requires price == (t * unit + part - 1) / part
    ensures spend <= price + 1 + spend / PRECISION
  {
    CeilingBound(t * unit, part, price);
    NoMoreThanCovered(spend, price, t, unit, part);
  }

  lemma SpentNearPrice(rate: Rate, balance: nat, want: nat)
    requires rate.cents > 0
    ensures var spend, price := SpentCents(rate, balance, want), ExactCents(rate, CoveredByCents(rate, balance, want));
            price - 1 - spend / PRECISION <= spend <= price + 1 + spend / PRECISION
  {
    var spend, covered := SpentCents(rate, balance, want), CoveredByCents(rate, balance, want);
    var asked, t := CentsForTokens(rate, want), TokensAt(rate, spend);
    assert FloorNear(t, spend * rate.tokens, rate.cents) && CeilingNear(asked, want * rate.cents, rate.tokens);
    PriceAtMost(spend, t, covered, rate.cents, rate.tokens);
    if covered == want {
      PriceOfAll(spend, asked, ExactCents(rate, want), want, rate.cents, rate.tokens);
    } else {
      PriceOfPart(spend, ExactCents(rate, t), t, rate.cents, rate.tokens);
    }
  }

  lemma ExactlyPrice(rate: Rate, balance: nat, want: nat)
    requires rate.cents > 0 && Exact(rate)
    ensures SpentCents(rate, balance, want) == ExactCents(rate, CoveredByCents(rate, balance, want))
    ensures CoveredByCents(rate, balance, want) == Min(want, ExactTokens(rate, balance))
  {
    var spend := SpentCents(rate, balance, want);
    PriceAdjunction(rate, ExactCents(rate, want), want);
    PriceAdjunction(rate, balance, want);
    PurchaseCostsBalance(rate, balance);
    CentBuysTen(rate, balance);
  }

  lemma CentBuysTen(rate: Rate, cents: nat)
    requires rate.cents > 0
    ensures ExactTokens(rate, cents) >= 10 * cents
  {
    assert 10 * cents * rate.cents == cents * (10 * rate.cents) <= cents * rate.tokens;
    QuotientBound(cents * rate.tokens, rate.cents, 10 * cents);
  }

  /** What a balance buys costs at most a cent more than the balance, and at most three more in 2^51. */
  lemma PurchaseWithinBalance(rate: Rate, cents: nat)
    requires rate.cents > 0
    ensures CentsForTokens(rate, TokensAt(rate, cents)) <= cents + 1 + 3 * cents / PRECISION
  {
    var t := TokensAt(rate, cents);
    var c: int := CentsForTokens(rate, t);
    assert FloorNear(t, cents * rate.tokens, rate.cents) && CeilingNear(c, t * rate.cents, rate.tokens);
    var back: int := c - 1;
    var all, cost, asked := cents * rate.tokens, t * rate.cents, back * rate.tokens;
    assert asked * PRECISION * PRECISION < all * (PRECISION + 1) * (PRECISION + 1) || all == 0;
    if cents == 0 {
      FreeIsFree(rate);
    } else {
      Regroup(PRECISION * PRECISION, back, rate.tokens);
      Regroup((PRECISION + 1) * (PRECISION + 1), cents, rate.tokens);
      Cancel(PRECISION * PRECISION * back, (PRECISION + 1) * (PRECISION + 1) * cents, rate.tokens);
      var gap: int := back - cents;
      assert gap * PRECISION < 3 * cents;
      PartBound(gap, 3 * cents);
    }
  }

  /** Exactly computed, what a balance buys costs the balance, to the cent. */
  lemma PurchaseCostsBalance(rate: Rate, cents: nat)
    requires rate.cents > 0
    ensures ExactCents(rate, ExactTokens(rate, cents)) == cents
  {
    var bought := ExactTokens(rate, cents);
    PriceAdjunction(rate, cents, bought);
    if cents > 0 {
      QuotientBound(cents * rate.tokens, rate.cents, bought + 1);
      CeilingBound(bought * rate.cents, rate.tokens, cents - 1);
      assert (bought + 1) * rate.cents == bought * rate.cents + rate.cents;
      assert (cents - 1) * rate.tokens == cents * rate.tokens - rate.tokens;
    }
  }

  // ---- Against the whole balance ----

  lemma AlmostAll(rate: Rate, balance: nat, want: nat)
    requires rate.cents > 0
    ensures CoveredByCents(rate, balance, want) >= Min(want, ExactTokens(rate, balance)) - 1 - 2 * want / PRECISION
  {
    var m := Min(want, ExactTokens(rate, balance));
    if SpentCents(rate, balance, want) == balance {
      var t := TokensAt(rate, balance);
      assert FloorNear(t, balance * rate.tokens, rate.cents);
      QuotientBound(balance * rate.tokens, rate.cents, ExactTokens(rate, balance));
      Cancel(m, ExactTokens(rate, balance), rate.cents);
      Regroup(PRECISION - 1, m, rate.cents);
      Regroup(PRECISION, t + 1, rate.cents);
      Cancel((PRECISION - 1) * m, PRECISION * (t + 1), rate.cents);
      var gap: int := m - t - 1;
      PartBound(gap, 2 * want);
    } else {
      EnoughOrAll(rate, balance, want);
    }
  }

  lemma HardlyMore(rate: Rate, balance: nat, want: nat)
    requires rate.cents > 0
    ensures CoveredByCents(rate, balance, want) <= Min(want, ExactTokens(rate, balance)) + 1 + 2 * want / PRECISION
  {
    var spend, e := SpentCents(rate, balance, want), ExactTokens(rate, balance);
    var covered, t := CoveredByCents(rate, balance, want), TokensAt(rate, spend);
    assert FloorNear(t, spend * rate.tokens, rate.cents);
    QuotientBound(balance * rate.tokens, rate.cents, e + 1);
    Cancel(spend, balance, rate.tokens);
    Regroup(PRECISION, t, rate.cents);
    Regroup(PRECISION + 1, e + 1, rate.cents);
    Cancel(PRECISION * t, (PRECISION + 1) * (e + 1), rate.cents);
    if covered > e {
      var gap: int := covered - e - 1;
      assert gap * PRECISION < e + 1 <= want;
      PartBound(gap, 2 * want);
    }
  }

  /**
   * The cents leg covers what the whole balance could exactly buy of the request, up to one token and at
   * most one more in 2^50; with exact conversions precisely that.
   */
  lemma CoversAllItCan(rate: Rate, balance: nat, want: nat)
    requires rate.cents > 0
    ensures var covered, best := CoveredByCents(rate, balance, want), Min(want, ExactTokens(rate, balance));
            && best - 1 - 2 * want / PRECISION <= covered <= best + 1 + 2 * want / PRECISION
            && (Exact(rate) ==> covered == best)
  {
    AlmostAll(rate, balance, want);
    HardlyMore(rate, balance, want);
    if Exact(rate) {
      ExactlyPrice(rate, balance, want);
    }
  }
}
