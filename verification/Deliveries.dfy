// What each payment notice does, over the fields of the notice and of the invoice
// (src/http/console.ts:1887-1976 and 2010-2103).

module Deliveries {
  import opened Base
  import opened Accounts
  import opened Payments

  ghost predicate SaysPaid(m: Message) { m.status == "paid" || m.status == "paid_over" }

  /** The order exists, and with the provider that reports it. */
  ghost predicate Known(s: Shop, m: Message) {
    m.orderId in s.payments && (m.Leuwongrr? ==> s.payments[m.orderId].fromLeuwongrr)
  }

  /** The notice reports at least the invoiced amount, in the invoice's currency. */
  ghost predicate Covers(m: Message, p: Payment) {
    match m
    case Cryptomus(_, _, cents, currency, _) =>
      cents.Some? && cents.value >= p.amountCents && currency.Some? && currency.value == p.currency
    case Leuwongrr(_, _, amountIdr, _, _) => amountIdr >= p.amountCents && p.currency == "IDR"
  }

  /** The same delivery has been recorded before. */
  ghost predicate Seen(s: Shop, m: Message) { Digest(m.orderId, m.status, m.signature) in s.events }

  /** Only a paid notice that covers its invoice grants, once, and for Leuwongrr only with an exchange rate. */
  lemma GrantNeedsMoney(s: Shop, m: Message, now: nat)
    requires Deliver(s, m, now).granted
    ensures Known(s, m) && SaysPaid(m) && Covers(m, s.payments[m.orderId]) && !Seen(s, m)
    ensures s.payments[m.orderId].settledAt.None? && s.payments[m.orderId].entitlement != Malformed
    ensures m.Leuwongrr? ==> m.idrPerUsd.Some? && m.idrPerUsd.value > 0
  {
  }

  /** A paid notice is a mismatch exactly when it does not cover its invoice, and then nothing changes. */
  lemma UnderpaidRefused(s: Shop, m: Message, now: nat)
    ensures var d := Deliver(s, m, now);
            && (d.response.AmountMismatch? || d.response.CurrencyMismatch?
                <==> Known(s, m) && SaysPaid(m) && !Covers(m, s.payments[m.orderId]))
            && (d.response.CurrencyMismatch? ==> m.Leuwongrr? && m.amountIdr >= s.payments[m.orderId].amountCents)
            && (d.response.AmountMismatch? || d.response.CurrencyMismatch? ==> d.shop == s && !d.granted)
            && (d.response.NotFound? <==> !Known(s, m))
            && (d.response.NotFound? ==> d.shop == s && !d.granted)
  {
  }

  // ---- The terms a payment is settled by ----

  /** `tokens` is what `amountIdr` buys at 50 million tokens a dollar, rounded down. */
  ghost predicate Buys(amountIdr: int, idrPerUsd: nat, tokens: nat) {
    if amountIdr <= 0 then tokens == 0
    else tokens * idrPerUsd <= amountIdr * 50_000_000 < (tokens + 1) * idrPerUsd
  }

  lemma QuotientBuys(x: nat, y: nat)
    requires y > 0
    ensures (x / y) * y <= x < (x / y + 1) * y
  {
  }

  lemma TokensBought(amountIdr: int, idrPerUsd: nat)
    requires idrPerUsd > 0
    ensures Buys(amountIdr, idrPerUsd, IdrToTokens(amountIdr, idrPerUsd))
  {
    if amountIdr > 0 {
      QuotientBuys(amountIdr * 50_000_000, idrPerUsd);
    }
  }

  /** The tokens an order is worth that names none: those invoiced, or those the reported rupiah buy. */
  ghost predicate Worth(m: Message, p: Payment, tokens: nat) {
    match m
    case Cryptomus(_, _, _, _, _) => tokens == p.tokens
    case Leuwongrr(_, _, amountIdr, rate, _) => rate.Some? && rate.value > 0 && Buys(amountIdr, rate.value, tokens)
  }

  /**
   * The order's own terms, with the invoiced amount where they name none and, for Leuwongrr, the rupiah's
   * tokens where they name none; an order without terms of its own is a rolling pass or a pack by its purpose.
   */
  ghost predicate TermsOf(m: Message, p: Payment, tokens: nat, terms: Snapshot) {
    match p.entitlement
    case Malformed => false
    case Empty =>
      terms == Snapshot(Some(if p.purpose == ForSubscription then RollingTime else TokenPack), p.planId, None,
                        Some(tokens), None, Some(p.amountCents), None)
    case Terms(own) =>
      && terms == own.(amountCents := terms.amountCents, tokens := terms.tokens)
      && terms.amountCents == (if own.amountCents.Some? then own.amountCents else Some(p.amountCents))
      && terms.tokens == if m.Leuwongrr? && (own.tokens.None? || own.tokens.value == 0) then Some(tokens)
                         else own.tokens
  }

  /** A paid notice that may settle: it covers its invoice, is new, and finds the payment open. */
  ghost predicate MaySettle(s: Shop, m: Message) {
    && Known(s, m) && SaysPaid(m) && Covers(m, s.payments[m.orderId]) && !Seen(s, m)
    && s.payments[m.orderId].settledAt.None?
    && (m.Leuwongrr? ==> m.idrPerUsd.Some? && m.idrPerUsd.value > 0)
  }

  /** It settles the payment by the terms, or flags it and leaves everything else as it was. */
  ghost predicate SettledBy(s: Shop, m: Message, now: nat, terms: Snapshot, d: Delivery)
    requires m.orderId in s.payments
  {
    var p := s.payments[m.orderId];
    match SettlePaymentSnapshot(s.account, p.id, true, terms, now)
    case Ok(x) =>
      && d.shop.account == x.account && d.response == Accepted(false)
      && d.shop.events == s.events + {Digest(m.orderId, m.status, m.signature)}
      && d.shop.payments == s.payments[m.orderId := p.(status := m.status, settledAt := Some(now),
                                                       settlement := Settled, settlementError := None)]
    case Err(e) =>
      && d.shop.account == s.account && d.response == NeedsReconciliation(e) && d.shop.events == s.events
      && d.shop.payments == s.payments[m.orderId := p.(status := m.status, settledAt := None,
                                                       settlement := ReconciliationRequired,
                                                       settlementError := Some(e))]
  }

  lemma PaidSettles(s: Shop, m: Message, now: nat) returns (tokens: nat, terms: Snapshot)
    requires MaySettle(s, m) && s.payments[m.orderId].entitlement != Malformed
    ensures Worth(m, s.payments[m.orderId], tokens) && TermsOf(m, s.payments[m.orderId], tokens, terms)
    ensures SettledBy(s, m, now, terms, Deliver(s, m, now))
  {
    var p := s.payments[m.orderId];
    if m.Cryptomus? {
      tokens := p.tokens;
      terms := CryptomusTerms(p).value;
    } else {
      tokens := IdrToTokens(m.amountIdr, m.idrPerUsd.value);
      TokensBought(m.amountIdr, m.idrPerUsd.value);
      terms := LeuwongrrTerms(p, tokens).value;
    }
  }

  /** Unreadable terms settle nothing: Cryptomus flags the payment, Leuwongrr turns the notice away. */
  lemma UnreadableTerms(s: Shop, m: Message, now: nat)
    requires MaySettle(s, m) && s.payments[m.orderId].entitlement == Malformed
    ensures var d := Deliver(s, m, now);
            && !d.granted && d.shop.account == s.account && d.shop.events == s.events
            && (m.Leuwongrr? ==> d.shop == s && d.response == SnapshotInvalid)
            && (m.Cryptomus? ==> && d.response == NeedsReconciliation(EntitlementSnapshotInvalid)
                                 && d.shop.payments[m.orderId].settlement == ReconciliationRequired)
  {
  }

  // ---- Notices that only record ----

  /** Every other notice leaves the account alone; what it records depends on the payment being settled. */
  lemma OthersRecord(s: Shop, m: Message, now: nat)
    requires Known(s, m) && !MaySettle(s, m) && (SaysPaid(m) ==> Covers(m, s.payments[m.orderId]))
    requires SaysPaid(m) && m.Leuwongrr? ==>
               m.idrPerUsd.Some? && m.idrPerUsd.value > 0 && s.payments[m.orderId].entitlement != Malformed
    ensures var d, p := Deliver(s, m, now), s.payments[m.orderId];
            && !d.granted && d.shop.account == s.account
            && (Seen(s, m) ==> d.shop == s && d.response == Accepted(true))
            && (!Seen(s, m) ==>
                  && d.response == Accepted(false)
                  && d.shop.events == s.events + {Digest(m.orderId, m.status, m.signature)}
                  && d.shop.payments
                     == s.payments[m.orderId := if p.settledAt.None? then p.(status := m.status)
                                                else if SaysPaid(m) && m.Cryptomus?
                                                     then p.(status := m.status, settlement := Settled) else p])
  {
  }

  /** A covered Leuwongrr notice is put off while there is no rate, and refused with unreadable terms. */
  lemma NotYet(s: Shop, m: Message, now: nat)
    requires Known(s, m) && SaysPaid(m) && m.Leuwongrr? && Covers(m, s.payments[m.orderId])
    ensures var d := Deliver(s, m, now);
            && (d.response.RateUnavailable? <==> m.idrPerUsd.None? || m.idrPerUsd.value == 0)
            && (d.response.SnapshotInvalid? <==> m.idrPerUsd.Some? && m.idrPerUsd.value > 0
                                                 && s.payments[m.orderId].entitlement == Malformed)
            && (d.response.RateUnavailable? || d.response.SnapshotInvalid? ==> d.shop == s && !d.granted)
  {
  }
}
