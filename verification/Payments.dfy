// The two payment webhooks (src/http/console.ts:1854-1976 and 1981-2104): signed deliveries, repeated
// and reordered by the provider, each settling an invoice at most once.

module Payments {
  import opened Base
  import opened Accounts
  import opened BillingServices
  import Billing = Conservation

  datatype SettlementState = NotSettled | Settled | ReconciliationRequired

  datatype Purpose = ForSubscription | ForTopup

  /** entitlement_snapshot_json: unreadable, `{}`, or the order's terms. */
  datatype Entitlement = Malformed | Empty | Terms(snapshot: Snapshot)

  datatype Payment = Payment(
    id: nat,
    fromLeuwongrr: bool,
    purpose: Purpose,
    planId: Option<PlanId>,
    tokens: nat,
    amountCents: nat,
    currency: string,
    status: string,
    settledAt: Option<nat>,
    settlement: SettlementState,
    settlementError: Option<BillingError>,
    entitlement: Entitlement)

  datatype Digest = Digest(orderId: nat, status: string, signature: nat)

  datatype Shop = Shop(account: Account, payments: map<nat, Payment>, events: set<Digest>)

  /** Deliveries whose signature and fields were accepted; `idrPerUsd` is the stored exchange rate, if any. */
  datatype Message =
    | Cryptomus(orderId: nat, status: string, cents: Option<nat>, currency: Option<string>, signature: nat)
    | Leuwongrr(orderId: nat, status: string, amountIdr: int, idrPerUsd: Option<nat>, signature: nat)

  datatype Response =
    | NotFound | AmountMismatch | CurrencyMismatch | RateUnavailable | SnapshotInvalid
    | Accepted(duplicate: bool)
    | NeedsReconciliation(error: BillingError)

  datatype Delivery = Delivery(shop: Shop, response: Response, granted: bool)

  const TOKENS_PER_USD: nat := 50_000_000

  predicate Paid(status: string) { status == "paid" || status == "paid_over" }

  function DigestOf(m: Message): Digest { Digest(m.orderId, m.status, m.signature) }

  function IdrToTokens(amountIdr: int, idrPerUsd: nat): nat
    requires idrPerUsd > 0
  {
    if amountIdr <= 0 then 0 else amountIdr * TOKENS_PER_USD / idrPerUsd
  }

  /** The terms of an order that carries none of its own. */
  function DefaultTerms(p: Payment, tokens: int): Snapshot {
    Snapshot(Some(if p.purpose == ForSubscription then RollingTime else TokenPack),
             p.planId, None, Some(tokens), None, None, None)
  }

  function Priced(s: Snapshot, p: Payment): Snapshot {
    if s.amountCents.None? then s.(amountCents := Some(p.amountCents)) else s
  }

  function CryptomusTerms(p: Payment): Option<Snapshot> {
    match p.entitlement
    case Malformed => None
    case Empty => Some(Priced(DefaultTerms(p, p.tokens), p))
    case Terms(s) => Some(Priced(s, p))
  }

  function LeuwongrrTerms(p: Payment, tokens: nat): Option<Snapshot> {
    match p.entitlement
    case Malformed => None
    case Empty => Some(Priced(DefaultTerms(p, tokens), p))
    case Terms(s) =>
      var t := Priced(s, p);
      Some(if OrElse(t.tokens, 0) == 0 then t.(tokens := Some(tokens)) else t)
  }

  /** A paid notice that must not settle: too little money or the wrong currency. */
  function Mismatch(m: Message, p: Payment): Option<Response> {
    if !Paid(m.status) then None
    else
      match m
      case Cryptomus(_, _, cents, currency, _) =>
        if cents.None? || cents.value < p.amountCents || currency != Some(p.currency) then Some(AmountMismatch)
        else None
      case Leuwongrr(_, _, amountIdr, _, _) =>
        if amountIdr < p.amountCents then Some(AmountMismatch)
        else if p.currency != "IDR" then Some(CurrencyMismatch) else None
  }

  predicate Grants(r: Settlement) { r.tokensGranted > 0 || r.centsGranted > 0 || r.subscription.Some? }

  /** What the failed settlement leaves on the payment, outside the rolled-back transaction. */
  function Stuck(p: Payment, status: string, e: BillingError): Payment {
    p.(settlement := ReconciliationRequired, settlementError := Some(e), status := status, settledAt := None)
  }

  function Failed(s: Shop, m: Message, e: BillingError): Delivery
    requires m.orderId in s.payments
  {
    Delivery(s.(payments := s.payments[m.orderId := Stuck(s.payments[m.orderId], m.status, e)]),
             NeedsReconciliation(e), false)
  }

  /** The settling branch of the transaction, for a payment not settled before. */
  function SettleFirst(s: Shop, m: Message, terms: Option<Snapshot>, now: nat): Delivery
    requires m.orderId in s.payments
  {
    var p := s.payments[m.orderId];
    if terms.None? then Failed(s, m, EntitlementSnapshotInvalid)
    else
      match SettlePaymentSnapshot(s.account, p.id, true, terms.value, now)
      case Err(e) => Failed(s, m, e)
      case Ok(r) =>
        var settled := p.(status := m.status, settledAt := Some(now), settlement := Settled, settlementError := None);
        Delivery(Shop(r.account, s.payments[m.orderId := settled], s.events + {DigestOf(m)}),
                 Accepted(false), Grants(r))
  }

  /** The branches that only record: `p` is the payment row afterwards. */
  function RecordOnly(s: Shop, m: Message, p: Payment): Delivery {
    Delivery(s.(payments := s.payments[m.orderId := p], events := s.events + {DigestOf(m)}), Accepted(false), false)
  }

  function Transact(s: Shop, m: Message, terms: Option<Snapshot>, now: nat): Delivery
    requires m.orderId in s.payments
  {
    var p := s.payments[m.orderId];
    if DigestOf(m) in s.events then Delivery(s, Accepted(true), false)
    else if Paid(m.status) && p.settledAt.None? then SettleFirst(s, m, terms, now)
    else if Paid(m.status) && m.Cryptomus? then RecordOnly(s, m, p.(status := m.status, settlement := Settled))
    else if p.settledAt.Some? then RecordOnly(s, m, p)
    else RecordOnly(s, m, p.(status := m.status))
  }

  function Deliver(s: Shop, m: Message, now: nat): Delivery {
    if m.orderId !in s.payments then Delivery(s, NotFound, false)
    else
      var p := s.payments[m.orderId];
      if m.Leuwongrr? && !p.fromLeuwongrr then Delivery(s, NotFound, false)
      else if Mismatch(m, p).Some? then Delivery(s, Mismatch(m, p).value, false)
      else if m.Cryptomus? then Transact(s, m, CryptomusTerms(p), now)
      else if !Paid(m.status) then Transact(s, m, None, now)
      else if m.idrPerUsd.None? || m.idrPerUsd.value == 0 then Delivery(s, RateUnavailable, false)
      else
        var terms := LeuwongrrTerms(p, IdrToTokens(m.amountIdr, m.idrPerUsd.value));
        if terms.None? then Delivery(s, SnapshotInvalid, false) else Transact(s, m, terms, now)
  }

  /** The handlers: one transaction over the payment, its delivery markers and the account's rows. */
  class Webhooks {
    const billing: BillingService
    var payments: map<nat, Payment>
    var paymentEvents: set<Digest>

    constructor (billing: BillingService, payments: map<nat, Payment>)
      ensures this.billing == billing && this.payments == payments && paymentEvents == {}
    {
      this.billing := billing;
      this.payments := payments;
      paymentEvents := {};
    }

    ghost function State(): Shop
      reads this, billing
    {
      Shop(billing.Rows(), payments, paymentEvents)
    }

    /** The transaction body; an error rolls the marker and the payment row back. */
    method Settle(m: Message, terms: Option<Snapshot>, now: nat) returns (error: Option<BillingError>, granted: bool)
      requires m.orderId in payments
      modifies this, billing
      ensures var d := SettleFirst(old(State()), m, terms, now);
              && error == (if d.response.NeedsReconciliation? then Some(d.response.error) else None)
              && granted == d.granted
              && State() == if error.Some? then old(State()) else d.shop
    {
      var savedPayments, savedEvents := payments, paymentEvents;
      var p := payments[m.orderId];
      paymentEvents := paymentEvents + {DigestOf(m)};
      payments := payments[m.orderId := p.(status := m.status, settledAt := Some(now))];
      if terms.None? {
        payments, paymentEvents := savedPayments, savedEvents;
        return Some(EntitlementSnapshotInvalid), false;
      }
      var r := billing.Settle(p.id, true, terms.value, now);
      if r.Err? {
        payments, paymentEvents := savedPayments, savedEvents;
        return Some(r.error), false;
      }
      payments := payments[m.orderId := payments[m.orderId].(settlement := Settled, settlementError := None)];
      granted := r.value.tokensGranted > 0 || r.value.centsGranted > 0 || r.value.subscription.Some?;
      return None, granted;
    }

    method Process(m: Message, terms: Option<Snapshot>, now: nat) returns (response: Response, granted: bool)
      requires m.orderId in payments
      modifies this, billing
      ensures Delivery(State(), response, granted) == Transact(old(State()), m, terms, now)
    {
      var p := payments[m.orderId];
      if DigestOf(m) in paymentEvents {
        return Accepted(true), false;
      }
      if Paid(m.status) && p.settledAt.None? {
        var error;
        error, granted := Settle(m, terms, now);
        if error.Some? {
          payments := payments[m.orderId := Stuck(p, m.status, error.value)];
          return NeedsReconciliation(error.value), false;
        }
        return Accepted(false), granted;
      }
      paymentEvents := paymentEvents + {DigestOf(m)};
      if Paid(m.status) && m.Cryptomus? {
        payments := payments[m.orderId := p.(status := m.status, settlement := Settled)];
      } else if p.settledAt.None? {
        payments := payments[m.orderId := p.(status := m.status)];
      } else {
        payments := payments[m.orderId := p];
      }
      return Accepted(false), false;
    }

    method Handle(m: Message, now: nat) returns (response: Response, granted: bool)
      modifies this, billing
      ensures Delivery(State(), response, granted) == Deliver(old(State()), m, now)
    {
      if m.orderId !in payments {
        return NotFound, false;
      }
      var p := payments[m.orderId];
      if m.Leuwongrr? && !p.fromLeuwongrr {
        return NotFound, false;
      }
      var mismatch := Mismatch(m, p);
      if mismatch.Some? {
        return mismatch.value, false;
      }
      var terms := None;
      if m.Cryptomus? {
        terms := CryptomusTerms(p);
      } else if Paid(m.status) {
        if m.idrPerUsd.None? || m.idrPerUsd.value == 0 {
          return RateUnavailable, false;
        }
        terms := LeuwongrrTerms(p, IdrToTokens(m.amountIdr, m.idrPerUsd.value));
        if terms.None? {
          return SnapshotInvalid, false;
        }
      }
      response, granted := Process(m, terms, now);
    }
  }

  // ---- Runs ----

  datatype Event =
    | Webhook(message: Message, now: nat)
    | Operation(op: Billing.Op)

  function Next(s: Shop, e: Event): Shop {
    match e
    case Webhook(m, now) => Deliver(s, m, now).shop
    case Operation(op) => s.(account := Billing.Step(s.account, op))
  }

  function Play(s: Shop, events: seq<Event>): Shop {
    if events == [] then s else Next(Play(s, events[..|events| - 1]), events[|events| - 1])
  }

  /** How many deliveries of the run granted the order's entitlement. */
  function GrantCount(s: Shop, events: seq<Event>, orderId: nat): nat {
    if events == [] then 0
    else
      var e := events[|events| - 1];
      GrantCount(s, events[..|events| - 1], orderId)
      + (if e.Webhook? && e.message.orderId == orderId
         && Deliver(Play(s, events[..|events| - 1]), e.message, e.now).granted
         then 1 else 0)
  }

  /** Only the webhooks settle payments or write payment rows to the ledger. */
  ghost predicate Proper(e: Event) {
    e.Operation? ==> !e.op.Settle? && (e.op.Deposit? ==> e.op.source != FromPaymentSource)
  }

  /** Orders have their own payment ids, and a payment's ledger mark exists only once it is settled. */
  ghost predicate Sound(s: Shop) {
    && (forall o, q :: o in s.payments && q in s.payments && o != q ==> s.payments[o].id != s.payments[q].id)
    && (forall o :: o in s.payments && HasKey(s.account.ledger, FromPaymentSource, Plain(s.payments[o].id)) ==>
          s.payments[o].settledAt.Some?)
  }

  /** A new account, and orders with payments of their own. */
  lemma FreshShop(a: Account, payments: map<nat, Payment>)
    requires Billing.Fresh(a)
    requires forall o, q :: o in payments && q in payments && o != q ==> payments[o].id != payments[q].id
    ensures Sound(Shop(a, payments, {}))
  {
  }

  function SettledAt(s: Shop, orderId: nat): Option<nat> {
    if orderId in s.payments then s.payments[orderId].settledAt else None
  }

  // ---- Ledger marks of payments ----

  lemma RecordMarks(l: seq<Entry>, e: Entry, r: Reference)
    ensures HasKey(Record(l, e), FromPaymentSource, r)
            ==> HasKey(l, FromPaymentSource, r) || (e.source == FromPaymentSource && e.reference == r)
  {
    Billing.HasKeyAppend(l, e, FromPaymentSource, r);
  }

  lemma StampMarks(l: seq<Entry>, source: Source, reference: Reference, cents: nat, r: Reference)
    ensures HasKey(StampCents(l, source, reference, cents), FromPaymentSource, r) ==> HasKey(l, FromPaymentSource, r)
  {
    var m := StampCents(l, source, reference, cents);
    if HasKey(m, FromPaymentSource, r) {
      var i :| 0 <= i < |m| && m[i].source == FromPaymentSource && m[i].reference == r;
      assert l[i].source == FromPaymentSource && l[i].reference == r;
    }
  }

  lemma AccountMarks(a: Account, op: Billing.Op, r: Reference)
    requires !op.Settle? && (op.Deposit? ==> op.source != FromPaymentSource)
    requires HasKey(Billing.Step(a, op).ledger, FromPaymentSource, r)
    ensures HasKey(a.ledger, FromPaymentSource, r)
  {
    forall l: seq<Entry>, e: Entry | e.source != FromPaymentSource && HasKey(Record(l, e), FromPaymentSource, r)
      ensures HasKey(l, FromPaymentSource, r)
    {
      RecordMarks(l, e, r);
    }
  }

  /** A settlement marks only its own payment. */
  lemma SettleMarks(a: Account, paymentId: nat, terms: Snapshot, now: nat, r: Reference)
    requires SettlePaymentSnapshot(a, paymentId, true, terms, now).Ok?
    requires HasKey(SettlePaymentSnapshot(a, paymentId, true, terms, now).value.account.ledger, FromPaymentSource, r)
    ensures HasKey(a.ledger, FromPaymentSource, r) || r == Plain(paymentId)
  {
    forall l: seq<Entry>, e: Entry | HasKey(Record(l, e), FromPaymentSource, r)
      ensures HasKey(l, FromPaymentSource, r) || (e.source == FromPaymentSource && e.reference == r)
    {
      RecordMarks(l, e, r);
    }
    forall l: seq<Entry>, source, reference, cents
      | HasKey(StampCents(l, source, reference, cents), FromPaymentSource, r)
      ensures HasKey(l, FromPaymentSource, r)
    {
      StampMarks(l, source, reference, cents, r);
    }
  }

  /** A settlement that goes through for the first time grants something. */
  lemma FirstSettlementGrants(a: Account, paymentId: nat, terms: Snapshot, now: nat)
    requires !HasKey(a.ledger, FromPaymentSource, Plain(paymentId))
    ensures var r := SettlePaymentSnapshot(a, paymentId, true, terms, now); r.Ok? ==> Grants(r.value)
  {
  }

  // ---- One delivery ----

  lemma SettleFirstStep(s: Shop, m: Message, terms: Option<Snapshot>, now: nat)
    requires Sound(s) && m.orderId in s.payments && s.payments[m.orderId].settledAt.None?
    ensures var d := SettleFirst(s, m, terms, now);
            && Sound(d.shop)
            && (d.granted <==> SettledAt(d.shop, m.orderId).Some?)
            && (!d.granted ==> d.response.NeedsReconciliation?)
  {
    var p := s.payments[m.orderId];
    var d := SettleFirst(s, m, terms, now);
    if terms.Some? {
      FirstSettlementGrants(s.account, p.id, terms.value, now);
      var r := SettlePaymentSnapshot(s.account, p.id, true, terms.value, now);
      if r.Ok? {
        forall o | o in d.shop.payments
                   && HasKey(d.shop.account.ledger, FromPaymentSource, Plain(d.shop.payments[o].id))
          ensures d.shop.payments[o].settledAt.Some?
        {
          SettleMarks(s.account, p.id, terms.value, now, Plain(d.shop.payments[o].id));
        }
      }
    }
  }

  /** The branches that only record keep the payment open or settled as it was. */
  lemma RecordStep(s: Shop, m: Message, p: Payment)
    requires Sound(s) && m.orderId in s.payments
    requires p == s.payments[m.orderId].(status := p.status, settlement := p.settlement)
    ensures var d := RecordOnly(s, m, p);
            Sound(d.shop) && SettledAt(d.shop, m.orderId) == SettledAt(s, m.orderId) && !d.granted
  {
  }

  lemma TransactStep(s: Shop, m: Message, terms: Option<Snapshot>, now: nat)
    requires Sound(s) && m.orderId in s.payments
    ensures var d := Transact(s, m, terms, now);
            && Sound(d.shop)
            && (s.payments[m.orderId].settledAt.Some? ==>
                  SettledAt(d.shop, m.orderId) == s.payments[m.orderId].settledAt && !d.granted)
            && (s.payments[m.orderId].settledAt.None? ==> (d.granted <==> SettledAt(d.shop, m.orderId).Some?))
  {
    var p := s.payments[m.orderId];
    RecordStep(s, m, p);
    RecordStep(s, m, p.(status := m.status));
    RecordStep(s, m, p.(status := m.status, settlement := Settled));
    if p.settledAt.None? {
      SettleFirstStep(s, m, terms, now);
    }
  }

  lemma DeliverStep(s: Shop, m: Message, now: nat)
    requires Sound(s)
    ensures var d := Deliver(s, m, now);
            && Sound(d.shop)
            && (SettledAt(s, m.orderId).Some? ==> SettledAt(d.shop, m.orderId) == SettledAt(s, m.orderId) && !d.granted)
            && (SettledAt(s, m.orderId).None? ==> (d.granted <==> SettledAt(d.shop, m.orderId).Some?))
  {
    if m.orderId in s.payments {
      TransactStep(s, m, CryptomusTerms(s.payments[m.orderId]), now);
      TransactStep(s, m, None, now);
      if m.Leuwongrr? && m.idrPerUsd.Some? && m.idrPerUsd.value > 0 {
        TransactStep(s, m, LeuwongrrTerms(s.payments[m.orderId], IdrToTokens(m.amountIdr, m.idrPerUsd.value)), now);
      }
    }
  }

  /** A delivery for one order never touches another's payment. */
  lemma OtherOrdersUntouched(s: Shop, m: Message, now: nat, o: nat)
    requires o != m.orderId
    ensures var d := Deliver(s, m, now);
            (o in d.shop.payments <==> o in s.payments) && (o in s.payments ==> d.shop.payments[o] == s.payments[o])
  {
  }

  /** A late failure notice changes nothing but the delivery marker. */
  lemma LateFailureHarmless(s: Shop, m: Message, now: nat)
    requires SettledAt(s, m.orderId).Some? && !Paid(m.status)
    ensures var d := Deliver(s, m, now);
            d.shop.account == s.account && d.shop.payments == s.payments && !d.response.NeedsReconciliation?
  {
    assert s.payments[m.orderId := s.payments[m.orderId]] == s.payments;
  }

  lemma NextStep(s: Shop, e: Event, o: nat)
    requires Sound(s) && Proper(e)
    ensures Sound(Next(s, e))
    ensures SettledAt(s, o).Some? ==> SettledAt(Next(s, e), o) == SettledAt(s, o)
    ensures (e.Webhook? && e.message.orderId == o && Deliver(s, e.message, e.now).granted)
            <==> SettledAt(s, o).None? && SettledAt(Next(s, e), o).Some?
  {
    match e
    case Webhook(m, now) =>
      DeliverStep(s, m, now);
      if m.orderId != o {
        OtherOrdersUntouched(s, m, now, o);
      }
    case Operation(op) =>
      forall q | q in s.payments
                 && HasKey(Billing.Step(s.account, op).ledger, FromPaymentSource, Plain(s.payments[q].id))
        ensures s.payments[q].settledAt.Some?
      {
        AccountMarks(s.account, op, Plain(s.payments[q].id));
      }
  }

  /**
   * Over every run of deliveries and account operations a payment grants at most once, it has granted
   * exactly when it has become settled, and once settled it stays settled at the same instant.
   */
  lemma {:induction false} GrantsAtMostOnce(s: Shop, events: seq<Event>, o: nat)
    requires Sound(s) && forall i :: 0 <= i < |events| ==> Proper(events[i])
    ensures Sound(Play(s, events))
    ensures SettledAt(s, o).Some? ==> SettledAt(Play(s, events), o) == SettledAt(s, o)
    ensures GrantCount(s, events, o) == if SettledAt(s, o).None? && SettledAt(Play(s, events), o).Some? then 1 else 0
  {
    if events != [] {
      var prefix, e := events[..|events| - 1], events[|events| - 1];
      GrantsAtMostOnce(s, prefix, o);
      NextStep(Play(s, prefix), e, o);
    }
  }

  // ---- Failed attempts ----

  /** A failed settlement leaves the account and the markers as they were; only the payment is flagged. */
  lemma FailureRollsBack(s: Shop, m: Message, now: nat)
    requires Deliver(s, m, now).response.NeedsReconciliation?
    ensures var d := Deliver(s, m, now);
            && m.orderId in s.payments
            && d.shop.account == s.account && d.shop.events == s.events
            && d.shop.payments[m.orderId]
               == s.payments[m.orderId].(settlement := ReconciliationRequired, status := m.status,
                                         settlementError := Some(d.response.error))
            && SettledAt(d.shop, m.orderId).None?
  {
  }

  /** The same shop but for the flags a failed settlement leaves on the order. */
  ghost predicate Flagged(s: Shop, t: Shop, o: nat) {
    && o in s.payments && o in t.payments && t.account == s.account && t.events == s.events
    && var p, q := s.payments[o], t.payments[o];
       p.settledAt.None? && q == p.(settlement := q.settlement, settlementError := q.settlementError,
                                    status := q.status)
  }

  /** The same answer, grant, account and markers, and the order settled at the same instant. */
  ghost predicate SameDelivery(d: Delivery, e: Delivery, o: nat) {
    && d.response == e.response && d.granted == e.granted
    && d.shop.account == e.shop.account && d.shop.events == e.shop.events
    && SettledAt(d.shop, o) == SettledAt(e.shop, o)
  }

  lemma SettleIgnoresFlags(s: Shop, t: Shop, m: Message, terms: Option<Snapshot>, now: nat)
    requires Flagged(s, t, m.orderId)
    ensures SameDelivery(SettleFirst(t, m, terms, now), SettleFirst(s, m, terms, now), m.orderId)
  {
  }

  lemma TransactIgnoresFlags(s: Shop, t: Shop, m: Message, terms: Option<Snapshot>, now: nat)
    requires Flagged(s, t, m.orderId)
    ensures SameDelivery(Transact(t, m, terms, now), Transact(s, m, terms, now), m.orderId)
  {
    SettleIgnoresFlags(s, t, m, terms, now);
  }

  lemma TermsIgnoreFlags(p: Payment, q: Payment, tokens: nat)
    requires q == p.(settlement := q.settlement, settlementError := q.settlementError, status := q.status)
    ensures CryptomusTerms(q) == CryptomusTerms(p) && LeuwongrrTerms(q, tokens) == LeuwongrrTerms(p, tokens)
  {
  }

  lemma DeliverIgnoresFlags(s: Shop, t: Shop, m: Message, now: nat)
    requires Flagged(s, t, m.orderId)
    ensures SameDelivery(Deliver(t, m, now), Deliver(s, m, now), m.orderId)
  {
    var p, q := s.payments[m.orderId], t.payments[m.orderId];
    TransactIgnoresFlags(s, t, m, CryptomusTerms(p), now);
    TransactIgnoresFlags(s, t, m, None, now);
    TermsIgnoreFlags(p, q, 0);
    if m.Leuwongrr? && m.idrPerUsd.Some? && m.idrPerUsd.value > 0 {
      var tokens := IdrToTokens(m.amountIdr, m.idrPerUsd.value);
      TransactIgnoresFlags(s, t, m, LeuwongrrTerms(p, tokens), now);
      TermsIgnoreFlags(p, q, tokens);
    }
  }

  lemma FailureFlags(s: Shop, m: Message, now: nat)
    requires Deliver(s, m, now).response.NeedsReconciliation?
    ensures m.orderId in s.payments && s.payments[m.orderId].settledAt.None?
  {
  }

  /** Whatever the account has become by then, a retry after a failure does what a first attempt would. */
  lemma RetryLikeFirst(s: Shop, m: Message, now: nat, later: Account, retryAt: nat)
    requires Deliver(s, m, now).response.NeedsReconciliation?
    ensures SameDelivery(Deliver(Deliver(s, m, now).shop.(account := later), m, retryAt),
                         Deliver(s.(account := later), m, retryAt), m.orderId)
  {
    FailureRollsBack(s, m, now);
    FailureFlags(s, m, now);
    DeliverIgnoresFlags(s.(account := later), Deliver(s, m, now).shop.(account := later), m, retryAt);
  }
}
