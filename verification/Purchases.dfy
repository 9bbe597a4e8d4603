// What purchases and payment settlements write, row by row and field by field
// (src/billing/service.ts:345-491 and 774-873).

module Purchases {
  import opened Base
  import opened Accounts
  import opened Conservation
  import opened Charges

  /** How long a plan runs: its hours, or the days of the period when it has none. */
  function Lasts(plan: Plan, days: nat): nat {
    match plan.durationHours
    case Some(hours) => if hours > 0 then hours * 3_600_000 else days * 86_400_000
    case None => days * 86_400_000
  }

  /** The row bought with `plan` at `now`: its timer runs from the payment, or waits for the first use. */
  ghost predicate Bought(s: Subscription, plan: Plan, planId: PlanId, now: nat, days: nat, group: Option<nat>) {
    && s.planId == planId && s.status == Active && s.modelGroupId == group
    && s.included == plan.includedTokens && s.used == 0 && s.resetsRemaining == plan.resetsAllowed
    && s.purchaseMethod == Some(plan.purchaseMethod) && s.durationHours == plan.durationHours
    && s.timerBasis == Some(plan.timerBasis) && s.periodEnd == now + Lasts(plan, days)
    && (plan.timerBasis == FromPayment ==> s.activatedAt == Some(now) && s.expiresAt == Some(now + Lasts(plan, days)))
    && (plan.timerBasis == FromFirstUse ==> s.activatedAt == None && s.expiresAt == None)
  }

  /** The row of a pack of `tokens` tokens that lasts `hours` from now. */
  ghost predicate BoughtPack(s: Subscription, planId: PlanId, tokens: int, hours: int, now: nat) {
    && s.planId == planId && s.status == Active && s.modelGroupId == None
    && s.included == tokens && s.used == 0 && s.resetsRemaining == 0
    && s.purchaseMethod == Some(TokenPack) && s.durationHours.Some? && s.durationHours.value == hours
    && s.timerBasis == Some(FromPayment) && s.periodEnd == now + hours * 3_600_000
    && s.activatedAt == Some(now) && s.expiresAt.Some? && s.expiresAt.value == now + hours * 3_600_000
  }

  /** A row that a purchase of `plan` ends. */
  predicate Ends(plan: Plan, s: Subscription) {
    && s.status != Canceled
    && (plan.durationHours.None? || (plan.purchaseMethod == RollingTime && s.purchaseMethod == Some(RollingTime)))
  }

  /** The rows from before a purchase: ended ones are canceled, the others as they were. */
  ghost predicate OldRows(a: Account, b: Account, plan: Plan) {
    && |b.subs| == |a.subs| + 1
    && forall i :: 0 <= i < |a.subs| ==>
         b.subs[i] == if Ends(plan, a.subs[i]) then a.subs[i].(status := Canceled) else a.subs[i]
  }

  ghost predicate SameMoney(a: Account, b: Account) {
    b.tokens == a.tokens && b.cents == a.cents && b.plans == a.plans && b.lastUsageAt == a.lastUsageAt
  }

  lemma FreshGrant(a: Account, tokens: nat)
    requires GrantsNameRows(a)
    ensures Record(a.ledger, GrantEntry(a, tokens, |a.subs|))
            == a.ledger + [Entry(Grant, FromSubscription, tokens, Plain(|a.subs|), a.tokens, Tokens, 0, 0)]
  {
  }

  // ---- Purchases ----

  /** A known, active plan is sold, and nothing else is refused. */
  lemma SubscriptionRow(a: Account, planId: PlanId, now: nat, days: nat)
    requires GrantsNameRows(a)
    ensures var r := StartSubscription(a, planId, now, days);
            if planId !in a.plans then r == Err(PlanNotFound)
            else if !a.plans[planId].active then r == Err(PlanInactive)
            else
              var plan, n := a.plans[planId], |a.subs|;
              && r.Ok? && SameMoney(a, r.value) && OldRows(a, r.value, plan)
              && Bought(r.value.subs[n], plan, planId, now, days, None)
              && r.value.ledger
                 == a.ledger + [Entry(Grant, FromSubscription, plan.includedTokens, Plain(n), a.tokens, Tokens, 0, 0)]
  {
    if planId in a.plans {
      FreshGrant(a, a.plans[planId].includedTokens);
    }
  }

  /** A pack of a positive number of tokens for one hour to a year is sold, for any known plan. */
  lemma PackRow(a: Account, planId: PlanId, tokens: int, hours: int, now: nat)
    requires GrantsNameRows(a)
    ensures var r := StartDurationPack(a, planId, tokens, hours, now);
            if planId !in a.plans then r == Err(PlanNotFound)
            else if tokens <= 0 || tokens > 9_007_199_254_740_991 then r == Err(PackTokensInvalid)
            else if hours < 1 || hours > 365 * 24 then r == Err(PackDurationInvalid)
            else
              && r.Ok? && SameMoney(a, r.value)
              && |r.value.subs| == |a.subs| + 1 && r.value.subs[..|a.subs|] == a.subs
              && BoughtPack(r.value.subs[|a.subs|], planId, tokens, hours, now)
              && r.value.ledger
                 == a.ledger + [Entry(Grant, FromSubscription, tokens, Plain(|a.subs|), a.tokens, Tokens, 0, 0)]
  {
    if planId in a.plans && tokens > 0 {
      FreshGrant(a, tokens);
    }
  }

  /** An active row with a reset left starts over from now; no other row changes. */
  lemma ResetRow(a: Account, id: nat, now: nat)
    ensures var r := ResetSubscription(a, id, now);
            if id < |a.subs| && a.subs[id].status == Active && a.subs[id].resetsRemaining > 0 then
              var s := a.subs[id];
              r == Ok(a.(subs := a.subs[id := Started(s, now).(used := 0, resetsRemaining := s.resetsRemaining - 1)]))
            else r == Err(ResetUnavailable)
  {
  }

  /** A first use starts the timer of an active row that still waits, and nothing else. */
  lemma FirstUseRow(a: Account, id: nat, now: nat)
    ensures ActivateFirstUse(a, id, now)
            == if id < |a.subs| && a.subs[id].status == Active && a.subs[id].timerBasis == Some(FromFirstUse)
                  && a.subs[id].activatedAt.None?
               then a.(subs := a.subs[id := Started(a.subs[id], now)]) else a
  {
  }

  /** A credit moves the wallet once per key, with the balance after it on its row. */
  lemma CreditRow(a: Account, tokens: int, source: Source, reference: Reference, kind: Kind)
    ensures var r := Credit(a, tokens, source, reference, kind);
            if tokens <= 0 then r == Err(CreditMustBePositive)
            else if exists i :: 0 <= i < |a.ledger| && a.ledger[i].source == source
                                && a.ledger[i].reference == reference then r == Ok(a)
            else
              && r.Ok? && r.value == a.(tokens := r.value.tokens, ledger := r.value.ledger)
              && r.value.tokens == a.tokens + tokens
              && r.value.ledger
                 == a.ledger + [Entry(kind, source, tokens, reference, a.tokens + tokens, Tokens, 0, 0)]
  {
  }

  // ---- Payments ----

  /** A payment not yet marked in the ledger. */
  ghost predicate Unmarked(a: Account, paymentId: nat) {
    forall i :: 0 <= i < |a.ledger| && a.ledger[i].source == FromPaymentSource ==>
      a.ledger[i].reference != Plain(paymentId)
  }

  predicate Sells(a: Account, planId: Option<PlanId>) {
    planId.Some? && planId.value in a.plans && a.plans[planId.value].active
  }

  /** What the payer is charged for a pack: the invoice's cents, or the snapshot's own. */
  function Equivalent(s: Snapshot): int {
    match s.amountCents
    case Some(cents) => cents
    case None => (match s.balanceCents case Some(cents) => cents case None => 0)
  }

  function Amount(x: Option<int>): int {
    match x
    case Some(n) => n
    case None => 0
  }

  /**
   * A rolling pass: the bought row carries the snapshot's plan for its hours, or 30 days, and the
   * snapshot's model group when it names one; two ledger rows say so, and no balance moves.
   */
  lemma RollingSettles(a: Account, paymentId: nat, s: Snapshot, now: nat)
    requires GrantsNameRows(a) && Unmarked(a, paymentId)
    requires s.purchaseMethod == Some(RollingTime) && Sells(a, s.planId)
    ensures var r, plan, n := SettlePaymentSnapshot(a, paymentId, true, s, now), a.plans[s.planId.value], |a.subs|;
            && r.Ok? && r.value.tokensGranted == 0 && r.value.centsGranted == 0 && r.value.subscription == Some(n)
            && SameMoney(a, r.value.account) && OldRows(a, r.value.account, plan)
            && Bought(r.value.account.subs[n], plan, s.planId.value, now, 30,
                      if s.modelGroupId.Some? then s.modelGroupId.value else None)
            && r.value.account.ledger
               == a.ledger + [Entry(Grant, FromSubscription, plan.includedTokens, Plain(n), a.tokens, Tokens, 0, 0),
                              Entry(Grant, FromPaymentSource, 0, Plain(paymentId), a.tokens, Tokens, 0, 0)]
  {
    var planId, n := s.planId.value, |a.subs|;
    SubscriptionRow(a, planId, now, 30);
    var b := StartSubscription(a, planId, now, 30).value;
    var mark := PaymentMark(b, paymentId, Tokens, 0);
    assert !HasKey(b.ledger, FromPaymentSource, Plain(paymentId));
    assert a.ledger + [b.ledger[|a.ledger|]] + [mark] == a.ledger + [b.ledger[|a.ledger|], mark];
  }

  /** A pack with a shelf life: its row, and one ledger row that carries what was charged for it. */
  lemma PackSettles(a: Account, paymentId: nat, s: Snapshot, now: nat)
    requires GrantsNameRows(a) && Unmarked(a, paymentId)
    requires s.purchaseMethod == Some(TokenPack) && 0 < Amount(s.tokens) <= 9_007_199_254_740_991
    requires Equivalent(s) >= 0 && Amount(s.balanceCents) >= 0
    requires s.durationHours.Some? && 1 <= s.durationHours.value <= 8_760 && s.planId.Some? && s.planId.value in a.plans
    ensures var r, n := SettlePaymentSnapshot(a, paymentId, true, s, now), |a.subs|;
            && r.Ok? && r.value.tokensGranted == Amount(s.tokens) && r.value.centsGranted == 0
            && r.value.subscription == Some(n) && SameMoney(a, r.value.account)
            && |r.value.account.subs| == n + 1 && r.value.account.subs[..n] == a.subs
            && BoughtPack(r.value.account.subs[n], s.planId.value, Amount(s.tokens), s.durationHours.value, now)
            && r.value.account.ledger
               == a.ledger + [Entry(Grant, FromSubscription, Amount(s.tokens), Plain(n), a.tokens, Tokens,
                                    Equivalent(s), 0)]
  {
    var n := |a.subs|;
    PackRow(a, s.planId.value, Amount(s.tokens), s.durationHours.value, now);
    var b := StartDurationPack(a, s.planId.value, Amount(s.tokens), s.durationHours.value, now).value;
    StampsLast(a.ledger, b.ledger, b.ledger[|a.ledger|], Equivalent(s));
  }

  /** A stamp on the row just written changes no row before it. */
  lemma StampsLast(ledger: seq<Entry>, more: seq<Entry>, e: Entry, cents: nat)
    requires more == ledger + [e]
    requires forall i :: 0 <= i < |ledger| ==> ledger[i].source != e.source || ledger[i].reference != e.reference
    ensures StampCents(more, e.source, e.reference, cents) == ledger + [e.(cents := cents, currency := Tokens)]
  {
  }

  /** A pack without one: a permanent credit, whose ledger row carries what was charged for it. */
  lemma CreditSettles(a: Account, paymentId: nat, s: Snapshot, now: nat)
    requires Unmarked(a, paymentId)
    requires s.purchaseMethod == Some(TokenPack) && 0 < Amount(s.tokens) && s.durationHours.None?
    requires Equivalent(s) >= 0 && Amount(s.balanceCents) >= 0
    ensures var r := SettlePaymentSnapshot(a, paymentId, true, s, now);
            && r.Ok? && r.value.tokensGranted == Amount(s.tokens) && r.value.centsGranted == 0
            && r.value.subscription == None && r.value.account.subs == a.subs
            && r.value.account.tokens == a.tokens + Amount(s.tokens) && r.value.account.cents == a.cents
            && r.value.account.ledger
               == a.ledger + [Entry(Purchase, FromPaymentSource, Amount(s.tokens), Plain(paymentId),
                                    a.tokens + Amount(s.tokens), Tokens, Equivalent(s), 0)]
  {
    var tokens := Amount(s.tokens);
    CreditRow(a, tokens, FromPaymentSource, Plain(paymentId), Purchase);
    var b := Credit(a, tokens, FromPaymentSource, Plain(paymentId), Purchase).value;
    StampsLast(a.ledger, b.ledger, b.ledger[|a.ledger|], Equivalent(s));
  }

  /** Money: the cents onto the balance, with the balance after it on the ledger row. */
  lemma MoneySettles(a: Account, paymentId: nat, s: Snapshot, now: nat)
    requires Unmarked(a, paymentId) && !NoneRated(a.plans, a.subs)
    requires s.purchaseMethod == Some(MonetaryPack) || s.purchaseMethod == Some(Payg)
    requires Amount(s.tokens) >= 0 && Amount(s.balanceCents) > 0
    ensures var r := SettlePaymentSnapshot(a, paymentId, true, s, now);
            && r.Ok? && r.value.tokensGranted == 0 && r.value.centsGranted == Amount(s.balanceCents)
            && r.value.subscription == None && r.value.account.subs == a.subs
            && r.value.account.tokens == a.tokens && r.value.account.cents == a.cents + Amount(s.balanceCents)
            && r.value.account.ledger
               == a.ledger + [Entry(Grant, FromPaymentSource, 0, Plain(paymentId), a.tokens, Cents,
                                    Amount(s.balanceCents), a.cents + Amount(s.balanceCents))]
  {
    RateNeedsRated(a.plans, a.subs, 0);
  }

  /** The first reason, in the order they are checked, for which a settlement is refused. */
  ghost function Refusal(a: Account, inScope: bool, s: Snapshot): Option<BillingError> {
    var tokens, cents := Amount(s.tokens), Amount(s.balanceCents);
    if s.purchaseMethod.None? then Some(PaymentMethodInvalid)
    else if !inScope then Some(PaymentScopeInvalid)
    else if s.purchaseMethod.value == RollingTime then
      if s.planId.None? then Some(PaymentPlanMissing)
      else if s.planId.value !in a.plans then Some(PlanNotFound)
      else if !a.plans[s.planId.value].active then Some(PlanInactive) else None
    else if tokens < 0 || cents < 0 then Some(PaymentAmountInvalid)
    else if s.purchaseMethod.value == TokenPack then
      if tokens == 0 then Some(PaymentTokensMissing)
      else if Equivalent(s) < 0 then Some(PaymentAmountInvalid)
      else if s.durationHours.None? then None
      else if !(0 < s.durationHours.value <= 9_007_199_254_740_991) then Some(PaymentAmountInvalid)
      else if s.planId.None? then Some(PaymentPlanMissing)
      else if s.planId.value !in a.plans then Some(PlanNotFound)
      else if tokens > 9_007_199_254_740_991 then Some(PackTokensInvalid)
      else if s.durationHours.value > 8_760 then Some(PackDurationInvalid) else None
    else if NoneRated(a.plans, a.subs) then Some(PaygRateMissing)
    else if cents == 0 then Some(PaymentCentsMissing) else None
  }

  /** A payment already marked settles again as nothing, whatever its terms; any other fails for exactly these. */
  lemma SettlementRefused(a: Account, paymentId: nat, inScope: bool, s: Snapshot, now: nat)
    ensures var r := SettlePaymentSnapshot(a, paymentId, inScope, s, now);
            if s.purchaseMethod.Some? && inScope && !Unmarked(a, paymentId) then r == Ok(Settlement(a, 0, 0, None))
            else match Refusal(a, inScope, s)
                 case Some(e) => r == Err(e)
                 case None => r.Ok?
  {
    RateNeedsRated(a.plans, a.subs, 0);
  }
}
