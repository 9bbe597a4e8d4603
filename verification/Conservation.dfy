// Double-entry bookkeeping over every run of billing operations: what the balances hold is
// what the ledger explains.

module Conservation {
  import opened Base
  import opened Accounts
  import opened WaterfallProofs

  datatype Op =
    | UpsertPlan(planId: PlanId, plan: Plan)
    | Start(planId: PlanId, now: nat, periodDays: nat)
    | StartPack(planId: PlanId, packTokens: int, hours: int, now: nat)
    | FirstUse(id: nat, now: nat)
    | Reset(id: nat, now: nat)
    | Cancel
    | Deposit(tokens: int, source: Source, reference: Reference, kind: Kind)
    | Settle(paymentId: nat, inScope: bool, snapshot: Snapshot, now: nat)
    | Usage(units: nat, usageId: nat, now: nat)

  function OrSame(r: Outcome<Account>, a: Account): Account { if r.Ok? then r.value else a }

  /** A refused operation throws before it writes, so it leaves the account as it was. */
  function Step(a: Account, op: Op): Account {
    match op
    case UpsertPlan(id, plan) => a.(plans := a.plans[id := plan])
    case Start(id, now, days) => OrSame(StartSubscription(a, id, now, days), a)
    case StartPack(id, t, h, now) => OrSame(StartDurationPack(a, id, t, h, now), a)
    case FirstUse(id, now) => ActivateFirstUse(a, id, now)
    case Reset(id, now) => OrSame(ResetSubscription(a, id, now), a)
    case Cancel => CancelSubscription(a)
    case Deposit(t, s, r, k) => OrSame(Credit(a, t, s, r, k), a)
    case Settle(p, scope, s, now) =>
      var r := SettlePaymentSnapshot(a, p, scope, s, now);
      if r.Ok? then r.value.account else a
    case Usage(units, id, now) => ApplyUsage(a, units, id, now)
  }

  function Run(a: Account, ops: seq<Op>): Account {
    if ops == [] then a else Step(Run(a, ops[..|ops| - 1]), ops[|ops| - 1])
  }

  // ---- What the ledger says ----

  function FundedPart(e: Entry): int {
    if e.source == FromUsage && e.reference.Unfunded? then 0 else e.tokens
  }

  function GrantedCents(e: Entry): int {
    if e.source == FromPaymentSource && e.currency == Cents then e.cents else 0
  }

  function SpentCents(e: Entry): int { if e.source == FromUsage then e.cents else 0 }

  function Unspent(s: Subscription): int { s.included - s.used }

  /** Spendable tokens: the wallet and what every subscription ever granted still holds. */
  function Holdings(a: Account): int { a.tokens + Total(a.subs, Unspent) }

  /** Token movements the ledger does not carry: usage paid with cents, and allowances restored by resets. */
  datatype Tally = Tally(paidByCents: nat, restored: nat)

  function TallyStep(t: Tally, a: Account, op: Op): Tally {
    match op
    case Usage(units, id, now) =>
      if HasKey(a.ledger, FromUsage, Plain(id)) then t
      else t.(paidByCents := t.paidByCents + Waterfall(a, units, now).covered)
    case Reset(id, now) =>
      if ResetSubscription(a, id, now).Ok? then t.(restored := t.restored + a.subs[id].used) else t
    case _ => t
  }

  function RunTally(t: Tally, a: Account, ops: seq<Op>): Tally {
    if ops == [] then t
    else TallyStep(RunTally(t, a, ops[..|ops| - 1]), Run(a, ops[..|ops| - 1]), ops[|ops| - 1])
  }

  ghost predicate UniqueKeys(ledger: seq<Entry>) {
    forall i, j :: 0 <= i < j < |ledger| ==>
      ledger[i].source != ledger[j].source || ledger[i].reference != ledger[j].reference
  }

  /** Grants name existing subscriptions, so the next id is always fresh. */
  ghost predicate GrantsNameRows(a: Account) {
    forall i :: 0 <= i < |a.ledger| && a.ledger[i].source == FromSubscription ==>
      a.ledger[i].reference.Plain? && a.ledger[i].reference.id < |a.subs|
  }

  ghost predicate ShortfallsFollowDebits(ledger: seq<Entry>) {
    forall i :: 0 <= i < |ledger| && ledger[i].source == FromUsage && ledger[i].reference.Unfunded? ==>
      HasKey(ledger, FromUsage, Plain(ledger[i].reference.id))
  }

  ghost predicate UsedWithinIncluded(subs: seq<Subscription>) {
    forall i :: 0 <= i < |subs| ==> subs[i].used <= subs[i].included
  }

  ghost predicate WellKept(a: Account) {
    && UniqueKeys(a.ledger)
    && GrantsNameRows(a)
    && ShortfallsFollowDebits(a.ledger)
    && UsedWithinIncluded(a.subs)
  }

  /** The books balance, on the token axis and on the cents axis. */
  ghost predicate Balanced(a: Account, t: Tally) {
    && Holdings(a) == Total(a.ledger, FundedPart) + t.paidByCents + t.restored
    && a.cents == Total(a.ledger, GrantedCents) - Total(a.ledger, SpentCents)
  }

  // Only the billing service's own sources reach `credit`.
  ghost predicate Admissible(op: Op) {
    op.Deposit? ==> op.source in {FromPaymentSource, FromAdmin, FromPayg}
  }

  // ---- Ledger rows ----

  lemma RecordAppends(ledger: seq<Entry>, e: Entry)
    requires !HasKey(ledger, e.source, e.reference)
    ensures Record(ledger, e) == ledger + [e]
    ensures Total(ledger + [e], FundedPart) == Total(ledger, FundedPart) + FundedPart(e)
    ensures Total(ledger + [e], GrantedCents) == Total(ledger, GrantedCents) + GrantedCents(e)
    ensures Total(ledger + [e], SpentCents) == Total(ledger, SpentCents) + SpentCents(e)
    ensures UniqueKeys(ledger) ==> UniqueKeys(ledger + [e])
  {
    TotalAppend(ledger, e, FundedPart);
    TotalAppend(ledger, e, GrantedCents);
    TotalAppend(ledger, e, SpentCents);
  }

  lemma HasKeyAppend(ledger: seq<Entry>, e: Entry, source: Source, reference: Reference)
    ensures HasKey(ledger + [e], source, reference)
            <==> HasKey(ledger, source, reference) || (e.source == source && e.reference == reference)
  {
    if HasKey(ledger, source, reference) {
      var i :| 0 <= i < |ledger| && ledger[i].source == source && ledger[i].reference == reference;
      assert (ledger + [e])[i] == ledger[i];
    }
    assert (ledger + [e])[|ledger|] == e;
  }

  lemma ShortfallsAppend(ledger: seq<Entry>, e: Entry)
    requires ShortfallsFollowDebits(ledger)
    requires e.source == FromUsage && e.reference.Unfunded? ==> HasKey(ledger, FromUsage, Plain(e.reference.id))
    ensures ShortfallsFollowDebits(ledger + [e])
  {
    var l := ledger + [e];
    forall i | 0 <= i < |l| && l[i].source == FromUsage && l[i].reference.Unfunded?
      ensures HasKey(l, FromUsage, Plain(l[i].reference.id))
    {
      HasKeyAppend(ledger, e, FromUsage, Plain(l[i].reference.id));
      if i < |ledger| {
        assert l[i] == ledger[i];
      }
    }
  }

  /** Appending a row that is neither a shortfall nor a usage row. */
  lemma AppendKeepsBooks(a: Account, b: Account, e: Entry)
    requires WellKept(a) && !HasKey(a.ledger, e.source, e.reference)
    requires b.ledger == a.ledger + [e] && |a.subs| <= |b.subs| && UsedWithinIncluded(b.subs)
    requires e.source != FromUsage
    requires e.source == FromSubscription ==> e.reference.Plain? && e.reference.id < |b.subs|
    ensures WellKept(b)
  {
    RecordAppends(a.ledger, e);
    ShortfallsAppend(a.ledger, e);
  }

  lemma FreshGrant(a: Account)
    requires GrantsNameRows(a)
    ensures !HasKey(a.ledger, FromSubscription, Plain(|a.subs|))
  {
  }

  // ---- Purchases ----

  lemma CancelKeepsHoldings(subs: seq<Subscription>, cancel: Subscription -> bool)
    ensures Total(CancelWhere(subs, cancel), Unspent) == Total(subs, Unspent)
    ensures UsedWithinIncluded(subs) ==> UsedWithinIncluded(CancelWhere(subs, cancel))
  {
    TotalSame(subs, CancelWhere(subs, cancel), Unspent);
  }

  lemma GrantBalances(a: Account, b: Account, t: Tally, kept: seq<Subscription>, s: Subscription)
    requires WellKept(a) && Balanced(a, t)
    requires |kept| == |a.subs| && Total(kept, Unspent) == Total(a.subs, Unspent) && UsedWithinIncluded(kept)
    requires s.used == 0
    requires b == a.(subs := kept + [s], ledger := Record(a.ledger, GrantEntry(a, s.included, |a.subs|)))
    ensures WellKept(b) && Balanced(b, t)
    ensures b.ledger == a.ledger + [GrantEntry(a, s.included, |a.subs|)]
  {
    var e := GrantEntry(a, s.included, |a.subs|);
    FreshGrant(a);
    RecordAppends(a.ledger, e);
    AppendKeepsBooks(a, b, e);
    TotalAppend(kept, s, Unspent);
  }

  lemma StartBalances(a: Account, t: Tally, planId: PlanId, now: nat, days: nat)
    requires WellKept(a) && Balanced(a, t)
    ensures var r := StartSubscription(a, planId, now, days);
            r.Ok? ==> && WellKept(r.value) && Balanced(r.value, t)
                      && |r.value.subs| == |a.subs| + 1
                      && r.value.ledger == a.ledger + [GrantEntry(a, a.plans[planId].includedTokens, |a.subs|)]
  {
    var r := StartSubscription(a, planId, now, days);
    if r.Ok? {
      var plan := a.plans[planId];
      CancelKeepsHoldings(a.subs, (s: Subscription) => true);
      CancelKeepsHoldings(a.subs, (s: Subscription) => s.purchaseMethod == Some(RollingTime));
      GrantBalances(a, r.value, t, Replaced(plan, a.subs), NewSubscription(plan, planId, now, days));
    }
  }

  lemma StartPackBalances(a: Account, t: Tally, planId: PlanId, tokens: int, hours: int, now: nat)
    requires WellKept(a) && Balanced(a, t)
    ensures var r := StartDurationPack(a, planId, tokens, hours, now);
            r.Ok? ==> WellKept(r.value) && Balanced(r.value, t)
                      && r.value.ledger == a.ledger + [GrantEntry(a, tokens, |a.subs|)]
  {
    var r := StartDurationPack(a, planId, tokens, hours, now);
    if r.Ok? {
      GrantBalances(a, r.value, t, a.subs, NewPack(planId, tokens, hours, now));
    }
  }

  lemma CreditBalances(a: Account, t: Tally, tokens: int, source: Source, reference: Reference, kind: Kind)
    requires WellKept(a) && Balanced(a, t)
    requires source in {FromPaymentSource, FromAdmin, FromPayg}
    ensures var r := Credit(a, tokens, source, reference, kind);
            r.Ok? ==> WellKept(r.value) && Balanced(r.value, t)
  {
    var r := Credit(a, tokens, source, reference, kind);
    if r.Ok? && !HasKey(a.ledger, source, reference) {
      var e := Entry(kind, source, tokens, reference, a.tokens + tokens, Tokens, 0, 0);
      RecordAppends(a.ledger, e);
      AppendKeepsBooks(a, r.value, e);
    }
  }

  // ---- Settlements ----

  lemma StampKeepsKeys(ledger: seq<Entry>, source: Source, reference: Reference, cents: nat)
    requires source != FromUsage
    ensures var r := StampCents(ledger, source, reference, cents);
            && (UniqueKeys(ledger) ==> UniqueKeys(r))
            && (ShortfallsFollowDebits(ledger) ==> ShortfallsFollowDebits(r))
  {
    var r := StampCents(ledger, source, reference, cents);
    if ShortfallsFollowDebits(ledger) {
      forall i | 0 <= i < |r| && r[i].source == FromUsage && r[i].reference.Unfunded?
        ensures HasKey(r, FromUsage, Plain(r[i].reference.id))
      {
        assert r[i] == ledger[i];
        KeysStayStamp(ledger, source, reference, cents, FromUsage, Plain(r[i].reference.id));
      }
    }
  }

  /** Stamping the cents of a token row moves no total. */
  lemma StampKeepsTotals(ledger: seq<Entry>, source: Source, reference: Reference, cents: nat)
    requires source != FromUsage
    requires forall i :: 0 <= i < |ledger| && ledger[i].source == source && ledger[i].reference == reference ==>
               ledger[i].currency == Tokens
    ensures var r := StampCents(ledger, source, reference, cents);
            && Total(r, FundedPart) == Total(ledger, FundedPart)
            && Total(r, GrantedCents) == Total(ledger, GrantedCents)
            && Total(r, SpentCents) == Total(ledger, SpentCents)
  {
    var r := StampCents(ledger, source, reference, cents);
    TotalSame(ledger, r, FundedPart);
    TotalSame(ledger, r, GrantedCents);
    TotalSame(ledger, r, SpentCents);
  }

  lemma StampKeepsBooks(a: Account, t: Tally, source: Source, reference: Reference, cents: nat)
    requires WellKept(a) && Balanced(a, t) && source != FromUsage
    requires forall i :: 0 <= i < |a.ledger| && a.ledger[i].source == source && a.ledger[i].reference == reference ==>
               a.ledger[i].currency == Tokens
    ensures var b := a.(ledger := StampCents(a.ledger, source, reference, cents));
            WellKept(b) && Balanced(b, t)
  {
    StampKeepsKeys(a.ledger, source, reference, cents);
    StampKeepsTotals(a.ledger, source, reference, cents);
  }

  /** Giving the new row its model group moves nothing. */
  lemma GroupedBalances(b: Account, t: Tally, c: Account, id: nat, group: Option<nat>)
    requires WellKept(b) && Balanced(b, t) && id < |b.subs|
    requires c == b.(subs := b.subs[id := b.subs[id].(modelGroupId := group)])
    ensures WellKept(c) && Balanced(c, t)
  {
    TotalUpdate(b.subs, id, c.subs[id], Unspent);
  }

  lemma MarkBalances(c: Account, t: Tally, paymentId: nat)
    requires WellKept(c) && Balanced(c, t) && !HasKey(c.ledger, FromPaymentSource, Plain(paymentId))
    ensures var d := c.(ledger := Record(c.ledger, PaymentMark(c, paymentId, Tokens, 0)));
            WellKept(d) && Balanced(d, t)
  {
    var e := PaymentMark(c, paymentId, Tokens, 0);
    RecordAppends(c.ledger, e);
    AppendKeepsBooks(c, c.(ledger := c.ledger + [e]), e);
  }

  lemma SettleRollingBalances(a: Account, t: Tally, paymentId: nat, s: Snapshot, now: nat)
    requires WellKept(a) && Balanced(a, t)
    requires !HasKey(a.ledger, FromPaymentSource, Plain(paymentId))
    ensures var r := SettleRolling(a, paymentId, s, now);
            r.Ok? ==> WellKept(r.value.account) && Balanced(r.value.account, t)
  {
    var r := SettleRolling(a, paymentId, s, now);
    if r.Ok? {
      StartBalances(a, t, s.planId.value, now, 30);
      var b := StartSubscription(a, s.planId.value, now, 30).value;
      var id := |a.subs|;
      HasKeyAppend(a.ledger, GrantEntry(a, a.plans[s.planId.value].includedTokens, id), FromPaymentSource,
                   Plain(paymentId));
      var c := if s.modelGroupId.Some? then b.(subs := b.subs[id := b.subs[id].(modelGroupId := s.modelGroupId.value)])
               else b;
      if s.modelGroupId.Some? {
        GroupedBalances(b, t, c, id, s.modelGroupId.value);
      }
      MarkBalances(c, t, paymentId);
    }
  }

  lemma SettlePackBalances(a: Account, t: Tally, paymentId: nat, s: Snapshot, tokens: int, cents: int, now: nat)
    requires WellKept(a) && Balanced(a, t)
    requires !HasKey(a.ledger, FromPaymentSource, Plain(paymentId))
    ensures var r := SettlePack(a, paymentId, s, tokens, cents, now);
            r.Ok? ==> WellKept(r.value.account) && Balanced(r.value.account, t)
  {
    var r := SettlePack(a, paymentId, s, tokens, cents, now);
    var equivalent := OrElse(s.amountCents, cents);
    if r.Ok? && s.durationHours.Some? {
      StartPackBalances(a, t, s.planId.value, tokens, s.durationHours.value, now);
      var b := StartDurationPack(a, s.planId.value, tokens, s.durationHours.value, now).value;
      FreshGrant(a);
      StampKeepsBooks(b, t, FromSubscription, Plain(|a.subs|), equivalent);
    } else if r.Ok? {
      CreditBalances(a, t, tokens, FromPaymentSource, Plain(paymentId), Purchase);
      var b := Credit(a, tokens, FromPaymentSource, Plain(paymentId), Purchase).value;
      StampKeepsBooks(b, t, FromPaymentSource, Plain(paymentId), equivalent);
    }
  }

  lemma SettleMoneyBalances(a: Account, t: Tally, paymentId: nat, cents: int)
    requires WellKept(a) && Balanced(a, t)
    requires !HasKey(a.ledger, FromPaymentSource, Plain(paymentId))
    ensures var r := SettleMoney(a, paymentId, cents);
            r.Ok? ==> WellKept(r.value.account) && Balanced(r.value.account, t)
  {
    var r := SettleMoney(a, paymentId, cents);
    if r.Ok? {
      var b := a.(cents := a.cents + cents);
      var e := PaymentMark(b, paymentId, Cents, cents);
      RecordAppends(b.ledger, e);
      AppendKeepsBooks(b, r.value.account, e);
    }
  }

  lemma SettleBalances(a: Account, t: Tally, paymentId: nat, inScope: bool, s: Snapshot, now: nat)
    requires WellKept(a) && Balanced(a, t)
    ensures var r := SettlePaymentSnapshot(a, paymentId, inScope, s, now);
            r.Ok? ==> WellKept(r.value.account) && Balanced(r.value.account, t)
  {
    if !HasKey(a.ledger, FromPaymentSource, Plain(paymentId)) {
      SettleRollingBalances(a, t, paymentId, s, now);
      SettlePackBalances(a, t, paymentId, s, OrElse(s.tokens, 0), OrElse(s.balanceCents, 0), now);
      SettleMoneyBalances(a, t, paymentId, OrElse(s.balanceCents, 0));
    }
  }

  lemma RollingPays(a: Account, paymentId: nat, s: Snapshot, now: nat)
    requires SettleRolling(a, paymentId, s, now).Ok?
    ensures s.planId.Some? && s.planId.value in a.plans
    ensures var b := SettleRolling(a, paymentId, s, now).value.account;
            Holdings(b) == Holdings(a) + a.plans[s.planId.value].includedTokens && b.cents == a.cents
  {
    var plan := a.plans[s.planId.value];
    CancelKeepsHoldings(a.subs, (s: Subscription) => true);
    CancelKeepsHoldings(a.subs, (s: Subscription) => s.purchaseMethod == Some(RollingTime));
    var sub := NewSubscription(plan, s.planId.value, now, 30);
    TotalAppend(Replaced(plan, a.subs), sub, Unspent);
    TotalSame(Replaced(plan, a.subs) + [sub], SettleRolling(a, paymentId, s, now).value.account.subs, Unspent);
  }

  lemma PackPays(a: Account, paymentId: nat, s: Snapshot, tokens: int, cents: int, now: nat)
    requires !HasKey(a.ledger, FromPaymentSource, Plain(paymentId))
    requires SettlePack(a, paymentId, s, tokens, cents, now).Ok?
    ensures var b := SettlePack(a, paymentId, s, tokens, cents, now).value.account;
            Holdings(b) == Holdings(a) + tokens && b.cents == a.cents
  {
    if s.durationHours.Some? {
      TotalAppend(a.subs, NewPack(s.planId.value, tokens, s.durationHours.value, now), Unspent);
    }
  }

  /**
   * A payment settled for the first time is worth exactly its terms: a rolling pass its plan's
   * allowance, a pack its tokens whether they expire or not, anything else its cents.
   */
  lemma SettlementPays(a: Account, paymentId: nat, s: Snapshot, now: nat)
    requires !HasKey(a.ledger, FromPaymentSource, Plain(paymentId))
    requires s.purchaseMethod.Some? && SettlePaymentSnapshot(a, paymentId, true, s, now).Ok?
    ensures var b := SettlePaymentSnapshot(a, paymentId, true, s, now).value.account;
            match s.purchaseMethod.value
            case RollingTime =>
              && s.planId.Some? && s.planId.value in a.plans
              && Holdings(b) == Holdings(a) + a.plans[s.planId.value].includedTokens && b.cents == a.cents
            case TokenPack => Holdings(b) == Holdings(a) + OrElse(s.tokens, 0) && b.cents == a.cents
            case _ => Holdings(b) == Holdings(a) && b.cents == a.cents + OrElse(s.balanceCents, 0)
  {
    if s.purchaseMethod.value == RollingTime {
      RollingPays(a, paymentId, s, now);
    } else if s.purchaseMethod.value == TokenPack {
      PackPays(a, paymentId, s, OrElse(s.tokens, 0), OrElse(s.balanceCents, 0), now);
    }
  }

  // ---- Charges ----

  lemma {:induction false} DrainMovesUnspent(subs: seq<Subscription>, order: seq<nat>, want: nat, now: nat)
    requires InRange(subs, order) && UsedWithinIncluded(subs)
    ensures var r := DrainPacks(subs, order, want, now);
            Total(r.subs, Unspent) == Total(subs, Unspent) - r.taken && UsedWithinIncluded(r.subs)
    decreases |order|
  {
    if order != [] && want > 0 {
      var (s, taken) := DrawOne(subs[order[0]], want, now);
      TotalUpdate(subs, order[0], s, Unspent);
      DrainMovesUnspent(subs[order[0] := s], order[1..], want - taken, now);
    }
  }

  lemma RollingMovesUnspent(subs: seq<Subscription>, want: nat, now: nat)
    requires UsedWithinIncluded(subs)
    ensures var r := DrainRolling(subs, want, now);
            Total(r.subs, Unspent) == Total(subs, Unspent) - r.taken && UsedWithinIncluded(r.subs)
  {
    var rolling := FirstRolling(subs, 0);
    if rolling.Some? {
      var (s, taken) := DrawOne(subs[rolling.value], want, now);
      TotalUpdate(subs, rolling.value, s, Unspent);
    }
  }

  lemma WaterfallMovesUnspent(a: Account, units: nat, now: nat)
    requires UsedWithinIncluded(a.subs)
    ensures var f := Waterfall(a, units, now);
            Total(f.subs, Unspent) == Total(a.subs, Unspent) - f.rolling - f.packs && UsedWithinIncluded(f.subs)
  {
    var r, want, p, open, f := Legs(a, units, now);
    RollingMovesUnspent(a.subs, units, now);
    DrainMovesUnspent(r.subs, PackOrder(r.subs, |r.subs|), want, now);
  }

  lemma {:induction false} MarkAllKeepsUse(subs: seq<Subscription>, ids: seq<nat>)
    requires InRange(subs, ids)
    ensures var r := MarkAll(subs, ids);
            forall i :: 0 <= i < |subs| ==> r[i] == subs[i].(status := r[i].status)
    decreases |ids|
  {
    if ids != [] {
      MarkAllKeepsUse(subs[ids[0] := MarkPastDue(subs[ids[0]])], ids[1..]);
    }
  }

  lemma MarkKeepsUse(subs: seq<Subscription>, spent: seq<nat>)
    requires InRange(subs, spent)
    ensures var r := MarkShortfall(subs, spent);
            && Total(r, Unspent) == Total(subs, Unspent)
            && (UsedWithinIncluded(subs) ==> UsedWithinIncluded(r))
  {
    MarkAllKeepsUse(subs, spent);
    TotalSame(subs, MarkShortfall(subs, spent), Unspent);
  }

  /** The ledger rows of a charge funded as in `f`. */
  function FundingRows(a: Account, units: nat, id: nat, f: Funding): seq<Entry>
    requires f.wallet <= a.tokens && f.spentCents <= a.cents
  {
    [DebitEntry(id, units, f, a.tokens - f.wallet, a.cents - f.spentCents)]
    + if f.unfunded > 0 then [ShortfallEntry(id, f, a.tokens - f.wallet, a.cents - f.spentCents)] else []
  }

  /** The ledger rows one new charge leaves. */
  function ChargeRows(a: Account, units: nat, id: nat, now: nat): seq<Entry> {
    if units == 0 then [Entry(Debit, FromUsage, 0, Plain(id), a.tokens, Tokens, 0, 0)]
    else FundingRows(a, units, id, Waterfall(a, units, now))
  }

  /** One debit, and possibly its shortfall. */
  ghost predicate IsCharge(rows: seq<Entry>, id: nat) {
    && 1 <= |rows| <= 2
    && rows[0].source == FromUsage && rows[0].reference == Plain(id)
    && (|rows| == 2 ==> rows[1].source == FromUsage && rows[1].reference == Unfunded(id))
  }

  lemma ChargeRowsShape(a: Account, units: nat, id: nat, now: nat)
    ensures IsCharge(ChargeRows(a, units, id, now), id)
  {
  }

  lemma NoShortfallYet(ledger: seq<Entry>, id: nat)
    requires ShortfallsFollowDebits(ledger) && !HasKey(ledger, FromUsage, Plain(id))
    ensures !HasKey(ledger, FromUsage, Unfunded(id))
  {
  }

  lemma AppendCharge(ledger: seq<Entry>, rows: seq<Entry>, id: nat)
    requires ShortfallsFollowDebits(ledger) && !HasKey(ledger, FromUsage, Plain(id)) && IsCharge(rows, id)
    ensures UniqueKeys(ledger) ==> UniqueKeys(ledger + rows)
    ensures ShortfallsFollowDebits(ledger + rows) && HasKey(ledger + rows, FromUsage, Plain(id))
  {
    var l := ledger + [rows[0]];
    RecordAppends(ledger, rows[0]);
    ShortfallsAppend(ledger, rows[0]);
    HasKeyAppend(ledger, rows[0], FromUsage, Plain(id));
    if |rows| == 2 {
      NoShortfallYet(ledger, id);
      HasKeyAppend(ledger, rows[0], FromUsage, Unfunded(id));
      RecordAppends(l, rows[1]);
      ShortfallsAppend(l, rows[1]);
      HasKeyAppend(l, rows[1], FromUsage, Plain(id));
      assert ledger + rows == l + [rows[1]];
    } else {
      assert ledger + rows == l;
    }
  }

  /** A charge adds its own key and no other. */
  lemma ChargeKeys(ledger: seq<Entry>, rows: seq<Entry>, id: nat, other: nat)
    requires IsCharge(rows, id)
    ensures HasKey(ledger + rows, FromUsage, Plain(other)) <==> HasKey(ledger, FromUsage, Plain(other)) || other == id
  {
    HasKeyAppend(ledger, rows[0], FromUsage, Plain(other));
    if |rows| == 2 {
      HasKeyAppend(ledger + [rows[0]], rows[1], FromUsage, Plain(other));
      assert ledger + rows == ledger + [rows[0]] + [rows[1]];
    } else {
      assert ledger + rows == ledger + [rows[0]];
    }
  }

  lemma RecordBoth(ledger: seq<Entry>, d: Entry, e: Entry)
    requires !HasKey(ledger, d.source, d.reference) && !HasKey(ledger, e.source, e.reference)
             && d.reference != e.reference
    ensures Record(ledger, d) == ledger + [d] && Record(Record(ledger, d), e) == ledger + [d, e]
  {
    HasKeyAppend(ledger, d, e.source, e.reference);
    assert ledger + [d] + [e] == ledger + [d, e];
  }

  /** Both rows are inserted: neither key is taken. */
  lemma RowsInserted(a: Account, units: nat, id: nat, now: nat)
    requires !HasKey(a.ledger, FromUsage, Plain(id)) && !HasKey(a.ledger, FromUsage, Unfunded(id))
    ensures ApplyUsage(a, units, id, now).ledger == a.ledger + ChargeRows(a, units, id, now)
  {
    if units > 0 {
      FundingInserted(a, units, id, Waterfall(a, units, now));
    }
  }

  lemma FundingInserted(a: Account, units: nat, id: nat, f: Funding)
    requires !HasKey(a.ledger, FromUsage, Plain(id)) && !HasKey(a.ledger, FromUsage, Unfunded(id))
    requires f.wallet <= a.tokens && f.spentCents <= a.cents && InRange(f.subs, f.spent)
    ensures Recorded(Deducted(a, f), units, id, f).ledger == a.ledger + FundingRows(a, units, id, f)
  {
    var tokens, cents := a.tokens - f.wallet, a.cents - f.spentCents;
    RecordBoth(a.ledger, DebitEntry(id, units, f, tokens, cents), ShortfallEntry(id, f, tokens, cents));
  }

  lemma ChargeLedger(a: Account, units: nat, id: nat, now: nat)
    requires ShortfallsFollowDebits(a.ledger) && !HasKey(a.ledger, FromUsage, Plain(id))
    ensures ApplyUsage(a, units, id, now).ledger == a.ledger + ChargeRows(a, units, id, now)
    ensures UniqueKeys(a.ledger) ==> UniqueKeys(ApplyUsage(a, units, id, now).ledger)
    ensures ShortfallsFollowDebits(ApplyUsage(a, units, id, now).ledger)
    ensures HasKey(ApplyUsage(a, units, id, now).ledger, FromUsage, Plain(id))
  {
    NoShortfallYet(a.ledger, id);
    RowsInserted(a, units, id, now);
    ChargeRowsShape(a, units, id, now);
    AppendCharge(a.ledger, ChargeRows(a, units, id, now), id);
  }

  lemma FundingTotals(a: Account, units: nat, id: nat, f: Funding)
    requires f.wallet <= a.tokens && f.spentCents <= a.cents
    ensures var l := a.ledger + FundingRows(a, units, id, f);
            && Total(l, FundedPart) == Total(a.ledger, FundedPart) - (units - f.unfunded)
            && Total(l, GrantedCents) == Total(a.ledger, GrantedCents)
            && Total(l, SpentCents) == Total(a.ledger, SpentCents) + f.spentCents
  {
    var rows := FundingRows(a, units, id, f);
    TotalAppendRows(a.ledger, rows, FundedPart);
    TotalAppendRows(a.ledger, rows, GrantedCents);
    TotalAppendRows(a.ledger, rows, SpentCents);
  }

  lemma ZeroRowTotals(ledger: seq<Entry>, e: Entry)
    requires e.source == FromUsage && e.reference.Plain? && e.tokens == 0 && e.cents == 0
    ensures var l := ledger + [e];
            && Total(l, FundedPart) == Total(ledger, FundedPart)
            && Total(l, GrantedCents) == Total(ledger, GrantedCents)
            && Total(l, SpentCents) == Total(ledger, SpentCents)
  {
    TotalAppend(ledger, e, FundedPart);
    TotalAppend(ledger, e, GrantedCents);
    TotalAppend(ledger, e, SpentCents);
  }

  lemma ChargeTotals(a: Account, units: nat, id: nat, now: nat)
    ensures var rows := ChargeRows(a, units, id, now);
            var l := a.ledger + rows;
            var f := Waterfall(a, units, now);
            && Total(l, FundedPart) == Total(a.ledger, FundedPart) - (units - f.unfunded)
            && Total(l, GrantedCents) == Total(a.ledger, GrantedCents)
            && Total(l, SpentCents) == Total(a.ledger, SpentCents) + f.spentCents
  {
    if units == 0 {
      ZeroCharge(a, now);
      ZeroRowTotals(a.ledger, Entry(Debit, FromUsage, 0, Plain(id), a.tokens, Tokens, 0, 0));
    } else {
      FundingTotals(a, units, id, Waterfall(a, units, now));
    }
  }

  lemma ChargeHoldings(a: Account, units: nat, id: nat, now: nat)
    requires !HasKey(a.ledger, FromUsage, Plain(id)) && UsedWithinIncluded(a.subs)
    ensures var b := ApplyUsage(a, units, id, now);
            var f := Waterfall(a, units, now);
            && UsedWithinIncluded(b.subs) && |b.subs| == |a.subs|
            && (units > 0 ==> && Holdings(b) == Holdings(a) - f.rolling - f.packs - f.wallet
                              && b.cents == a.cents - f.spentCents)
            && (units == 0 ==> Holdings(b) == Holdings(a) && b.cents == a.cents)
  {
    if units > 0 {
      var f := Waterfall(a, units, now);
      WaterfallMovesUnspent(a, units, now);
      MarkKeepsUse(f.subs, f.spent);
    }
  }

  lemma ZeroCharge(a: Account, now: nat)
    ensures var f := Waterfall(a, 0, now); f.unfunded == 0 && f.spentCents == 0 && f.covered == 0
  {
    LegsInOrder(a, 0, now);
  }

  /** `b` is `a` after one new charge, as far as the books can tell. */
  ghost predicate Charged(a: Account, b: Account, units: nat, id: nat, now: nat) {
    var f := Waterfall(a, units, now);
    && b.ledger == a.ledger + ChargeRows(a, units, id, now)
    && |b.subs| == |a.subs| && UsedWithinIncluded(b.subs)
    && Holdings(b) == Holdings(a) - f.rolling - f.packs - f.wallet
    && b.cents == a.cents - f.spentCents
  }

  lemma ChargeIsCharged(a: Account, units: nat, id: nat, now: nat)
    requires ShortfallsFollowDebits(a.ledger) && UsedWithinIncluded(a.subs) && !HasKey(a.ledger, FromUsage, Plain(id))
    ensures Charged(a, ApplyUsage(a, units, id, now), units, id, now)
  {
    ChargeLedger(a, units, id, now);
    ChargeHoldings(a, units, id, now);
    if units == 0 {
      ZeroCharge(a, now);
      LegsInOrder(a, 0, now);
    }
  }

  lemma ChargeAppended(a: Account, b: Account, rows: seq<Entry>, id: nat)
    requires WellKept(a) && !HasKey(a.ledger, FromUsage, Plain(id)) && IsCharge(rows, id)
    requires b.ledger == a.ledger + rows && |b.subs| == |a.subs| && UsedWithinIncluded(b.subs)
    ensures WellKept(b)
  {
    AppendCharge(a.ledger, rows, id);
    assert forall i :: 0 <= i < |rows| ==> rows[i].source == FromUsage;
  }

  lemma LegsAddUp(a: Account, units: nat, now: nat)
    ensures var f := Waterfall(a, units, now);
            f.rolling + f.packs + f.wallet + f.covered + f.unfunded == units
  {
    LegsInOrder(a, units, now);
  }

  lemma FundingBalances(a: Account, b: Account, t: Tally, units: nat, f: Funding)
    requires Balanced(a, t) && f.rolling + f.packs + f.wallet + f.covered + f.unfunded == units
    requires Holdings(b) == Holdings(a) - f.rolling - f.packs - f.wallet && b.cents == a.cents - f.spentCents
    requires Total(b.ledger, FundedPart) == Total(a.ledger, FundedPart) - (units - f.unfunded)
    requires Total(b.ledger, GrantedCents) == Total(a.ledger, GrantedCents)
    requires Total(b.ledger, SpentCents) == Total(a.ledger, SpentCents) + f.spentCents
    ensures Balanced(b, t.(paidByCents := t.paidByCents + f.covered))
  {
  }

  lemma ChargedBalances(a: Account, b: Account, t: Tally, u: Tally, units: nat, id: nat, now: nat)
    requires Balanced(a, t) && Charged(a, b, units, id, now)
    requires u == t.(paidByCents := t.paidByCents + Waterfall(a, units, now).covered)
    ensures Balanced(b, u)
  {
    ChargeTotals(a, units, id, now);
    LegsAddUp(a, units, now);
    FundingBalances(a, b, t, units, Waterfall(a, units, now));
  }

  lemma UsageTally(t: Tally, a: Account, units: nat, id: nat, now: nat)
    requires !HasKey(a.ledger, FromUsage, Plain(id))
    ensures TallyStep(t, a, Usage(units, id, now))
            == t.(paidByCents := t.paidByCents + Waterfall(a, units, now).covered)
  {
  }

  lemma UsageKeeps(a: Account, units: nat, id: nat, now: nat)
    requires WellKept(a)
    ensures WellKept(ApplyUsage(a, units, id, now))
  {
    if !HasKey(a.ledger, FromUsage, Plain(id)) {
      ChargeIsCharged(a, units, id, now);
      ChargeRowsShape(a, units, id, now);
      ChargeAppended(a, ApplyUsage(a, units, id, now), ChargeRows(a, units, id, now), id);
    }
  }

  lemma UsageBalances(a: Account, t: Tally, units: nat, id: nat, now: nat)
    requires WellKept(a) && Balanced(a, t)
    ensures Balanced(ApplyUsage(a, units, id, now), TallyStep(t, a, Usage(units, id, now)))
  {
    if !HasKey(a.ledger, FromUsage, Plain(id)) {
      UsageTally(t, a, units, id, now);
      ChargeIsCharged(a, units, id, now);
      ChargedBalances(a, ApplyUsage(a, units, id, now), t, TallyStep(t, a, Usage(units, id, now)), units, id, now);
    }
  }

  // ---- The other operations ----

  lemma RowUpdateBalances(a: Account, t: Tally, id: nat, s: Subscription, restored: nat)
    requires WellKept(a) && Balanced(a, t) && id < |a.subs|
    requires s.included == a.subs[id].included && s.used == a.subs[id].used - restored
    ensures var b := a.(subs := a.subs[id := s]);
            WellKept(b) && Balanced(b, t.(restored := t.restored + restored))
  {
    TotalUpdate(a.subs, id, s, Unspent);
  }

  lemma PurchaseBalances(a: Account, t: Tally, op: Op)
    requires WellKept(a) && Balanced(a, t) && (op.UpsertPlan? || op.Start? || op.StartPack? || op.Cancel?)
    ensures WellKept(Step(a, op)) && Balanced(Step(a, op), t)
  {
    match op
    case UpsertPlan(_, _) =>
    case Start(id, now, days) => StartBalances(a, t, id, now, days);
    case StartPack(id, tokens, hours, now) => StartPackBalances(a, t, id, tokens, hours, now);
    case Cancel => CancelKeepsHoldings(a.subs, (s: Subscription) => true);
  }

  lemma TimerBalances(a: Account, t: Tally, op: Op)
    requires WellKept(a) && Balanced(a, t) && (op.FirstUse? || op.Reset?)
    ensures WellKept(Step(a, op)) && Balanced(Step(a, op), TallyStep(t, a, op))
  {
    match op
    case FirstUse(id, now) =>
      if id < |a.subs| {
        RowUpdateBalances(a, t, id, Activated(a.subs[id], now), 0);
      }
    case Reset(id, now) =>
      if ResetSubscription(a, id, now).Ok? {
        RowUpdateBalances(a, t, id, Restarted(a.subs[id], now), a.subs[id].used);
      }
  }

  lemma MoneyBalances(a: Account, t: Tally, op: Op)
    requires WellKept(a) && Balanced(a, t) && Admissible(op) && (op.Deposit? || op.Settle?)
    ensures WellKept(Step(a, op)) && Balanced(Step(a, op), t)
  {
    match op
    case Deposit(tokens, source, reference, kind) => CreditBalances(a, t, tokens, source, reference, kind);
    case Settle(p, scope, s, now) => SettleBalances(a, t, p, scope, s, now);
  }

  lemma StepKept(a: Account, t: Tally, op: Op)
    requires WellKept(a) && Balanced(a, t) && Admissible(op)
    ensures WellKept(Step(a, op))
  {
    match op
    case Usage(units, id, now) => UsageKeeps(a, units, id, now);
    case Deposit(_, _, _, _) => MoneyBalances(a, t, op);
    case Settle(_, _, _, _) => MoneyBalances(a, t, op);
    case FirstUse(_, _) => TimerBalances(a, t, op);
    case Reset(_, _) => TimerBalances(a, t, op);
    case _ => PurchaseBalances(a, t, op);
  }

  lemma StepBalanced(a: Account, t: Tally, op: Op)
    requires WellKept(a) && Balanced(a, t) && Admissible(op)
    ensures Balanced(Step(a, op), TallyStep(t, a, op))
  {
    match op
    case Usage(units, id, now) => UsageBalances(a, t, units, id, now);
    case Deposit(_, _, _, _) => MoneyBalances(a, t, op);
    case Settle(_, _, _, _) => MoneyBalances(a, t, op);
    case FirstUse(_, _) => TimerBalances(a, t, op);
    case Reset(_, _) => TimerBalances(a, t, op);
    case _ => PurchaseBalances(a, t, op);
  }

  lemma StepBalances(a: Account, t: Tally, op: Op)
    requires WellKept(a) && Balanced(a, t) && Admissible(op)
    ensures WellKept(Step(a, op)) && Balanced(Step(a, op), TallyStep(t, a, op))
  {
    StepKept(a, t, op);
    StepBalanced(a, t, op);
  }

  /**
   * Over every run: wallet tokens plus what subscriptions still hold equal the ledger's tokens
   * (shortfalls aside) plus usage paid with cents plus allowances restored by resets; wallet cents
   * equal cents granted minus cents spent; no row is used beyond what it includes.
   */
  lemma {:induction false} BooksBalance(a: Account, t: Tally, ops: seq<Op>)
    requires WellKept(a) && Balanced(a, t)
    requires forall i :: 0 <= i < |ops| ==> Admissible(ops[i])
    ensures WellKept(Run(a, ops)) && Balanced(Run(a, ops), RunTally(t, a, ops))
  {
    if ops != [] {
      var prefix := ops[..|ops| - 1];
      BooksBalance(a, t, prefix);
      StepBalances(Run(a, prefix), RunTally(t, a, prefix), ops[|ops| - 1]);
    }
  }

  /** A usage id is charged at most once, whatever runs in between. */
  lemma {:induction false} ChargedOnce(a: Account, ops: seq<Op>, units: nat, id: nat, now: nat)
    requires WellKept(a) && HasKey(a.ledger, FromUsage, Plain(id))
    requires forall i :: 0 <= i < |ops| ==> Admissible(ops[i])
    ensures var b := Run(a, ops);
            HasKey(b.ledger, FromUsage, Plain(id)) && ApplyUsage(b, units, id, now) == b
  {
    if ops != [] {
      ChargedOnce(a, ops[..|ops| - 1], units, id, now);
      KeysStay(Run(a, ops[..|ops| - 1]), ops[|ops| - 1], FromUsage, Plain(id));
    }
  }

  lemma KeysStayRecord(ledger: seq<Entry>, e: Entry, source: Source, reference: Reference)
    requires HasKey(ledger, source, reference)
    ensures HasKey(Record(ledger, e), source, reference)
  {
    HasKeyAppend(ledger, e, source, reference);
  }

  lemma KeysStayStamp(ledger: seq<Entry>, source: Source, reference: Reference, cents: nat, s: Source, r: Reference)
    requires HasKey(ledger, s, r)
    ensures HasKey(StampCents(ledger, source, reference, cents), s, r)
  {
    var i :| 0 <= i < |ledger| && ledger[i].source == s && ledger[i].reference == r;
    assert StampCents(ledger, source, reference, cents)[i].source == s;
  }

  /** No operation deletes a ledger row. */
  lemma KeysStay(a: Account, op: Op, source: Source, reference: Reference)
    requires HasKey(a.ledger, source, reference)
    ensures HasKey(Step(a, op).ledger, source, reference)
  {
    forall l: seq<Entry>, e | HasKey(l, source, reference) ensures HasKey(Record(l, e), source, reference) {
      KeysStayRecord(l, e, source, reference);
    }
    forall l: seq<Entry>, s, r, c | HasKey(l, source, reference)
      ensures HasKey(StampCents(l, s, r, c), source, reference)
    {
      KeysStayStamp(l, s, r, c, source, reference);
    }
  }

  // ---- The running balance ----

  /** The newest ledger row carries the wallet's balance. */
  ghost predicate Carries(ledger: seq<Entry>, tokens: nat) {
    ledger != [] ==> ledger[|ledger| - 1].balanceAfter == tokens
  }

  lemma RecordCarries(ledger: seq<Entry>, e: Entry)
    requires Carries(ledger, e.balanceAfter)
    ensures Carries(Record(ledger, e), e.balanceAfter)
  {
  }

  lemma NewRowCarries(ledger: seq<Entry>, e: Entry)
    requires !HasKey(ledger, e.source, e.reference)
    ensures Carries(Record(ledger, e), e.balanceAfter)
  {
  }

  lemma ChargeCarries(a: Account, units: nat, id: nat, now: nat)
    requires Carries(a.ledger, a.tokens)
    ensures Carries(ApplyUsage(a, units, id, now).ledger, ApplyUsage(a, units, id, now).tokens)
  {
    if !HasKey(a.ledger, FromUsage, Plain(id)) {
      if units == 0 {
        NewRowCarries(a.ledger, Entry(Debit, FromUsage, 0, Plain(id), a.tokens, Tokens, 0, 0));
      } else {
        RecordedCarries(Deducted(a, Waterfall(a, units, now)), units, id, Waterfall(a, units, now));
      }
    }
  }

  lemma RecordedCarries(a: Account, units: nat, id: nat, f: Funding)
    requires InRange(a.subs, f.spent) && !HasKey(a.ledger, FromUsage, Plain(id))
    ensures Carries(Recorded(a, units, id, f).ledger, Recorded(a, units, id, f).tokens)
  {
    var debit := DebitEntry(id, units, f, a.tokens, a.cents);
    NewRowCarries(a.ledger, debit);
    RecordCarries(Record(a.ledger, debit), ShortfallEntry(id, f, a.tokens, a.cents));
  }

  lemma RollingCarries(a: Account, p: nat, s: Snapshot, now: nat)
    requires Carries(a.ledger, a.tokens)
    ensures var r := SettleRolling(a, p, s, now); r.Ok? ==> Carries(r.value.account.ledger, r.value.account.tokens)
  {
  }

  lemma PackCarries(a: Account, p: nat, s: Snapshot, tokens: int, cents: int, now: nat)
    requires Carries(a.ledger, a.tokens)
    ensures var r := SettlePack(a, p, s, tokens, cents, now);
            r.Ok? ==> Carries(r.value.account.ledger, r.value.account.tokens)
  {
  }

  lemma MoneyCarries(a: Account, p: nat, cents: int)
    requires Carries(a.ledger, a.tokens)
    ensures var r := SettleMoney(a, p, cents); r.Ok? ==> Carries(r.value.account.ledger, r.value.account.tokens)
  {
  }

  lemma SettleCarries(a: Account, p: nat, scope: bool, s: Snapshot, now: nat)
    requires Carries(a.ledger, a.tokens)
    ensures var r := SettlePaymentSnapshot(a, p, scope, s, now);
            r.Ok? ==> Carries(r.value.account.ledger, r.value.account.tokens)
  {
    RollingCarries(a, p, s, now);
    PackCarries(a, p, s, OrElse(s.tokens, 0), OrElse(s.balanceCents, 0), now);
    MoneyCarries(a, p, OrElse(s.balanceCents, 0));
  }

  lemma StepCarries(a: Account, op: Op)
    requires Carries(a.ledger, a.tokens)
    ensures Carries(Step(a, op).ledger, Step(a, op).tokens)
  {
    match op
    case Usage(units, id, now) => ChargeCarries(a, units, id, now);
    case Settle(p, scope, s, now) => SettleCarries(a, p, scope, s, now);
    case _ =>
  }

  /** Over every run the balance on the newest ledger row is the wallet's balance. */
  lemma {:induction false} RunningBalance(a: Account, ops: seq<Op>)
    requires Carries(a.ledger, a.tokens)
    ensures Carries(Run(a, ops).ledger, Run(a, ops).tokens)
  {
    if ops != [] {
      RunningBalance(a, ops[..|ops| - 1]);
      StepCarries(Run(a, ops[..|ops| - 1]), ops[|ops| - 1]);
    }
  }

  /** A new account: any plans, nothing bought, nothing booked. */
  predicate Fresh(a: Account) { a.subs == [] && a.tokens == 0 && a.cents == 0 && a.ledger == [] }

  /** Every law of runs starts from it. */
  lemma FreshAccount(a: Account)
    requires Fresh(a)
    ensures WellKept(a) && Balanced(a, Tally(0, 0)) && Carries(a.ledger, a.tokens)
  {
  }
}
