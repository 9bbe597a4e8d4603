// The billing service for one account (src/billing/service.ts): the rows it updates in place, each
// operation proved to leave exactly what the corresponding function of Accounts.dfy says.

module BillingServices {
  import opened Base
  import opened Pricing
  import opened Accounts
  import opened Budget
  import Reconciliation
  import Charges

  datatype SettleResult = SettleResult(tokensGranted: nat, centsGranted: nat, subscription: Option<nat>)

  /** The whole drain is what the loop has done so far followed by the drain of the rest for what `remaining` asks. */
  ghost predicate Continues(result: Drawn, subs: seq<Subscription>, rest: seq<nat>, remaining: nat, taken: nat,
                            spent: seq<nat>, now: nat) {
    && InRange(subs, rest)
    && (var d := DrainPacks(subs, rest, remaining, now);
        result == Drawn(d.subs, taken + d.taken, spent + d.spent))
  }

  lemma LoopStep(result: Drawn, subs: seq<Subscription>, rest: seq<nat>, remaining: nat, taken: nat,
                 spent: seq<nat>, now: nat,
                 next: seq<Subscription>, t: nat, left: nat)
    requires rest != [] && remaining > 0 && Continues(result, subs, rest, remaining, taken, spent, now)
    requires (next, t) == (subs[rest[0] := DrawOne(subs[rest[0]], remaining, now).0],
                           DrawOne(subs[rest[0]], remaining, now).1)
    requires left == remaining - t
    ensures Continues(result, next, rest[1..], left, taken + t, spent + Spent(rest[0], t), now)
  {
    var d := DrainPacks(next, rest[1..], left, now);
    assert spent + (Spent(rest[0], t) + d.spent) == (spent + Spent(rest[0], t)) + d.spent;
  }

  lemma LoopEnd(result: Drawn, subs: seq<Subscription>, rest: seq<nat>, remaining: nat, taken: nat, spent: seq<nat>,
                now: nat)
    requires Continues(result, subs, rest, remaining, taken, spent, now) && (rest == [] || remaining == 0)
    ensures result == Drawn(subs, taken, spent)
  {
  }

  lemma DeductedIs(a: Account, b: Account, f: Funding)
    requires b.plans == a.plans && b.ledger == a.ledger && b.lastUsageAt == a.lastUsageAt && b.subs == f.subs
    requires b.tokens == a.tokens - f.wallet && b.cents == a.cents - f.spentCents
    ensures b == Deducted(a, f)
  {
  }

  class BillingService {
    var plans: map<PlanId, Plan>
    var subscriptions: seq<Subscription>
    var balanceTokens: nat
    var balanceCents: nat
    var ledgerEntries: seq<Entry>
    var lastUsageAt: nat

    /** The rows as one value. */
    ghost function Rows(): Account
      reads this
    {
      Account(plans, subscriptions, balanceTokens, balanceCents, ledgerEntries, lastUsageAt)
    }

    constructor (plans: map<PlanId, Plan>)
      ensures Rows() == Account(plans, [], 0, 0, [], 0)
    {
      this.plans := plans;
      subscriptions, ledgerEntries := [], [];
      balanceTokens, balanceCents, lastUsageAt := 0, 0, 0;
    }

    method RecordLedger(e: Entry)
      modifies this`ledgerEntries
      ensures ledgerEntries == Record(old(ledgerEntries), e)
    {
      if !HasKey(ledgerEntries, e.source, e.reference) {
        ledgerEntries := ledgerEntries + [e];
      }
    }

    method StartSubscriptionFor(planId: PlanId, now: nat, periodDays: nat) returns (r: Outcome<nat>)
      modifies this
      ensures match StartSubscription(old(Rows()), planId, now, periodDays)
              case Ok(a) => r == Ok(|old(subscriptions)|) && Rows() == a
              case Err(e) => r == Err(e) && Rows() == old(Rows())
    {
      if planId !in plans {
        return Err(PlanNotFound);
      }
      var plan := plans[planId];
      if !plan.active {
        return Err(PlanInactive);
      }
      var id := |subscriptions|;
      if plan.durationHours.None? {
        subscriptions := CancelWhere(subscriptions, (s: Subscription) => true);
      } else if plan.purchaseMethod == RollingTime {
        subscriptions := CancelWhere(subscriptions, (s: Subscription) => s.purchaseMethod == Some(RollingTime));
      }
      subscriptions := subscriptions + [NewSubscription(plan, planId, now, periodDays)];
      RecordLedger(Entry(Grant, FromSubscription, plan.includedTokens, Plain(id), balanceTokens, Tokens, 0, 0));
      return Ok(id);
    }

    method StartDurationPackFor(planId: PlanId, tokens: int, hours: int, now: nat) returns (r: Outcome<nat>)
      modifies this
      ensures match StartDurationPack(old(Rows()), planId, tokens, hours, now)
              case Ok(a) => r == Ok(|old(subscriptions)|) && Rows() == a
              case Err(e) => r == Err(e) && Rows() == old(Rows())
    {
      if planId !in plans {
        return Err(PlanNotFound);
      }
      if tokens <= 0 || tokens > MAX_SAFE_INTEGER {
        return Err(PackTokensInvalid);
      }
      if hours < 1 || hours > 8_760 {
        return Err(PackDurationInvalid);
      }
      var id := |subscriptions|;
      subscriptions := subscriptions + [NewPack(planId, tokens, hours, now)];
      RecordLedger(Entry(Grant, FromSubscription, tokens, Plain(id), balanceTokens, Tokens, 0, 0));
      return Ok(id);
    }

    method ActivateTimer(id: nat, now: nat)
      modifies this`subscriptions
      ensures Rows() == ActivateFirstUse(old(Rows()), id, now)
    {
      if id < |subscriptions| {
        var row := subscriptions[id];
        if row.timerBasis == Some(FromFirstUse) && row.activatedAt.None? && row.status == Active {
          var durationMs := if row.durationHours.Some? then row.durationHours.value * HOUR else 0;
          subscriptions := subscriptions[id := row.(activatedAt := Some(now), expiresAt := Some(now + durationMs))];
        }
      }
    }

    method ResetTimer(id: nat, now: nat) returns (r: Outcome<()>)
      modifies this`subscriptions
      ensures match ResetSubscription(old(Rows()), id, now)
              case Ok(a) => r == Ok(()) && Rows() == a
              case Err(e) => r == Err(e) && Rows() == old(Rows())
    {
      if id >= |subscriptions| || subscriptions[id].status != Active || subscriptions[id].resetsRemaining == 0 {
        return Err(ResetUnavailable);
      }
      subscriptions := subscriptions[id := Restarted(subscriptions[id], now)];
      return Ok(());
    }

    method CancelAll()
      modifies this`subscriptions
      ensures Rows() == CancelSubscription(old(Rows()))
      ensures |subscriptions| == |old(subscriptions)|
      ensures forall i :: 0 <= i < |subscriptions| ==>
                !Live(subscriptions[i]) && subscriptions[i] == old(subscriptions)[i].(status := Canceled)
    {
      var rows := subscriptions;
      subscriptions := seq(|rows|, i requires 0 <= i < |rows| =>
        if rows[i].status == Active || rows[i].status == PastDue then rows[i].(status := Canceled) else rows[i]);
      assert subscriptions == CancelWhere(rows, (s: Subscription) => true);
    }

    method CreditWallet(tokens: int, source: Source, reference: Reference, kind: Kind) returns (r: Outcome<nat>)
      modifies this`balanceTokens, this`ledgerEntries
      ensures match Credit(old(Rows()), tokens, source, reference, kind)
              case Ok(a) => r == Ok(a.tokens) && Rows() == a
              case Err(e) => r == Err(e) && Rows() == old(Rows())
    {
      if tokens <= 0 {
        return Err(CreditMustBePositive);
      }
      if HasKey(ledgerEntries, source, reference) {
        return Ok(balanceTokens);
      }
      balanceTokens := balanceTokens + tokens;
      RecordLedger(Entry(kind, source, tokens, reference, balanceTokens, Tokens, 0, 0));
      return Ok(balanceTokens);
    }

    /** One subscription's share of a charge, its timer started first if it is still pending. */
    method SpendFrom(id: nat, want: nat, now: nat) returns (taken: nat)
      requires id < |subscriptions|
      modifies this`subscriptions
      ensures var (s, t) := DrawOne(old(subscriptions)[id], want, now);
              subscriptions == old(subscriptions)[id := s] && taken == t
    {
      if Pending(subscriptions[id]) {
        ActivateTimer(id, now);
      }
      taken := 0;
      var live := subscriptions[id];
      if WindowActive(live, now) {
        taken := Min(Remaining(live), want);
        if taken > 0 {
          subscriptions := subscriptions[id := live.(used := live.used + taken)];
        }
      }
    }

    /** The rolling leg. */
    method SpendRolling(want: nat, now: nat) returns (rolled: Drawn)
      modifies this`subscriptions
      ensures rolled == DrainRolling(old(subscriptions), want, now) && subscriptions == rolled.subs
    {
      var taken, spent := 0, [];
      var rolling := FirstRolling(subscriptions, 0);
      if rolling.Some? {
        taken := SpendFrom(rolling.value, want, now);
        if taken > 0 {
          spent := [rolling.value];
        }
      }
      rolled := Drawn(subscriptions, taken, spent);
    }

    /** The pack loop. */
    method SpendPacks(order: seq<nat>, want: nat, now: nat) returns (taken: nat, spent: seq<nat>)
      requires InRange(subscriptions, order)
      modifies this`subscriptions
      ensures Drawn(subscriptions, taken, spent) == DrainPacks(old(subscriptions), order, want, now)
    {
      ghost var result := DrainPacks(subscriptions, order, want, now);
      taken, spent := 0, [];
      var remaining := want;
      var k := 0;
      assert order[0..] == order;
      while k < |order|
        invariant 0 <= k <= |order|
        invariant Continues(result, subscriptions, order[k..], remaining, taken, spent, now)
      {
        if remaining == 0 {
          break;
        }
        ghost var before, rest, due := subscriptions, order[k..], remaining;
        assert rest[0] == order[k] && rest[1..] == order[k + 1..];
        var t := SpendFrom(order[k], remaining, now);
        remaining := remaining - t;
        LoopStep(result, before, rest, due, taken, spent, now, subscriptions, t, remaining);
        taken := taken + t;
        spent := spent + Spent(order[k], t);
        k := k + 1;
      }
      LoopEnd(result, subscriptions, order[k..], remaining, taken, spent, now);
    }

    method PaygRatePlan() returns (rate: Option<Rate>)
      ensures rate == PaygRate(plans, subscriptions, 0)
      ensures rate.None? ==> Charges.NoneRated(plans, subscriptions)
      ensures rate.Some? ==> exists i: nat :: Charges.OldestRated(plans, subscriptions, i)
                                              && rate.value == plans[subscriptions[i].planId].overage
    {
      var k := 0;
      while k < |subscriptions|
        invariant 0 <= k <= |subscriptions|
        invariant forall j :: 0 <= j < k ==> !Charges.Rated(plans, subscriptions[j])
        invariant PaygRate(plans, subscriptions, 0) == PaygRate(plans, subscriptions, k)
      {
        var s := subscriptions[k];
        if Live(s) && s.planId in plans && plans[s.planId].overage.cents > 0 {
          assert Charges.OldestRated(plans, subscriptions, k);
          return Some(plans[s.planId].overage);
        }
        k := k + 1;
      }
      return None;
    }

    /** The cents leg of a charge. */
    method SpendCentsFor(open: nat) returns (spentCents: nat, covered: nat)
      modifies this`balanceCents
      ensures (spentCents, covered) == SpendCents(plans, subscriptions, old(balanceCents), open)
      ensures balanceCents == old(balanceCents) - spentCents
    {
      spentCents, covered := 0, 0;
      if open > 0 && balanceCents > 0 {
        var rate := PaygRatePlan();
        if rate.Some? {
          spentCents := Min(balanceCents, CentsForTokens(rate.value, open));
          if spentCents > 0 {
            covered := Min(TokensAt(rate.value, spentCents), open);
            balanceCents := balanceCents - spentCents;
          }
        }
      }
    }

    method MarkPastDueAll(ids: seq<nat>)
      requires InRange(subscriptions, ids)
      modifies this`subscriptions
      ensures subscriptions == MarkAll(old(subscriptions), ids)
    {
      ghost var start := subscriptions;
      for k := 0 to |ids|
        invariant InRange(start, ids[k..]) && |subscriptions| == |start|
        invariant MarkAll(start, ids) == MarkAll(subscriptions, ids[k..])
      {
        assert ids[k..][0] == ids[k] && ids[k..][1..] == ids[k + 1..];
        subscriptions := subscriptions[ids[k] := MarkPastDue(subscriptions[ids[k]])];
      }
    }

    method MarkShortfallOf(spent: seq<nat>)
      requires InRange(subscriptions, spent)
      modifies this`subscriptions
      ensures subscriptions == MarkShortfall(old(subscriptions), spent)
    {
      if spent != [] {
        MarkPastDueAll(spent);
      } else {
        var latest := NewestLive(subscriptions, |subscriptions|);
        if latest.Some? {
          subscriptions := subscriptions[latest.value := MarkPastDue(subscriptions[latest.value])];
        }
      }
    }

    /** The packs, by earliest expiry, for what the rolling pass left open. */
    method SpendAfterRolling(rolled: Drawn, units: nat, now: nat) returns (packed: Drawn)
      requires rolled.subs == subscriptions && rolled.taken <= units
      modifies this`subscriptions
      ensures packed == PacksAfter(rolled, units, now) && subscriptions == packed.subs
    {
      var remaining := units - rolled.taken;
      var taken, spent := SpendPacks(PackOrder(subscriptions, |subscriptions|), remaining, now);
      packed := Drawn(subscriptions, taken, spent);
    }

    /** The wallet leg, then the cents leg. */
    method SpendCash(units: nat, rolled: Drawn, packed: Drawn) returns (f: Funding)
      requires packed.subs == subscriptions && rolled.taken + packed.taken <= units
      modifies this`balanceTokens, this`balanceCents
      ensures f == WithCash(plans, old(balanceTokens), old(balanceCents), units, rolled, packed)
      ensures balanceTokens == old(balanceTokens) - f.wallet && balanceCents == old(balanceCents) - f.spentCents
    {
      var remaining := units - rolled.taken - packed.taken;
      var fromWallet := Min(balanceTokens, remaining);
      balanceTokens := balanceTokens - fromWallet;
      remaining := remaining - fromWallet;
      var spentCents, covered := SpendCentsFor(remaining);
      f := Funding(subscriptions, rolled.taken, packed.taken, fromWallet, spentCents, covered, remaining - covered,
                   rolled.spent + packed.spent);
    }

    /** The waterfall: rolling pass, packs by earliest expiry, wallet tokens, wallet cents. */
    method SpendWaterfall(units: nat, now: nat) returns (f: Funding)
      modifies this`subscriptions, this`balanceTokens, this`balanceCents
      ensures f == Waterfall(old(Rows()), units, now)
      ensures subscriptions == f.subs
      ensures balanceTokens == old(balanceTokens) - f.wallet && balanceCents == old(balanceCents) - f.spentCents
    {
      var rolled := SpendRolling(units, now);
      var packed := SpendAfterRolling(rolled, units, now);
      f := SpendCash(units, rolled, packed);
    }

    method ChargeUsage(units: nat, id: nat, now: nat)
      modifies this
      ensures Rows() == ApplyUsage(old(Rows()), units, id, now)
    {
      if HasKey(ledgerEntries, FromUsage, Plain(id)) {
        return;
      }
      if units == 0 {
        RecordLedger(Entry(Debit, FromUsage, 0, Plain(id), balanceTokens, Tokens, 0, 0));
        return;
      }
      ghost var before := Rows();
      var f := SpendWaterfall(units, now);
      DeductedIs(before, Rows(), f);
      RecordCharge(units, id, f);
    }

    /** The debit, and for a shortfall its own row and the past-due marks. */
    method RecordCharge(units: nat, id: nat, f: Funding)
      requires InRange(subscriptions, f.spent)
      modifies this`subscriptions, this`ledgerEntries
      ensures Rows() == Recorded(old(Rows()), units, id, f)
    {
      RecordLedger(DebitEntry(id, units, f, balanceTokens, balanceCents));
      if f.unfunded > 0 {
        RecordLedger(ShortfallEntry(id, f, balanceTokens, balanceCents));
        MarkShortfallOf(f.spent);
      }
    }

    /** Settled usage into the ledger, one batch, then the cursor. */
    method ReconcileUsage(usageEvents: seq<UsageRow>, tenant: nat, now: nat)
      modifies this
      ensures Rows() == Reconciliation.Reconcile(old(Rows()), usageEvents, tenant, now)
    {
      var rows := SelectBatch(usageEvents, tenant);
      if rows == [] {
        return;
      }
      ghost var start := Rows();
      var watermark := lastUsageAt;
      for i := 0 to |rows|
        invariant Rows() == Reconciliation.BillAll(start, rows[..i], now)
        invariant watermark == Reconciliation.Watermark(start.lastUsageAt, rows[..i])
      {
        assert rows[..i + 1][..i] == rows[..i];
        ChargeUsage(rows[i].units, rows[i].id, now);
        if rows[i].createdAt > watermark {
          watermark := rows[i].createdAt;
        }
      }
      assert rows[..|rows|] == rows;
      lastUsageAt := watermark;
    }

    /** The selection's rows: this method only reads. */
    method SelectBatch(usageEvents: seq<UsageRow>, tenant: nat) returns (batch: seq<UsageRow>)
      ensures batch == Reconciliation.Batch(usageEvents, tenant, Rows())
    {
      var a := Account(plans, subscriptions, balanceTokens, balanceCents, ledgerEntries, lastUsageAt);
      batch := Reconciliation.Batch(usageEvents, tenant, a);
    }

    /** The gate of the request path; `false` is the thrown `insufficient_tokens`. */
    method CheckFunded(usageEvents: seq<UsageRow>, tenant: nat, now: nat) returns (funded: bool)
      modifies this
      ensures Rows() == Reconciliation.Reconcile(old(Rows()), usageEvents, tenant, now)
      ensures funded == AssertFunded(Rows(), now)
    {
      ReconcileUsage(usageEvents, tenant, now);
      for k := 0 to |subscriptions|
        invariant forall i :: 0 <= i < k ==> !GateOpens(subscriptions[i], now)
      {
        var s := subscriptions[k];
        if Live(s) {
          if s.timerBasis == Some(FromFirstUse) && s.activatedAt.None? {
            return true;
          }
          if WindowActive(s, now) && Remaining(s) > 0 {
            return true;
          }
        }
      }
      return balanceTokens > 0 || balanceCents > 0;
    }

    method SettleRollingFor(paymentId: nat, s: Snapshot, now: nat) returns (r: Outcome<SettleResult>)
      modifies this
      ensures match SettleRolling(old(Rows()), paymentId, s, now)
              case Ok(x) => r == Ok(SettleResult(x.tokensGranted, x.centsGranted, x.subscription))
                            && Rows() == x.account
              case Err(e) => r == Err(e) && Rows() == old(Rows())
    {
      if s.planId.None? {
        return Err(PaymentPlanMissing);
      }
      var started := StartSubscriptionFor(s.planId.value, now, 30);
      if started.Err? {
        return Err(started.error);
      }
      var id := started.value;
      if s.modelGroupId.Some? {
        subscriptions := subscriptions[id := subscriptions[id].(modelGroupId := s.modelGroupId.value)];
      }
      RecordLedger(Entry(Grant, FromPaymentSource, 0, Plain(paymentId), balanceTokens, Tokens, 0, 0));
      return Ok(SettleResult(0, 0, Some(id)));
    }

    method SettlePackFor(paymentId: nat, s: Snapshot, tokens: int, cents: int, now: nat)
      returns (r: Outcome<SettleResult>)
      modifies this
      ensures match SettlePack(old(Rows()), paymentId, s, tokens, cents, now)
              case Ok(x) => r == Ok(SettleResult(x.tokensGranted, x.centsGranted, x.subscription))
                            && Rows() == x.account
              case Err(e) => r == Err(e) && Rows() == old(Rows())
    {
      if tokens <= 0 {
        return Err(PaymentTokensMissing);
      }
      var equivalent := OrElse(s.amountCents, cents);
      if equivalent < 0 {
        return Err(PaymentAmountInvalid);
      }
      if s.durationHours.Some? {
        var hours := s.durationHours.value;
        if hours <= 0 || hours > MAX_SAFE_INTEGER {
          return Err(PaymentAmountInvalid);
        }
        if s.planId.None? {
          return Err(PaymentPlanMissing);
        }
        var started := StartDurationPackFor(s.planId.value, tokens, hours, now);
        if started.Err? {
          return Err(started.error);
        }
        ledgerEntries := StampCents(ledgerEntries, FromSubscription, Plain(started.value), equivalent);
        return Ok(SettleResult(tokens, 0, Some(started.value)));
      }
      var credited := CreditWallet(tokens, FromPaymentSource, Plain(paymentId), Purchase);
      ledgerEntries := StampCents(ledgerEntries, FromPaymentSource, Plain(paymentId), equivalent);
      return Ok(SettleResult(tokens, 0, None));
    }

    method SettleMoneyFor(paymentId: nat, cents: int) returns (r: Outcome<SettleResult>)
      modifies this`balanceCents, this`ledgerEntries
      ensures match SettleMoney(old(Rows()), paymentId, cents)
              case Ok(x) => r == Ok(SettleResult(x.tokensGranted, x.centsGranted, x.subscription))
                            && Rows() == x.account
              case Err(e) => r == Err(e) && Rows() == old(Rows())
    {
      var rate := PaygRatePlan();
      if rate.None? {
        return Err(PaygRateMissing);
      }
      if cents <= 0 {
        return Err(PaymentCentsMissing);
      }
      balanceCents := balanceCents + cents;
      RecordLedger(Entry(Grant, FromPaymentSource, 0, Plain(paymentId), balanceTokens, Cents, cents, balanceCents));
      return Ok(SettleResult(0, cents, None));
    }

    /** Grants what a payment bought; a refused settlement leaves every row as it was. */
    method Settle(paymentId: nat, inScope: bool, s: Snapshot, now: nat) returns (r: Outcome<SettleResult>)
      modifies this
      ensures match SettlePaymentSnapshot(old(Rows()), paymentId, inScope, s, now)
              case Ok(x) => r == Ok(SettleResult(x.tokensGranted, x.centsGranted, x.subscription))
                            && Rows() == x.account
              case Err(e) => r == Err(e) && Rows() == old(Rows())
    {
      if s.purchaseMethod.None? {
        return Err(PaymentMethodInvalid);
      }
      if !inScope {
        return Err(PaymentScopeInvalid);
      }
      if HasKey(ledgerEntries, FromPaymentSource, Plain(paymentId)) {
        return Ok(SettleResult(0, 0, None));
      }
      if s.purchaseMethod.value == RollingTime {
        r := SettleRollingFor(paymentId, s, now);
        return;
      }
      var tokens, cents := OrElse(s.tokens, 0), OrElse(s.balanceCents, 0);
      if tokens < 0 || cents < 0 {
        return Err(PaymentAmountInvalid);
      }
      if s.purchaseMethod.value == TokenPack {
        r := SettlePackFor(paymentId, s, tokens, cents, now);
      } else {
        r := SettleMoneyFor(paymentId, cents);
      }
    }
  }
}
