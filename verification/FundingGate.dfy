// The admission gate against the waterfall it stands for (src/billing/service.ts:1003-1024).

module FundingGate {
  import opened Base
  import opened Pricing
  import opened Accounts
  import opened WaterfallProofs
  import opened Conservation

  /** Rows the waterfall draws on: the first live rolling pass and every live token pack. */
  predicate Drawable(subs: seq<Subscription>, i: nat)
    requires i < |subs|
  {
    IsPack(subs[i]) || FirstRolling(subs, 0) == Some(i)
  }

  /** Cents, and a live subscription whose plan carries a rate for them. */
  predicate CentsPay(a: Account) { a.cents > 0 && PaygRate(a.plans, a.subs, 0).Some? }

  ghost predicate NoWindowPays(a: Account, now: nat) {
    forall i :: 0 <= i < |a.subs| && Drawable(a.subs, i) ==> Available(a.subs[i], now) == 0
  }

  /** The gate is held open only by something no charge can draw on. */
  ghost predicate Stranded(a: Account, now: nat) {
    && a.tokens == 0
    && !CentsPay(a)
    && NoWindowPays(a, now)
    && (a.cents > 0 || exists i :: 0 <= i < |a.subs| && GateOpens(a.subs[i], now))
  }

  function Funded(a: Account, units: nat, now: nat): int { units - Waterfall(a, units, now).unfunded }

  /**
   * The gate opens exactly for a live row that waits for its first use or has tokens left in an open window,
   * for wallet tokens, or for cents.
   */
  lemma GateOpensExactly(a: Account, now: nat)
    ensures AssertFunded(a, now) <==>
              || a.tokens > 0 || a.cents > 0
              || exists i :: 0 <= i < |a.subs|
                             && (var s := a.subs[i];
                                 && s.status != Canceled
                                 && (|| (s.timerBasis == Some(FromFirstUse) && s.activatedAt == None)
                                     || (s.used < s.included
                                         && (if s.durationHours == None then now < s.periodEnd
                                             else && s.activatedAt.Some? && s.expiresAt.Some?
                                                  && now < s.expiresAt.value))))
  {
    if AssertFunded(a, now) && a.tokens == 0 && a.cents == 0 {
      var i :| 0 <= i < |a.subs| && GateOpens(a.subs[i], now);
      assert a.subs[i].status != Canceled;
    }
  }

  lemma {:induction false} PackCapacityZero(subs: seq<Subscription>, n: nat, now: nat)
    requires n <= |subs|
    ensures PackCapacity(subs, n, now) == 0
            <==> forall i :: 0 <= i < n && IsPack(subs[i]) ==> Available(subs[i], now) == 0
  {
    if n > 0 {
      PackCapacityZero(subs, n - 1, now);
    }
  }

  /** A charge of anything at all is partly funded exactly when the account can pay for something. */
  lemma FundsSomethingExactly(a: Account, units: nat, now: nat)
    requires units > 0
    ensures Funded(a, units, now) > 0 <==> !NoWindowPays(a, now) || a.tokens > 0 || CentsPay(a)
  {
    LegsInOrder(a, units, now);
    CentsPaySomething(a, units, now);
    PackCapacityZero(a.subs, |a.subs|, now);
    var r := FirstRolling(a.subs, 0);
    if r.Some? {
      assert Drawable(a.subs, r.value);
    }
  }

  /** A refused account could not have paid for any part of the charge. */
  lemma RefusalFundsNothing(a: Account, units: nat, now: nat)
    requires !AssertFunded(a, now)
    ensures Waterfall(a, units, now).unfunded == units
  {
    if units > 0 {
      forall i | 0 <= i < |a.subs| && Drawable(a.subs, i) ensures Available(a.subs[i], now) == 0 {
        assert !GateOpens(a.subs[i], now);
      }
      FundsSomethingExactly(a, units, now);
    }
    LegsInOrder(a, units, now);
  }

  /** The gate admits a charge that funds nothing exactly when all it sees is stranded. */
  lemma OveradmitsExactly(a: Account, units: nat, now: nat)
    requires units > 0
    ensures (AssertFunded(a, now) && Funded(a, units, now) <= 0) <==> Stranded(a, now)
  {
    FundsSomethingExactly(a, units, now);
  }

  /** A free plan of the monetary-pack kind with an allowance and no rate, as the plan schema accepts it. */
  predicate FreeMonetaryPlan(plan: Plan) {
    && plan.purchaseMethod == MonetaryPack && plan.active && plan.durationHours.None? && plan.timerBasis == FromPayment
    && plan.includedTokens > 0 && plan.overage.cents == 0
  }

  /** Subscribing to such a plan opens the gate for its whole period, and no charge can draw on it. */
  lemma MonetaryPackOpensGate(plan: Plan, planId: PlanId, start: nat, now: nat)
    requires FreeMonetaryPlan(plan) && start <= now < start + 30 * DAY
    ensures var r := StartSubscription(Account(map[planId := plan], [], 0, 0, [], 0), planId, start, 30);
            r.Ok? && AssertFunded(r.value, now) && Stranded(r.value, now)
  {
    var b := StartSubscription(Account(map[planId := plan], [], 0, 0, [], 0), planId, start, 30).value;
    assert b.subs == [NewSubscription(plan, planId, start, 30)];
    assert GateOpens(b.subs[0], now);
    assert FirstRolling(b.subs, 1) == None;
  }

  // ---- When the gate can be trusted ----

  /** A row of the kinds sold with a duration; a pending one still holds an allowance. */
  predicate Serviceable(s: Subscription) {
    && (s.purchaseMethod == Some(RollingTime) || s.purchaseMethod == Some(TokenPack) || s.purchaseMethod == None)
    && s.durationHours.Some? && s.durationHours.value > 0
    && (Pending(s) ==> s.used < s.included)
  }

  ghost predicate AtMostOneRolling(subs: seq<Subscription>) {
    forall i, j :: 0 <= i < j < |subs| && Live(subs[i]) && Live(subs[j]) ==>
      subs[i].purchaseMethod != Some(RollingTime) || subs[j].purchaseMethod != Some(RollingTime)
  }

  /** Rows a charge may draw on. */
  predicate Payable(s: Subscription) {
    Live(s) && (s.purchaseMethod == Some(RollingTime) || s.purchaseMethod == Some(TokenPack)
                || s.purchaseMethod == None)
  }

  /** A pending timer that could pay is never past due, so the first charge can start it. */
  ghost predicate PendingStartable(subs: seq<Subscription>) {
    forall i :: 0 <= i < |subs| && Payable(subs[i]) && Pending(subs[i]) ==> subs[i].status == Active
  }

  ghost predicate Orderly(subs: seq<Subscription>) { AtMostOneRolling(subs) && PendingStartable(subs) }

  lemma OnlyRolling(subs: seq<Subscription>, i: nat)
    requires i < |subs| && AtMostOneRolling(subs) && Live(subs[i]) && subs[i].purchaseMethod == Some(RollingTime)
    ensures FirstRolling(subs, 0) == Some(i)
  {
    var r := FirstRolling(subs, 0);
    assert r.Some?;
  }

  /** With no money, a gate that opens has found a row a charge can draw on. */
  lemma OpenGatePays(a: Account, now: nat)
    requires AssertFunded(a, now) && a.tokens == 0 && a.cents == 0 && Orderly(a.subs)
    requires forall i :: 0 <= i < |a.subs| && Live(a.subs[i]) ==> Serviceable(a.subs[i])
    ensures !NoWindowPays(a, now)
  {
    var i :| 0 <= i < |a.subs| && GateOpens(a.subs[i], now);
    if a.subs[i].purchaseMethod == Some(RollingTime) {
      OnlyRolling(a.subs, i);
    }
    assert Drawable(a.subs, i) && Available(a.subs[i], now) > 0;
  }

  /**
   * Admission is sound for an orderly account that holds only durations the waterfall serves and,
   * if any cents, a plan with a rate.
   */
  lemma AdmissionFundsSomething(a: Account, units: nat, now: nat)
    requires units > 0 && AssertFunded(a, now)
    requires Orderly(a.subs)
    requires forall i :: 0 <= i < |a.subs| && Live(a.subs[i]) ==> Serviceable(a.subs[i])
    requires a.cents > 0 ==> PaygRate(a.plans, a.subs, 0).Some?
    ensures Funded(a, units, now) > 0
  {
    FundsSomethingExactly(a, units, now);
    if a.tokens == 0 && a.cents == 0 {
      OpenGatePays(a, now);
    }
  }

  // ---- Orderly accounts stay orderly ----

  lemma CancelStaysOrderly(subs: seq<Subscription>, cancel: Subscription -> bool)
    requires Orderly(subs)
    ensures Orderly(CancelWhere(subs, cancel))
  {
  }

  lemma AppendStaysOrderly(subs: seq<Subscription>, s: Subscription)
    requires Orderly(subs) && s.status == Active
    requires s.purchaseMethod == Some(RollingTime) ==>
               forall i :: 0 <= i < |subs| && Live(subs[i]) ==> subs[i].purchaseMethod != Some(RollingTime)
    ensures Orderly(subs + [s])
  {
  }

  lemma StartStaysOrderly(a: Account, planId: PlanId, now: nat, days: nat)
    requires Orderly(a.subs)
    ensures var r := StartSubscription(a, planId, now, days); r.Ok? ==> Orderly(r.value.subs)
  {
    if planId in a.plans {
      var plan := a.plans[planId];
      CancelStaysOrderly(a.subs, (s: Subscription) => true);
      CancelStaysOrderly(a.subs, (s: Subscription) => s.purchaseMethod == Some(RollingTime));
      AppendStaysOrderly(Replaced(plan, a.subs), NewSubscription(plan, planId, now, days));
    }
  }

  /** Row-wise changes that neither revive a row, change its kind, nor leave it pending and past due. */
  ghost predicate Tame(s: Subscription, t: Subscription) {
    && t.purchaseMethod == s.purchaseMethod
    && (Live(t) ==> Live(s))
    && (Pending(t) ==> Pending(s))
    && (Pending(t) && s.status == Active && Live(t) ==> t.status == Active)
  }

  lemma TameStaysOrderly(subs: seq<Subscription>, others: seq<Subscription>)
    requires Orderly(subs) && |subs| == |others|
    requires forall i :: 0 <= i < |subs| ==> Tame(subs[i], others[i])
    ensures Orderly(others)
  {
  }

  lemma {:induction false} MarkAllMarks(subs: seq<Subscription>, ids: seq<nat>)
    requires InRange(subs, ids)
    ensures var r := MarkAll(subs, ids);
            forall i: nat :: i < |subs| ==> r[i] == if i in ids then MarkPastDue(subs[i]) else subs[i]
    decreases |ids|
  {
    if ids != [] {
      var next := subs[ids[0] := MarkPastDue(subs[ids[0]])];
      assert forall i :: i in ids <==> i == ids[0] || i in ids[1..];
      MarkAllMarks(next, ids[1..]);
    }
  }

  predicate Startable(s: Subscription) { Pending(s) ==> s.status == Active }

  lemma DrawStarts(s: Subscription, want: nat, now: nat)
    requires Startable(s)
    ensures !Pending(DrawOne(s, want, now).0)
  {
  }

  lemma {:induction false} PrefixWithin(subs: seq<Subscription>, order: seq<nat>, p: nat, now: nat)
    requires InRange(subs, order) && p <= |order|
    ensures InRange(subs, order[..p]) && SumAvailable(subs, order[..p], now) <= SumAvailable(subs, order, now)
  {
    if p > 0 {
      PrefixWithin(subs, order[1..], p - 1, now);
      assert order[..p][1..] == order[1..][..p - 1];
    }
  }

  /** When the packs fall short, the loop has started every timer it could. */
  lemma ShortfallStartsPacks(subs: seq<Subscription>, order: seq<nat>, want: nat, now: nat, p: nat)
    requires InRange(subs, order) && Distinct(order) && p < |order|
    requires Startable(subs[order[p]]) && SumAvailable(subs, order, now) < want
    ensures !Pending(DrainPacks(subs, order, want, now).subs[order[p]])
  {
    PrefixWithin(subs, order, p, now);
    var open := want - SumAvailable(subs, order[..p], now);
    DrainAt(subs, order, want, now, p, open);
    DrawStarts(subs[order[p]], open, now);
  }

  lemma {:induction false} DrainNeverSuspends(subs: seq<Subscription>, order: seq<nat>, want: nat, now: nat)
    requires InRange(subs, order)
    ensures var r := DrainPacks(subs, order, want, now);
            forall j: nat :: j < |subs| && !Pending(subs[j]) ==> !Pending(r.subs[j])
    decreases |order|
  {
    if order != [] && want > 0 {
      var (s, taken) := DrawOne(subs[order[0]], want, now);
      DrainNeverSuspends(subs[order[0] := s], order[1..], want - taken, now);
    }
  }

  lemma {:induction false} SpentPacksStarted(subs: seq<Subscription>, order: seq<nat>, want: nat, now: nat)
    requires InRange(subs, order) && Distinct(order)
    requires forall j :: j in order ==> Startable(subs[j])
    ensures var r := DrainPacks(subs, order, want, now);
            forall j :: j in r.spent ==> !Pending(r.subs[j])
    decreases |order|
  {
    if order != [] && want > 0 {
      var next, rest, remaining, taken, r := FirstStarted(subs, order, want, now);
      SpentPacksStarted(next, rest, remaining, now);
      AllStarted(r, order[0], taken);
    }
  }

  /** The drain of a nonempty order: its first row starts if it pays, and what follows never suspends it. */
  lemma FirstStarted(subs: seq<Subscription>, order: seq<nat>, want: nat, now: nat)
    returns (next: seq<Subscription>, rest: seq<nat>, remaining: nat, taken: nat, r: Drawn)
    requires InRange(subs, order) && Distinct(order) && order != [] && want > 0
    requires forall j :: j in order ==> Startable(subs[j])
    ensures |next| == |subs| && rest == order[1..] && InRange(next, rest) && Distinct(rest)
    ensures forall j :: j in rest ==> Startable(next[j])
    ensures r == DrainPacks(next, rest, remaining, now) && !Pending(r.subs[order[0]])
    ensures DrainPacks(subs, order, want, now) == Drawn(r.subs, taken + r.taken, Spent(order[0], taken) + r.spent)
  {
    var draw := DrawOne(subs[order[0]], want, now);
    next, rest, remaining, taken := subs[order[0] := draw.0], order[1..], want - draw.1, draw.1;
    r := DrainPacks(next, rest, remaining, now);
    assert order[0] in order;
    DrawStarts(subs[order[0]], want, now);
    forall j | j in rest ensures Startable(next[j]) {
      assert j in order;
    }
    DrainNeverSuspends(next, rest, remaining, now);
  }

  lemma AllStarted(rest: Drawn, k: nat, taken: nat)
    requires k < |rest.subs| && InRange(rest.subs, rest.spent) && !Pending(rest.subs[k])
    requires forall j :: j in rest.spent ==> !Pending(rest.subs[j])
    ensures InRange(rest.subs, Spent(k, taken) + rest.spent)
    ensures forall j :: j in Spent(k, taken) + rest.spent ==> !Pending(rest.subs[j])
  {
  }

  /** The rolling leg runs what it spends from and every live rolling pass. */
  ghost predicate RollingLeg(subs: seq<Subscription>, mid: seq<Subscription>, spent: seq<nat>) {
    && |mid| == |subs|
    && (forall j :: j in spent && j < |mid| ==> !Pending(mid[j]))
    && (forall j: nat :: j < |subs| && Pending(mid[j]) ==> Pending(subs[j]))
    && (forall j: nat :: j < |subs| && Live(subs[j]) && subs[j].purchaseMethod == Some(RollingTime) ==>
          !Pending(mid[j]))
  }

  /** The pack leg runs what it spends from and, when the packs fall short, all of them. */
  ghost predicate PackLeg(mid: seq<Subscription>, others: seq<Subscription>, spent: seq<nat>, short: bool) {
    && |mid| == |others|
    && (forall j :: j in spent && j < |others| ==> !Pending(others[j]))
    && (forall j: nat :: j < |mid| && Pending(others[j]) ==> Pending(mid[j]))
    && (short ==> forall j :: 0 <= j < |mid| && IsPack(mid[j]) ==> !Pending(others[j]))
  }

  /** The pack loop over the rows the rolling leg left. */
  lemma PacksStart(subs: seq<Subscription>, want: nat, now: nat)
    requires PendingStartable(subs)
    ensures var p := DrainPacks(subs, PackOrder(subs, |subs|), want, now);
            PackLeg(subs, p.subs, p.spent, PackCapacity(subs, |subs|, now) < want)
  {
    var order := PackOrder(subs, |subs|);
    SumAvailablePacks(subs, subs, |subs|, now);
    assert forall j :: j in order ==> Startable(subs[j]);
    SpentPacksStarted(subs, order, want, now);
    DrainNeverSuspends(subs, order, want, now);
    var p := DrainPacks(subs, order, want, now);
    if PackCapacity(subs, |subs|, now) < want {
      forall j | 0 <= j < |subs| && IsPack(subs[j]) ensures !Pending(p.subs[j]) {
        var k :| 0 <= k < |order| && order[k] == j;
        ShortfallStartsPacks(subs, order, want, now, k);
      }
    }
  }

  lemma RollingStarts(subs: seq<Subscription>, want: nat, now: nat)
    requires Orderly(subs)
    ensures var r := DrainRolling(subs, want, now);
            PendingStartable(r.subs) && RollingLeg(subs, r.subs, r.spent)
  {
    var rolling := FirstRolling(subs, 0);
    if rolling.Some? {
      DrawStarts(subs[rolling.value], want, now);
      forall j: nat | j < |subs| && Live(subs[j]) && subs[j].purchaseMethod == Some(RollingTime)
        ensures j == rolling.value
      {
        OnlyRolling(subs, j);
      }
    }
  }

  /** From `subs` to `others`: spent rows and, on a shortfall, all payable rows run; no timer is suspended. */
  ghost predicate StartedBy(subs: seq<Subscription>, others: seq<Subscription>, spent: seq<nat>, short: bool) {
    && |subs| == |others|
    && (forall j :: j in spent && j < |others| ==> !Pending(others[j]))
    && (short ==> forall j :: 0 <= j < |subs| && Payable(subs[j]) ==> !Pending(others[j]))
    && (forall j: nat :: j < |subs| && Pending(others[j]) ==> Pending(subs[j]))
  }

  lemma StartsCompose(subs: seq<Subscription>, mid: seq<Subscription>, others: seq<Subscription>,
                      first: seq<nat>, second: seq<nat>, short: bool)
    requires SameRows(subs, mid) && RollingLeg(subs, mid, first) && PackLeg(mid, others, second, short)
    ensures StartedBy(subs, others, first + second, short)
  {
    if short {
      forall j | 0 <= j < |subs| && Payable(subs[j]) ensures !Pending(others[j]) {
        assert SameRow(subs[j], mid[j]);
      }
    }
  }

  lemma DrainsStart(subs: seq<Subscription>, units: nat, now: nat, r: Drawn, p: Drawn, want: nat)
    requires Orderly(subs) && r == DrainRolling(subs, units, now)
    requires want == units - r.taken && p == DrainPacks(r.subs, PackOrder(r.subs, |r.subs|), want, now)
    ensures StartedBy(subs, p.subs, r.spent + p.spent, PackCapacity(r.subs, |r.subs|, now) < want)
  {
    RollingStep(subs, units, now);
    RollingStarts(subs, units, now);
    PacksStart(r.subs, want, now);
    StartsCompose(subs, r.subs, p.subs, r.spent, p.spent, PackCapacity(r.subs, |r.subs|, now) < want);
  }

  lemma ShortOfAllowances(a: Account, units: nat, now: nat, r: Drawn)
    requires Waterfall(a, units, now).unfunded > 0 && r == DrainRolling(a.subs, units, now)
    ensures PackCapacity(r.subs, |r.subs|, now) < units - r.taken
  {
    LegsInOrder(a, units, now);
    RollingStep(a.subs, units, now);
  }

  /** What a charge starts: whatever it spends from, and on a shortfall everything payable. */
  lemma ChargeStarts(a: Account, units: nat, now: nat)
    requires Orderly(a.subs)
    ensures var f := Waterfall(a, units, now);
            SameRows(a.subs, f.subs) && StartedBy(a.subs, f.subs, f.spent, f.unfunded > 0)
  {
    var r, want, p, open, f := Legs(a, units, now);
    LegsInOrder(a, units, now);
    DrainsStart(a.subs, units, now, r, p, want);
    if Waterfall(a, units, now).unfunded > 0 {
      ShortOfAllowances(a, units, now, r);
    }
  }

  /** Marking a shortfall past due touches no timer that is still waiting to pay. */
  lemma MarkStaysOrderly(subs: seq<Subscription>, spent: seq<nat>)
    requires Orderly(subs) && InRange(subs, spent)
    requires forall j :: j in spent ==> !Pending(subs[j])
    requires forall j :: 0 <= j < |subs| && Payable(subs[j]) ==> !Pending(subs[j])
    ensures Orderly(MarkShortfall(subs, spent))
  {
    MarkAllMarks(subs, spent);
    var marked := MarkShortfall(subs, spent);
    forall i | 0 <= i < |subs| ensures marked[i] == subs[i] || marked[i] == MarkPastDue(subs[i]) {
    }
  }

  lemma SameRowsOrderly(subs: seq<Subscription>, others: seq<Subscription>)
    requires Orderly(subs) && SameRows(subs, others)
    requires forall j: nat :: j < |subs| && Pending(others[j]) ==> Pending(subs[j])
    ensures Orderly(others)
  {
  }

  lemma UsageStaysOrderly(a: Account, units: nat, id: nat, now: nat)
    requires Orderly(a.subs)
    ensures Orderly(ApplyUsage(a, units, id, now).subs)
  {
    if !HasKey(a.ledger, FromUsage, Plain(id)) && units > 0 {
      var f := Waterfall(a, units, now);
      ChargeStarts(a, units, now);
      SameRowsOrderly(a.subs, f.subs);
      if f.unfunded > 0 {
        forall j | 0 <= j < |f.subs| && Payable(f.subs[j]) ensures !Pending(f.subs[j]) {
          assert SameRow(a.subs[j], f.subs[j]);
        }
        MarkStaysOrderly(f.subs, f.spent);
      }
    }
  }

  lemma SettleStaysOrderly(a: Account, p: nat, scope: bool, s: Snapshot, now: nat)
    requires Orderly(a.subs)
    ensures var r := SettlePaymentSnapshot(a, p, scope, s, now); r.Ok? ==> Orderly(r.value.account.subs)
  {
    if s.planId.Some? {
      StartStaysOrderly(a, s.planId.value, now, 30);
      var started := StartSubscription(a, s.planId.value, now, 30);
      if started.Ok? && s.modelGroupId.Some? {
        var b := started.value;
        TameStaysOrderly(b.subs, b.subs[|a.subs| := b.subs[|a.subs|].(modelGroupId := s.modelGroupId.value)]);
      }
      if s.durationHours.Some? && OrElse(s.tokens, 0) >= 0 && s.durationHours.value >= 0 {
        AppendStaysOrderly(a.subs, NewPack(s.planId.value, OrElse(s.tokens, 0), s.durationHours.value, now));
      }
    }
  }

  /** At every point of every run there is at most one live rolling pass, and every timer still waiting can start. */
  lemma {:induction false} RunStaysOrderly(a: Account, ops: seq<Op>)
    requires Orderly(a.subs)
    ensures Orderly(Run(a, ops).subs)
  {
    if ops != [] {
      RunStaysOrderly(a, ops[..|ops| - 1]);
      StepStaysOrderly(Run(a, ops[..|ops| - 1]), ops[|ops| - 1]);
    }
  }

  lemma TimerStaysOrderly(a: Account, op: Op)
    requires Orderly(a.subs) && (op.FirstUse? || op.Reset?)
    ensures Orderly(Step(a, op).subs)
  {
    TameStaysOrderly(a.subs, Step(a, op).subs);
  }

  lemma PackStaysOrderly(a: Account, op: Op)
    requires Orderly(a.subs) && op.StartPack?
    ensures Orderly(Step(a, op).subs)
  {
    if op.packTokens > 0 && op.hours > 0 {
      AppendStaysOrderly(a.subs, NewPack(op.planId, op.packTokens, op.hours, op.now));
    }
  }

  lemma StepStaysOrderly(a: Account, op: Op)
    requires Orderly(a.subs)
    ensures Orderly(Step(a, op).subs)
  {
    match op
    case UpsertPlan(_, _) =>
    case Start(id, now, days) => StartStaysOrderly(a, id, now, days);
    case StartPack(_, _, _, _) => PackStaysOrderly(a, op);
    case FirstUse(_, _) => TimerStaysOrderly(a, op);
    case Reset(_, _) => TimerStaysOrderly(a, op);
    case Cancel => CancelStaysOrderly(a.subs, (s: Subscription) => true);
    case Deposit(_, _, _, _) =>
    case Settle(p, scope, s, now) => SettleStaysOrderly(a, p, scope, s, now);
    case Usage(units, id, now) => UsageStaysOrderly(a, units, id, now);
  }

  lemma FreshIsOrderly(a: Account)
    requires Fresh(a)
    ensures Orderly(a.subs)
  {
  }

  // ---- What a purchase and a reset leave ----

  /**
   * A plan without a duration replaces every subscription, a rolling pass replaces the rolling pass,
   * anything else stacks; the new window pays its whole allowance, until it ends or, when it waits for
   * its first use, for its duration from then on.
   */
  lemma PurchaseLeaves(a: Account, planId: PlanId, now: nat, days: nat, t: nat)
    requires StartSubscription(a, planId, now, days).Ok? && now <= t
    ensures var b, plan, n := StartSubscription(a, planId, now, days).value, a.plans[planId], |a.subs|;
            && |b.subs| == n + 1 && Live(b.subs[n]) && b.subs[n].resetsRemaining == plan.resetsAllowed
            && (forall i :: 0 <= i < n ==>
                  (Live(b.subs[i]) <==> Live(a.subs[i]) && plan.durationHours.Some?
                                        && !(plan.purchaseMethod == RollingTime
                                             && a.subs[i].purchaseMethod == Some(RollingTime))))
            && Available(b.subs[n], t)
               == (if plan.durationHours.Some? && plan.timerBasis == FromFirstUse
                   then (if plan.durationHours.value > 0 then plan.includedTokens else 0)
                   else if t < now + PeriodMs(plan, days) then plan.includedTokens else 0)
  {
  }

  /**
   * A reset gives the row its whole allowance again and uses one reset up; a duration runs in full from
   * now, a row without one keeps the window it had.
   */
  lemma ResetReopens(a: Account, id: nat, now: nat, t: nat)
    requires ResetSubscription(a, id, now).Ok? && now <= t
    ensures var s, b := a.subs[id], ResetSubscription(a, id, now).value;
            && Available(b.subs[id], t)
               == (if s.durationHours.Some? then (if t < now + s.durationHours.value * HOUR then s.included else 0)
                   else if WindowActive(s, t) then s.included else 0)
            && b.subs[id].resetsRemaining == s.resetsRemaining - 1
            && |b.subs| == |a.subs| && forall i :: 0 <= i < |a.subs| && i != id ==> b.subs[i] == a.subs[i]
  {
  }

  // ---- What a cancellation leaves ----

  lemma {:induction false} NoneLive(subs: seq<Subscription>, n: nat, now: nat)
    requires n <= |subs| && forall i :: 0 <= i < |subs| ==> !Live(subs[i])
    ensures PackCapacity(subs, n, now) == 0 && FirstRolling(subs, 0) == None
  {
    if n > 0 {
      NoneLive(subs, n - 1, now);
    }
  }

  lemma {:induction false} NoneRated(plans: map<PlanId, Plan>, subs: seq<Subscription>, k: nat)
    requires k <= |subs| && forall i :: 0 <= i < |subs| ==> !Live(subs[i])
    ensures PaygRate(plans, subs, k) == None
    decreases |subs| - k
  {
    if k < |subs| {
      NoneRated(plans, subs, k + 1);
    }
  }

  /** After a cancellation only the wallet pays: no window is open, and cents have no rate to be spent at. */
  lemma CancelLeavesWallet(a: Account, units: nat, now: nat)
    ensures var b := CancelSubscription(a);
            && Waterfall(b, units, now).unfunded == Max(0, units - a.tokens)
            && Waterfall(b, units, now).spentCents == 0
            && (AssertFunded(b, now) <==> a.tokens > 0 || a.cents > 0)
  {
    var b := CancelSubscription(a);
    NoneLive(b.subs, |b.subs|, now);
    NoneRated(b.plans, b.subs, 0);
    ShortfallExact(b, units, now);
    CentsWellSpent(b, units, now);
  }
}
