// Why the earliest-expiry law asks that the rolling pass expire first: the pass always pays first
// (src/billing/service.ts:606-631), even when a pack on the account expires sooner.

module RollingFirst {
  import opened Base
  import opened Accounts
  import opened WaterfallProofs
  import opened Conservation
  import opened EarliestExpiry

  /** A two-hour pass of one token, running from its payment. */
  predicate PassPlan(plan: Plan) {
    && plan.active && plan.purchaseMethod == RollingTime && plan.includedTokens == 1
    && plan.durationHours == Some(2) && plan.timerBasis == FromPayment
  }

  /** An account that bought the pass and, at the same time, a one-hour pack of one token. */
  function Bought(planId: PlanId, plan: Plan): Account
    requires PassPlan(plan)
  {
    var a := OrSame(StartSubscription(Account(map[planId := plan], [], 0, 0, [], 0), planId, 0, 30),
                    Account(map[planId := plan], [], 0, 0, [], 0));
    OrSame(StartDurationPack(a, planId, 1, 1, 0), a)
  }

  predicate IsPass(s: Subscription) {
    && s.status == Active && s.purchaseMethod == Some(RollingTime) && s.included == 1 && s.used == 0
    && Timed(s) && s.expiresAt == Some(2 * HOUR)
  }

  predicate IsHourPack(s: Subscription) {
    && s.status == Active && s.purchaseMethod == Some(TokenPack) && s.included == 1 && s.used == 0
    && Timed(s) && s.expiresAt == Some(HOUR)
  }

  /** The pass and the pack, no money, no usage booked yet. */
  ghost predicate PassAndPack(a: Account) {
    && |a.subs| == 2 && IsPass(a.subs[0]) && IsHourPack(a.subs[1]) && a.tokens == 0 && a.cents == 0
    && forall i :: 0 <= i < |a.ledger| ==> a.ledger[i].source != FromUsage
  }

  lemma BoughtHolds(planId: PlanId, plan: Plan)
    requires PassPlan(plan)
    ensures PassAndPack(Bought(planId, plan))
  {
    var none := Account(map[planId := plan], [], 0, 0, [], 0);
    var a := StartSubscription(none, planId, 0, 30).value;
    assert a.subs == [NewSubscription(plan, planId, 0, 30)];
    assert Bought(planId, plan).subs == a.subs + [NewPack(planId, 1, 1, 0)];
  }

  /** The pass pays for the first charge, although the pack expires sooner. */
  lemma PassPays(a: Account, c: Event)
    requires PassAndPack(a) && c.Charge? && c.units == 1 && c.now == 0
    ensures Waterfall(a, c.units, c.now).subs == [a.subs[0].(used := 1), a.subs[1]]
    ensures Waterfall(a, c.units, c.now).unfunded == 0
  {
    assert DrainRolling(a.subs, c.units, c.now) == Drawn([a.subs[0].(used := 1), a.subs[1]], 1, [0]);
  }

  lemma AfterFirstCharge(a: Account, c: Event, d: Event)
    requires PassAndPack(a) && c.Charge? && c.units == 1 && c.now == 0 && d.Charge? && d.id != c.id
    ensures var b := Serve(a, c);
            && b.subs == [a.subs[0].(used := 1), a.subs[1]] && b.tokens == 0 && b.cents == 0
            && ShortfallsFollowDebits(b.ledger) && !HasKey(b.ledger, FromUsage, Plain(d.id))
            && Shortfall(b) == Shortfall(a)
  {
    PassPays(a, c);
    ChargeLedger(a, c.units, c.id, c.now);
    ChargeShortfall(a, c.units, c.id, c.now);
    if HasKey(Serve(a, c).ledger, FromUsage, Plain(d.id)) {
      KeyFromRun(a, c, d.id);
    }
  }

  /** ... and by the second charge the pack has lapsed unspent. */
  lemma PackLapses(b: Account, s: Subscription, k: Subscription, d: Event)
    requires b.subs == [s.(used := 1), k] && IsPass(s) && IsHourPack(k) && b.tokens == 0 && b.cents == 0
    requires d.Charge? && d.units == 1 && d.now >= HOUR
    ensures Waterfall(b, d.units, d.now).unfunded == 1
  {
    ShortfallExact(b, d.units, d.now);
    assert FirstRolling(b.subs, 0) == Some(0);
    NoCentsCapacity(b);
    assert PackCapacity(b.subs, 0, d.now) == 0 && PackCapacity(b.subs, 1, d.now) == 0;
  }

  lemma Slices<T>(x: T, y: T)
    ensures [x, y][..1] == [x] && [x][..0] == []
  {
  }

  lemma ServeTwo(a: Account, c: Event, d: Event)
    ensures ServeAll(a, [c, d]) == Serve(Serve(a, c), d)
  {
    Slices(c, d);
    assert ServeAll(a, [c]) == Serve(a, c);
  }

  lemma PassGoesFirst(a: Account, c: Event, d: Event)
    requires PassAndPack(a) && c.Charge? && c.units == 1 && c.now == 0
    requires d.Charge? && d.units == 1 && d.now >= HOUR && d.id != c.id
    ensures Shortfall(ServeAll(a, [c, d])) == Shortfall(a) + 1
  {
    var b := Serve(a, c);
    AfterFirstCharge(a, c, d);
    PackLapses(b, a.subs[0], a.subs[1], d);
    ChargeShortfall(b, d.units, d.id, d.now);
    ServeTwo(a, c, d);
  }

  lemma OneCharge(p: Pool, plans: map<PlanId, Plan>, cs: seq<Event>, xs: seq<Allocation>, c: Event, x: Allocation)
    requires cs == [c] && xs == [x] && c.Charge? && Feasible(p, x, c.units, c.now)
    ensures FeasibleRun(p, plans, cs, xs) && PoolAfter(p, plans, cs, xs) == Spend(p, x)
    ensures TotalGranted(cs, xs) == Granted(x) && TotalUnits(cs) == c.units
  {
    assert cs[..0] == [] && xs[..0] == [];
    assert PoolAfter(p, plans, [], []) == p;
  }

  lemma TwoCharges(p: Pool, plans: map<PlanId, Plan>, events: seq<Event>, xs: seq<Allocation>, c: Event, d: Event,
                   x: Allocation, y: Allocation)
    requires events == [c, d] && xs == [x, y]
    requires c.Charge? && d.Charge? && Feasible(p, x, c.units, c.now) && Feasible(Spend(p, x), y, d.units, d.now)
    ensures FeasibleRun(p, plans, events, xs)
    ensures TotalGranted(events, xs) == Granted(x) + Granted(y) && TotalUnits(events) == c.units + d.units
  {
    OneCharge(p, plans, events[..1], xs[..1], c, x);
  }

  lemma SumTwo(m: nat, n: nat)
    ensures Sum([m, n]) == m + n
  {
    Slices(m, n);
    assert Sum([m]) == m;
  }

  lemma SpendTwo(p: Pool, x: Allocation)
    requires WellFormed(p) && |p.left| == |x.fromPacks| == 2 && x.fromWallet <= p.wallet
    requires x.fromPacks[0] <= p.left[0] && x.fromPacks[1] <= p.left[1]
    ensures Spend(p, x) == Pool(p.expiry, [p.left[0] - x.fromPacks[0], p.left[1] - x.fromPacks[1]],
                                p.wallet - x.fromWallet)
  {
    var left := Spend(p, x).left;
    assert |left| == 2 && left[0] == p.left[0] - x.fromPacks[0] && left[1] == p.left[1] - x.fromPacks[1];
  }

  /** The pack for the first charge and the pass for the second. */
  lemma PackThenPass(p: Pool, c: Event, d: Event, x: Allocation, y: Allocation)
    requires p == Pool([2 * HOUR, HOUR], [1, 1], 0) && x == Allocation([0, 1], 0) && y == Allocation([1, 0], 0)
    requires c.Charge? && c.units == 1 && c.now == 0
    requires d.Charge? && d.units == 1 && HOUR <= d.now < 2 * HOUR
    ensures Granted(x) == 1 && Granted(y) == 1
    ensures Feasible(p, x, c.units, c.now) && Feasible(Spend(p, x), y, d.units, d.now)
  {
    SumTwo(0, 1);
    SumTwo(1, 0);
    SpendTwo(p, x);
  }

  /** What any other spender starts from. */
  lemma BothHeld(a: Account, p: Pool)
    requires PassAndPack(a) && p == Pool([2 * HOUR, HOUR], [1, 1], 0)
    ensures p == PoolOf(a)
  {
    var q := PoolOf(a);
    assert |q.expiry| == 2 && q.expiry[0] == 2 * HOUR && q.expiry[1] == HOUR;
    assert |q.left| == 2 && q.left[0] == 1 && q.left[1] == 1;
  }

  /**
   * The bought pass and pack, a charge at once and one while the pass alone still runs: the code leaves
   * one token unfunded that paying from the pack first would have funded.
   */
  lemma RollingFirstCanLose(planId: PlanId, plan: Plan, p: Pool, c: Event, d: Event, x: Allocation, y: Allocation)
    requires PassPlan(plan) && p == Pool([2 * HOUR, HOUR], [1, 1], 0)
    requires c.Charge? && c.units == 1 && c.now == 0 && x == Allocation([0, 1], 0)
    requires d.Charge? && d.units == 1 && HOUR <= d.now < 2 * HOUR && d.id != c.id && y == Allocation([1, 0], 0)
    ensures var a := Bought(planId, plan);
            && p == PoolOf(a) && FeasibleRun(p, a.plans, [c, d], [x, y])
            && Shortfall(ServeAll(a, [c, d])) - Shortfall(a) > TotalUnits([c, d]) - TotalGranted([c, d], [x, y])
  {
    var a := Bought(planId, plan);
    BoughtHolds(planId, plan);
    BothHeld(a, p);
    PassGoesFirst(a, c, d);
    PackThenPass(p, c, d, x, y);
    TwoCharges(p, a.plans, [c, d], [x, y], c, d, x, y);
  }
}
