// Spending the earliest expiry first is optimal (src/billing/service.ts:606-668): over any run of
// charges and pack purchases, no other way of spending the same rows and wallet funds more, as long as
// the rolling pass, which always pays first, does not expire after a pack.
//
// The argument follows one quantity. For a time T let G(T) be what has been funded so far plus what
// is still held and outlives T. A charge of u at `now` can raise G(T) to at most
// min(G(T) + u, G(now)), and spending the earliest expiry first reaches that bound for every T at once.

module EarliestExpiry {
  import opened Base
  import opened Accounts
  import opened WaterfallProofs
  import opened Conservation

  datatype Event =
    | Charge(units: nat, id: nat, now: nat)
    | Buy(planId: PlanId, tokens: int, hours: int, now: nat)

  /** A running timer with a fixed expiry. */
  predicate Timed(s: Subscription) {
    s.durationHours.Some? && s.timerBasis == Some(FromPayment) && s.activatedAt.Some? && s.expiresAt.Some?
  }

  predicate IsRolling(s: Subscription) { Live(s) && s.purchaseMethod == Some(RollingTime) }

  ghost predicate OnePass(subs: seq<Subscription>) {
    forall i :: 0 <= i < |subs| && IsRolling(subs[i]) ==> FirstRolling(subs, 0) == Some(i)
  }

  function PassExpiry(subs: seq<Subscription>): nat {
    var r := FirstRolling(subs, 0);
    if r.Some? then SortKey(subs[r.value]) else 0
  }

  /** Running timers only, and a rolling pass, if any, that expires no later than any pack. */
  ghost predicate PassEarliest(subs: seq<Subscription>) {
    && OnePass(subs)
    && (forall i :: 0 <= i < |subs| && (IsRolling(subs[i]) || IsPack(subs[i])) ==> Timed(subs[i]))
    && (forall i :: 0 <= i < |subs| && IsPack(subs[i]) ==> PassExpiry(subs) <= SortKey(subs[i]))
  }

  /** Such rows beside a token wallet, and no cents. What is held at `t` is then what outlives `t`. */
  ghost predicate EarliestFirst(a: Account) { a.cents == 0 && PassEarliest(a.subs) }

  function Serve(a: Account, e: Event): Account {
    match e
    case Charge(units, id, now) => ApplyUsage(a, units, id, now)
    case Buy(planId, tokens, hours, now) => OrSame(StartDurationPack(a, planId, tokens, hours, now), a)
  }

  function ServeAll(a: Account, events: seq<Event>): Account {
    if events == [] then a else Serve(ServeAll(a, events[..|events| - 1]), events[|events| - 1])
  }

  function ShortfallOf(e: Entry): int {
    if e.source == FromUsage && e.reference.Unfunded? then -e.tokens else 0
  }

  /** The shortfall the ledger records. */
  function Shortfall(a: Account): int { Total(a.ledger, ShortfallOf) }

  // ---- Any other way to spend ----

  /** What there is to spend: per row its expiry and what is left, and the wallet. */
  datatype Pool = Pool(expiry: seq<nat>, left: seq<nat>, wallet: nat)

  datatype Allocation = Allocation(fromPacks: seq<nat>, fromWallet: nat)

  function Sum(s: seq<nat>): nat { if s == [] then 0 else Sum(s[..|s| - 1]) + s[|s| - 1] }

  /** The part of `amounts` that sits on rows outliving `t`. */
  function SumAfter(expiry: seq<nat>, amounts: seq<nat>, t: nat): nat
    requires |expiry| == |amounts|
  {
    if amounts == [] then 0
    else
      var last := |amounts| - 1;
      SumAfter(expiry[..last], amounts[..last], t) + (if expiry[last] > t then amounts[last] else 0)
  }

  predicate WellFormed(p: Pool) { |p.expiry| == |p.left| }

  function PoolOutliving(p: Pool, t: nat): nat
    requires WellFormed(p)
  {
    SumAfter(p.expiry, p.left, t) + p.wallet
  }

  function Granted(x: Allocation): nat { Sum(x.fromPacks) + x.fromWallet }

  /** Draws only on unexpired rows, within what they hold, and never more than was asked. */
  ghost predicate Feasible(p: Pool, x: Allocation, units: nat, now: nat) {
    && WellFormed(p)
    && |x.fromPacks| == |p.left|
    && (forall i :: 0 <= i < |p.left| ==> x.fromPacks[i] <= p.left[i])
    && (forall i :: 0 <= i < |p.left| && x.fromPacks[i] > 0 ==> p.expiry[i] > now)
    && x.fromWallet <= p.wallet
    && Granted(x) <= units
  }

  function Spend(p: Pool, x: Allocation): (r: Pool)
    requires WellFormed(p) && |x.fromPacks| == |p.left|
    ensures WellFormed(r)
  {
    Pool(p.expiry,
         seq(|p.left|, i requires 0 <= i < |p.left| && |x.fromPacks| == |p.left| =>
           if x.fromPacks[i] <= p.left[i] then p.left[i] - x.fromPacks[i] else 0),
         if x.fromWallet <= p.wallet then p.wallet - x.fromWallet else 0)
  }

  predicate Arrives(plans: map<PlanId, Plan>, e: Event) {
    e.Buy? && e.planId in plans && 0 < e.tokens <= MAX_SAFE_INTEGER && 1 <= e.hours <= 8_760
  }

  function PoolStep(q: Pool, plans: map<PlanId, Plan>, e: Event, x: Allocation): Pool {
    if e.Charge? then (if WellFormed(q) && |x.fromPacks| == |q.left| then Spend(q, x) else q)
    else if Arrives(plans, e) then Pool(q.expiry + [e.now + e.hours * HOUR], q.left + [e.tokens], q.wallet)
    else q
  }

  /** The other spender's pool after the same events, spending `xs[k]` on event `k`. */
  function PoolAfter(p: Pool, plans: map<PlanId, Plan>, events: seq<Event>, xs: seq<Allocation>): Pool
    requires |xs| == |events|
  {
    if events == [] then p
    else PoolStep(PoolAfter(p, plans, events[..|events| - 1], xs[..|xs| - 1]),
                  plans, events[|events| - 1], xs[|xs| - 1])
  }

  ghost predicate FeasibleRun(p: Pool, plans: map<PlanId, Plan>, events: seq<Event>, xs: seq<Allocation>) {
    && |xs| == |events|
    && (events != [] ==>
          && FeasibleRun(p, plans, events[..|events| - 1], xs[..|xs| - 1])
          && (var q := PoolAfter(p, plans, events[..|events| - 1], xs[..|xs| - 1]);
              var e := events[|events| - 1];
              e.Charge? ==> Feasible(q, xs[|xs| - 1], e.units, e.now)))
  }

  function TotalGranted(events: seq<Event>, xs: seq<Allocation>): nat
    requires |xs| == |events|
  {
    if events == [] then 0
    else TotalGranted(events[..|events| - 1], xs[..|xs| - 1])
         + (if events[|events| - 1].Charge? then Granted(xs[|xs| - 1]) else 0)
  }

  function TotalUnits(events: seq<Event>): nat {
    if events == [] then 0
    else TotalUnits(events[..|events| - 1])
         + (if events[|events| - 1].Charge? then events[|events| - 1].units else 0)
  }

  function Spendable(s: Subscription): nat { if IsRolling(s) || IsPack(s) then Remaining(s) else 0 }

  /** The account seen as a pool. */
  function PoolOf(a: Account): (p: Pool)
    ensures WellFormed(p)
  {
    Pool(seq(|a.subs|, i requires 0 <= i < |a.subs| => SortKey(a.subs[i])),
         seq(|a.subs|, i requires 0 <= i < |a.subs| => Spendable(a.subs[i])),
         a.tokens)
  }

  // ---- What the code's order does ----

  lemma AvailableTimed(s: Subscription, t: nat)
    requires Timed(s)
    ensures Available(s, t) == if s.expiresAt.value > t then Remaining(s) else 0
  {
  }

  lemma {:induction false} LaterHoldsLess(subs: seq<Subscription>, order: seq<nat>, now: nat, t: nat)
    requires InRange(subs, order) && now <= t
    requires forall j :: j in order ==> Timed(subs[j])
    ensures SumAvailable(subs, order, t) <= SumAvailable(subs, order, now)
  {
    if order != [] {
      assert forall j :: j in order[1..] ==> j in order;
      LaterHoldsLess(subs, order[1..], now, t);
      AvailableTimed(subs[order[0]], now);
      AvailableTimed(subs[order[0]], t);
    }
  }

  /** Rows all expiring after `t` hold at `t` what they hold now. */
  lemma {:induction false} AllOutlive(subs: seq<Subscription>, order: seq<nat>, now: nat, t: nat)
    requires InRange(subs, order) && now <= t
    requires forall j :: j in order ==> Timed(subs[j]) && subs[j].expiresAt.value > t
    ensures SumAvailable(subs, order, t) == SumAvailable(subs, order, now)
  {
    if order != [] {
      assert forall j :: j in order[1..] ==> j in order;
      AllOutlive(subs, order[1..], now, t);
    }
  }

  ghost predicate TimedOrder(subs: seq<Subscription>, order: seq<nat>) {
    Ordered(subs, order) && forall j :: j in order ==> Timed(subs[j])
  }

  lemma TimedTail(subs: seq<Subscription>, order: seq<nat>, s: Subscription)
    requires TimedOrder(subs, order) && order != []
    requires SortKey(s) == SortKey(subs[order[0]])
    ensures TimedOrder(subs[order[0] := s], order[1..]) && order[0] !in order[1..]
    ensures Timed(subs[order[0]])
    ensures forall j :: j in order[1..] ==> Timed(subs[j]) && subs[j].expiresAt.value >= subs[order[0]].expiresAt.value
  {
    assert order[0] in order;
    forall j | j in order[1..] ensures j in order && j != order[0] && Before(subs, order[0], j) {
      var k :| 0 <= k < |order[1..]| && order[1..][k] == j;
      assert order[k + 1] == j;
    }
  }

  /** One row in numbers, before and after a drain: it takes `taken`, and the rest goes on from `restNow`. */
  datatype Row = Row(left: nat, outlives: bool, open: bool, taken: nat, restLater: nat, restNow: nat)

  predicate RowFits(x: Row, want: nat) {
    && (x.outlives ==> x.open && x.restLater == x.restNow)
    && x.restLater <= x.restNow && x.taken == if x.open then Min(x.left, want) else 0
  }

  lemma LatestStep(x: Row, want: nat, remaining: nat, restAfter: nat, after: nat, later: nat, current: nat)
    requires RowFits(x, want) && remaining == want - x.taken
    requires restAfter == Min(x.restLater, Max(0, x.restNow - remaining))
    requires after == (if x.outlives then x.left - x.taken else 0) + restAfter
    requires later == (if x.outlives then x.left else 0) + x.restLater
    requires current == (if x.open then x.left else 0) + x.restNow
    ensures after == Min(later, Max(0, current - want))
  {
  }

  /** What is left after a drain outlives `t` as far as possible: the survivors are the latest to expire. */
  lemma {:induction false} DrainKeepsLatest(subs: seq<Subscription>, order: seq<nat>, want: nat, now: nat, t: nat)
    requires TimedOrder(subs, order) && now <= t
    ensures SumAvailable(DrainPacks(subs, order, want, now).subs, order, t)
            == Min(SumAvailable(subs, order, t), Max(0, SumAvailable(subs, order, now) - want))
    decreases |order|
  {
    if order == [] || want == 0 {
      LaterHoldsLess(subs, order, now, t);
    } else {
      var draw := DrawOne(subs[order[0]], want, now);
      var next, remaining := subs[order[0] := draw.0], want - draw.1;
      TimedTail(subs, order, draw.0);
      DrainKeepsLatest(next, order[1..], remaining, now, t);
      var x, restAfter, after, later, current := FirstRow(subs, order, want, now, t, next, remaining);
      LatestStep(x, want, remaining, restAfter, after, later, current);
    }
  }

  /** One row off the front of the order, before and after the drain. */
  lemma FirstRow(subs: seq<Subscription>, order: seq<nat>, want: nat, now: nat, t: nat, next: seq<Subscription>,
                 remaining: nat)
    returns (x: Row, restAfter: nat, after: nat, later: nat, current: nat)
    requires TimedOrder(subs, order) && now <= t && order != [] && want > 0
    requires next == subs[order[0] := DrawOne(subs[order[0]], want, now).0]
             && remaining == want - DrawOne(subs[order[0]], want, now).1
    ensures RowFits(x, want) && remaining == want - x.taken
    ensures x.restLater == SumAvailable(next, order[1..], t) && x.restNow == SumAvailable(next, order[1..], now)
    ensures restAfter == SumAvailable(DrainPacks(next, order[1..], remaining, now).subs, order[1..], t)
    ensures after == SumAvailable(DrainPacks(subs, order, want, now).subs, order, t)
    ensures later == SumAvailable(subs, order, t) && current == SumAvailable(subs, order, now)
    ensures after == (if x.outlives then x.left - x.taken else 0) + restAfter
    ensures later == (if x.outlives then x.left else 0) + x.restLater
    ensures current == (if x.open then x.left else 0) + x.restNow
  {
    var s, rest := subs[order[0]], order[1..];
    x := Row(Remaining(s), SortKey(s) > t, SortKey(s) > now, DrawOne(s, want, now).1,
             SumAvailable(next, rest, t), SumAvailable(next, rest, now));
    restAfter := SumAvailable(DrainPacks(next, rest, remaining, now).subs, rest, t);
    after := SumAvailable(DrainPacks(subs, order, want, now).subs, order, t);
    later, current := SumAvailable(subs, order, t), SumAvailable(subs, order, now);
    RestUnmoved(subs, next, rest, now, t);
    DrainUnfold(subs, order, want, now, t, next, remaining);
    RestOutlives(subs, rest, s.expiresAt.value, now, t);
    DrawTimed(s, want, now, t);
  }

  lemma DrainUnfold(subs: seq<Subscription>, order: seq<nat>, want: nat, now: nat, t: nat, next: seq<Subscription>,
                    remaining: nat)
    requires InRange(subs, order) && Distinct(order) && order != [] && want > 0
    requires next == subs[order[0] := DrawOne(subs[order[0]], want, now).0]
             && remaining == want - DrawOne(subs[order[0]], want, now).1
    ensures SumAvailable(DrainPacks(subs, order, want, now).subs, order, t)
            == Available(DrawOne(subs[order[0]], want, now).0, t)
               + SumAvailable(DrainPacks(next, order[1..], remaining, now).subs, order[1..], t)
  {
    DrainFrame(next, order[1..], remaining, now);
  }

  lemma DrawTimed(s: Subscription, want: nat, now: nat, t: nat)
    requires Timed(s) && now <= t
    ensures var e := s.expiresAt.value;
            var (r, taken) := DrawOne(s, want, now);
            && Available(s, now) == (if e > now then Remaining(s) else 0)
            && Available(s, t) == (if e > t then Remaining(s) else 0)
            && taken == (if e > now then Min(Remaining(s), want) else 0)
            && Available(r, t) == (if e > t then Remaining(s) - taken else 0)
            && SortKey(r) == SortKey(s)
  {
  }

  lemma RestUnmoved(subs: seq<Subscription>, next: seq<Subscription>, rest: seq<nat>, now: nat, t: nat)
    requires InRange(subs, rest) && |next| == |subs|
    requires forall j :: j in rest ==> subs[j] == next[j]
    ensures SumAvailable(next, rest, now) == SumAvailable(subs, rest, now)
    ensures SumAvailable(next, rest, t) == SumAvailable(subs, rest, t)
  {
    SumAvailableFrame(subs, next, rest, now);
    SumAvailableFrame(subs, next, rest, t);
  }

  lemma RestOutlives(subs: seq<Subscription>, rest: seq<nat>, e: nat, now: nat, t: nat)
    requires InRange(subs, rest) && now <= t
    requires forall j :: j in rest ==> Timed(subs[j]) && subs[j].expiresAt.value >= e
    ensures SumAvailable(subs, rest, t) <= SumAvailable(subs, rest, now)
    ensures e > t ==> SumAvailable(subs, rest, t) == SumAvailable(subs, rest, now)
  {
    LaterHoldsLess(subs, rest, now, t);
    if e > t {
      AllOutlive(subs, rest, now, t);
    }
  }

  lemma PacksOutliving(subs: seq<Subscription>, want: nat, now: nat, t: nat)
    requires now <= t
    requires forall i :: 0 <= i < |subs| && IsPack(subs[i]) ==> Timed(subs[i])
    ensures var p := DrainPacks(subs, PackOrder(subs, |subs|), want, now);
            PackCapacity(p.subs, |p.subs|, t)
            == Min(PackCapacity(subs, |subs|, t), Max(0, PackCapacity(subs, |subs|, now) - want))
    ensures PackCapacity(subs, |subs|, t) <= PackCapacity(subs, |subs|, now)
  {
    var order := PackOrder(subs, |subs|);
    var p := DrainPacks(subs, order, want, now);
    assert forall j :: j in order ==> IsPack(subs[j]);
    DrainKeepsLatest(subs, order, want, now, t);
    LaterHoldsLess(subs, order, now, t);
    PackStep(subs, want, now);
    forall i | 0 <= i < |subs| ensures IsPack(p.subs[i]) == IsPack(subs[i]) {
      assert SameRow(subs[i], p.subs[i]);
    }
    SumAvailablePacks(subs, subs, |subs|, now);
    SumAvailablePacks(subs, subs, |subs|, t);
    SumAvailablePacks(p.subs, subs, |subs|, t);
  }

  /** The packs before and after they have paid what they can of `units`. */
  lemma PackNumbers(subs: seq<Subscription>, p: Drawn, units: nat, now: nat, t: nat)
    returns (later: nat, current: nat, after: nat)
    requires now <= t && forall i :: 0 <= i < |subs| && IsPack(subs[i]) ==> Timed(subs[i])
    requires p == DrainPacks(subs, PackOrder(subs, |subs|), units, now)
    ensures later == PackCapacity(subs, |subs|, t) && current == PackCapacity(subs, |subs|, now)
    ensures after == PackCapacity(p.subs, |p.subs|, t) && later <= current
    ensures after == Min(later, Max(0, current - units)) && p.taken == Min(units, current)
  {
    later, current := PackCapacity(subs, |subs|, t), PackCapacity(subs, |subs|, now);
    after := PackCapacity(p.subs, |p.subs|, t);
    PacksOutliving(subs, units, now, t);
    PackStep(subs, units, now);
  }

  // ---- The pass, the packs and the wallet together ----

  /** Rows that agree on what they are and, with a running timer, on when it ends. */
  predicate Alike(s: Subscription, r: Subscription) {
    && IsRolling(r) == IsRolling(s) && IsPack(r) == IsPack(s)
    && (Timed(s) ==> Timed(r) && SortKey(r) == SortKey(s))
  }

  ghost predicate AlikeRows(subs: seq<Subscription>, others: seq<Subscription>) {
    |subs| == |others| && forall i :: 0 <= i < |subs| ==> Alike(subs[i], others[i])
  }

  /** The one pass stays where it is when rows change alike and only other rows are added. */
  lemma SamePass(subs: seq<Subscription>, others: seq<Subscription>)
    requires OnePass(subs) && |subs| <= |others|
    requires forall i :: 0 <= i < |subs| ==> IsRolling(others[i]) == IsRolling(subs[i])
    requires forall i :: |subs| <= i < |others| ==> !IsRolling(others[i])
    ensures OnePass(others) && FirstRolling(others, 0) == FirstRolling(subs, 0)
  {
    var r, q := FirstRolling(subs, 0), FirstRolling(others, 0);
    assert r.Some? ==> IsRolling(others[r.value]);
    assert q.Some? ==> IsRolling(others[q.value]);
  }

  lemma AlikeEarliest(subs: seq<Subscription>, others: seq<Subscription>)
    requires PassEarliest(subs) && AlikeRows(subs, others)
    ensures PassEarliest(others)
    ensures FirstRolling(others, 0) == FirstRolling(subs, 0) && PassExpiry(others) == PassExpiry(subs)
  {
    SamePass(subs, others);
    assert forall i :: 0 <= i < |subs| ==> Alike(subs[i], others[i]);
  }

  /** The pass before and after it has paid what it can of `units`, beside the packs. */
  lemma PassRow(subs: seq<Subscription>, units: nat, now: nat, t: nat) returns (r: Drawn, x: Row)
    requires PassEarliest(subs) && now <= t
    ensures r == DrainRolling(subs, units, now) && AlikeRows(subs, r.subs)
    ensures RowFits(x, units) && r.taken == x.taken
    ensures x.restLater == PackCapacity(r.subs, |r.subs|, t) == PackCapacity(subs, |subs|, t)
    ensures x.restNow == PackCapacity(r.subs, |r.subs|, now) == PackCapacity(subs, |subs|, now)
    ensures RollingCapacity(subs, t) == if x.outlives then x.left else 0
    ensures RollingCapacity(subs, now) == if x.open then x.left else 0
    ensures RollingCapacity(r.subs, t) == if x.outlives then x.left - x.taken else 0
  {
    var rolling := FirstRolling(subs, 0);
    r := DrainRolling(subs, units, now);
    x := Row(0, false, false, 0, PackCapacity(subs, |subs|, t), PackCapacity(subs, |subs|, now));
    PacksOutliving(subs, 0, now, t);
    if rolling.Some? {
      var s := subs[rolling.value];
      DrawTimed(s, units, now, t);
      x := x.(left := Remaining(s), outlives := SortKey(s) > t, open := SortKey(s) > now, taken := r.taken);
      if x.outlives {
        PacksAllOutlive(subs, |subs|, now, t);
      }
      SamePass(subs, r.subs);
    }
    PackCapacityFrame(subs, r.subs, |subs|, now);
    PackCapacityFrame(subs, r.subs, |subs|, t);
  }

  lemma {:induction false} PacksAllOutlive(subs: seq<Subscription>, n: nat, now: nat, t: nat)
    requires n <= |subs| && now <= t
    requires forall i :: 0 <= i < n && IsPack(subs[i]) ==> Timed(subs[i]) && SortKey(subs[i]) > t
    ensures PackCapacity(subs, n, t) == PackCapacity(subs, n, now)
  {
    if n > 0 {
      PacksAllOutlive(subs, n - 1, now, t);
    }
  }

  /** The pack loop leaves the pass alone. */
  lemma PassUntouched(subs: seq<Subscription>, p: Drawn, want: nat, now: nat, t: nat)
    requires PassEarliest(subs) && p == DrainPacks(subs, PackOrder(subs, |subs|), want, now)
    ensures AlikeRows(subs, p.subs) && RollingCapacity(p.subs, t) == RollingCapacity(subs, t)
  {
    PackStep(subs, want, now);
    DrainAlike(subs, PackOrder(subs, |subs|), want, now);
    AlikeEarliest(subs, p.subs);
  }

  lemma {:induction false} DrainAlike(subs: seq<Subscription>, order: seq<nat>, want: nat, now: nat)
    requires InRange(subs, order)
    ensures AlikeRows(subs, DrainPacks(subs, order, want, now).subs)
    decreases |order|
  {
    if order != [] && want > 0 {
      var draw := DrawOne(subs[order[0]], want, now);
      var next := subs[order[0] := draw.0];
      DrainAlike(next, order[1..], want - draw.1, now);
      assert AlikeRows(subs, next);
    }
  }

  lemma WaterfallAlike(a: Account, units: nat, now: nat)
    requires EarliestFirst(a)
    ensures AlikeRows(a.subs, Waterfall(a, units, now).subs)
  {
    var r, want, p, open, f := Legs(a, units, now);
    var q, x := PassRow(a.subs, units, now, now);
    DrainAlike(r.subs, PackOrder(r.subs, |r.subs|), want, now);
  }

  /** One charge: the pass and the packs before and after it, at the horizon `t`. */
  lemma ChargeNumbers(a: Account, units: nat, now: nat, t: nat)
    returns (f: Funding, x: Row, want: nat, restAfter: nat, packs: nat)
    requires EarliestFirst(a) && now <= t
    ensures f == Waterfall(a, units, now) && f.wallet == Min(want - packs, a.tokens)
    ensures RowFits(x, units) && want == units - x.taken
    ensures restAfter == Min(x.restLater, Max(0, x.restNow - want)) && packs == Min(want, x.restNow)
    ensures Allowance(a, t) == (if x.outlives then x.left else 0) + x.restLater + a.tokens
    ensures Allowance(a, now) == (if x.open then x.left else 0) + x.restNow + a.tokens
    ensures RollingCapacity(f.subs, t) == if x.outlives then x.left - x.taken else 0
    ensures PackCapacity(f.subs, |f.subs|, t) == restAfter
  {
    var r, p, open;
    r, want, p, open, f := Legs(a, units, now);
    r, x := PassRow(a.subs, units, now, t);
    AlikeEarliest(a.subs, r.subs);
    var later, current;
    later, current, restAfter := PackNumbers(r.subs, p, want, now, t);
    packs := p.taken;
    PassUntouched(r.subs, p, want, now, t);
  }

  lemma DeductedAllowance(a: Account, f: Funding, t: nat)
    requires f.wallet <= a.tokens && f.spentCents <= a.cents
    ensures Allowance(Deducted(a, f), t)
            == RollingCapacity(f.subs, t) + PackCapacity(f.subs, |f.subs|, t) + a.tokens - f.wallet
  {
  }

  /** What the account can pay at `t` and now, and what is left for `t` after the charge, in numbers. */
  lemma LeftNumbers(a: Account, units: nat, now: nat, t: nat) returns (later: nat, current: nat, left: int)
    requires EarliestFirst(a) && now <= t
    ensures later == Allowance(a, t) && current == Allowance(a, now)
    ensures left == Allowance(Deducted(a, Waterfall(a, units, now)), t)
    ensures left == Min(later, Max(0, current - units)) && later <= current
  {
    var f, x, want, restAfter, packs := ChargeNumbers(a, units, now, t);
    DeductedAllowance(a, f, t);
    later, current, left := Allowance(a, t), Allowance(a, now), Allowance(Deducted(a, f), t);
    ThreeLegs(x, units, want, restAfter, a.tokens, packs, f.wallet, later, current, left);
  }

  /** A charge leaves as much as it can for every later time. */
  lemma WaterfallOutliving(a: Account, units: nat, now: nat, t: nat)
    requires EarliestFirst(a) && now <= t
    ensures Allowance(Deducted(a, Waterfall(a, units, now)), t)
            == Min(Allowance(a, t), Max(0, Allowance(a, now) - units))
    ensures Allowance(a, t) <= Allowance(a, now)
  {
    var later, current, left := LeftNumbers(a, units, now, t);
  }

  /** The three legs in numbers. */
  lemma ThreeLegs(x: Row, units: nat, want: nat, restAfter: nat, tokens: nat, packs: nat, wallet: nat,
                  later: nat, current: nat, left: int)
    requires RowFits(x, units) && want == units - x.taken
    requires restAfter == Min(x.restLater, Max(0, x.restNow - want)) && packs == Min(want, x.restNow)
    requires wallet == Min(want - packs, tokens)
    requires later == (if x.outlives then x.left else 0) + x.restLater + tokens
    requires current == (if x.open then x.left else 0) + x.restNow + tokens
    requires left == (if x.outlives then x.left - x.taken else 0) + restAfter + tokens - wallet
    ensures left == Min(later, Max(0, current - units)) && later <= current
  {
    var after := (if x.outlives then x.left - x.taken else 0) + restAfter;
    LatestStep(x, units, want, restAfter, after, later - tokens, current - tokens);
    WalletLast(later - tokens, current - tokens, tokens, units, after, x.taken + packs, wallet);
  }

  /** The step above in numbers. */
  lemma WalletLast(later: nat, current: nat, tokens: nat, units: nat, after: int, taken: nat, wallet: nat)
    requires later <= current && after == Min(later, Max(0, current - units))
    requires taken == Min(units, current) && wallet == Min(tokens, units - taken)
    ensures after + tokens - wallet == Min(later + tokens, Max(0, current + tokens - units))
  {
  }

  lemma WaterfallShortfall(a: Account, units: nat, now: nat)
    requires EarliestFirst(a)
    ensures Waterfall(a, units, now).unfunded == Max(0, units - Allowance(a, now))
  {
    NoCentsCapacity(a);
    ShortfallExact(a, units, now);
  }

  lemma NoCentsCapacity(a: Account)
    requires a.cents == 0
    ensures CentsCapacity(a) == 0
  {
  }

  lemma {:induction false} MarkedCapacity(subs: seq<Subscription>, others: seq<Subscription>, n: nat, t: nat)
    requires |subs| == |others| && n <= |subs|
    requires forall i :: 0 <= i < n ==> others[i] == subs[i] || others[i] == MarkPastDue(subs[i])
    requires forall i :: 0 <= i < n && IsPack(subs[i]) ==> Timed(subs[i])
    ensures PackCapacity(others, n, t) == PackCapacity(subs, n, t)
  {
    if n > 0 {
      MarkedCapacity(subs, others, n - 1, t);
    }
  }

  lemma {:induction false} MarkAllRows(subs: seq<Subscription>, ids: seq<nat>)
    requires InRange(subs, ids)
    ensures var r := MarkAll(subs, ids);
            forall i :: 0 <= i < |subs| ==> r[i] == subs[i] || r[i] == MarkPastDue(subs[i])
    decreases |ids|
  {
    if ids != [] {
      MarkAllRows(subs[ids[0] := MarkPastDue(subs[ids[0]])], ids[1..]);
    }
  }

  lemma MarkShortfallRows(subs: seq<Subscription>, spent: seq<nat>)
    requires InRange(subs, spent)
    ensures var r := MarkShortfall(subs, spent);
            forall i :: 0 <= i < |subs| ==> r[i] == subs[i] || r[i] == MarkPastDue(subs[i])
  {
    MarkAllRows(subs, spent);
  }

  /** Marking a shortfall changes neither the pass nor what any row holds. */
  lemma MarkedAllowance(subs: seq<Subscription>, others: seq<Subscription>, t: nat)
    requires PassEarliest(subs) && |subs| == |others|
    requires forall i :: 0 <= i < |subs| ==> others[i] == subs[i] || others[i] == MarkPastDue(subs[i])
    ensures AlikeRows(subs, others)
    ensures RollingCapacity(others, t) == RollingCapacity(subs, t)
    ensures PackCapacity(others, |others|, t) == PackCapacity(subs, |subs|, t)
  {
    AlikeEarliest(subs, others);
    MarkedCapacity(subs, others, |subs|, t);
  }

  lemma RecordedRows(a: Account, units: nat, id: nat, f: Funding)
    requires InRange(a.subs, f.spent)
    ensures var b := Recorded(a, units, id, f);
            && b.plans == a.plans && b.tokens == a.tokens && b.cents == a.cents && |b.subs| == |a.subs|
            && forall i :: 0 <= i < |a.subs| ==> b.subs[i] == a.subs[i] || b.subs[i] == MarkPastDue(a.subs[i])
  {
    MarkShortfallRows(a.subs, f.spent);
  }

  /** The rows after a charge, before and after the shortfall is marked. */
  lemma ChargeRowsAfter(a: Account, units: nat, id: nat, now: nat)
    requires EarliestFirst(a) && units > 0 && !HasKey(a.ledger, FromUsage, Plain(id))
    ensures var b := ApplyUsage(a, units, id, now);
            var d := Deducted(a, Waterfall(a, units, now));
            && EarliestFirst(b) && b.plans == a.plans && PassExpiry(b.subs) == PassExpiry(a.subs)
            && (forall t: nat :: Allowance(b, t) == Allowance(d, t))
  {
    var b, f := ApplyUsage(a, units, id, now), Waterfall(a, units, now);
    var d := Deducted(a, f);
    WaterfallAlike(a, units, now);
    AlikeEarliest(a.subs, d.subs);
    RecordedRows(d, units, id, f);
    forall t: nat ensures Allowance(b, t) == Allowance(d, t) {
      MarkedAllowance(d.subs, b.subs, t);
    }
    MarkedAllowance(d.subs, b.subs, now);
    AlikeEarliest(d.subs, b.subs);
  }

  lemma ChargeShortfall(a: Account, units: nat, id: nat, now: nat)
    requires ShortfallsFollowDebits(a.ledger) && !HasKey(a.ledger, FromUsage, Plain(id))
    ensures Shortfall(ApplyUsage(a, units, id, now))
            == Shortfall(a) + if units == 0 then 0 else Waterfall(a, units, now).unfunded
  {
    ChargeLedger(a, units, id, now);
    RowsShortfall(a, units, id, now);
  }

  lemma RowsShortfall(a: Account, units: nat, id: nat, now: nat)
    ensures Total(a.ledger + ChargeRows(a, units, id, now), ShortfallOf)
            == Total(a.ledger, ShortfallOf) + if units == 0 then 0 else Waterfall(a, units, now).unfunded
  {
    ChargeRowsShape(a, units, id, now);
    TotalAppendRows(a.ledger, ChargeRows(a, units, id, now), ShortfallOf);
  }

  lemma ChargeStep(a: Account, units: nat, id: nat, now: nat)
    requires EarliestFirst(a) && ShortfallsFollowDebits(a.ledger) && !HasKey(a.ledger, FromUsage, Plain(id))
    ensures var b := ApplyUsage(a, units, id, now);
            && EarliestFirst(b) && b.plans == a.plans && PassExpiry(b.subs) == PassExpiry(a.subs)
            && ShortfallsFollowDebits(b.ledger)
            && Shortfall(b) == Shortfall(a) + Max(0, units - Allowance(a, now))
            && (forall t: nat :: t >= now ==>
                  Allowance(b, t) == Min(Allowance(a, t), Max(0, Allowance(a, now) - units)))
  {
    var b := ApplyUsage(a, units, id, now);
    ChargeShortfall(a, units, id, now);
    ChargeLedger(a, units, id, now);
    forall t: nat | t >= now ensures Allowance(b, t) == Min(Allowance(a, t), Max(0, Allowance(a, now) - units)) {
      ChargeLeaves(a, units, id, now, t);
    }
    if units > 0 {
      ChargeRowsAfter(a, units, id, now);
      WaterfallShortfall(a, units, now);
    }
  }

  lemma ChargeLeaves(a: Account, units: nat, id: nat, now: nat, t: nat)
    requires EarliestFirst(a) && !HasKey(a.ledger, FromUsage, Plain(id)) && now <= t
    ensures Allowance(ApplyUsage(a, units, id, now), t) == Min(Allowance(a, t), Max(0, Allowance(a, now) - units))
  {
    WaterfallOutliving(a, units, now, t);
    if units > 0 {
      ChargeRowsAfter(a, units, id, now);
    }
  }

  lemma {:induction false} PackCapacityPrefix(subs: seq<Subscription>, s: Subscription, n: nat, t: nat)
    requires n <= |subs|
    ensures PackCapacity(subs + [s], n, t) == PackCapacity(subs, n, t)
  {
    if n > 0 {
      PackCapacityPrefix(subs, s, n - 1, t);
    }
  }

  /** A new pack beside the pass and the packs. */
  lemma PackJoins(subs: seq<Subscription>, more: seq<Subscription>, s: Subscription, t: nat)
    requires PassEarliest(subs) && more == subs + [s] && Live(s) && s.purchaseMethod == Some(TokenPack) && Timed(s)
    requires PassExpiry(subs) <= SortKey(s)
    ensures PassEarliest(more) && PassExpiry(more) == PassExpiry(subs)
    ensures RollingCapacity(more, t) == RollingCapacity(subs, t)
    ensures PackCapacity(more, |more|, t) == PackCapacity(subs, |subs|, t) + Available(s, t)
  {
    SamePass(subs, more);
    PackCapacityPrefix(subs, s, |subs|, t);
  }

  /** A purchase that arrives brings a pack the pass does not outlast. */
  predicate InOrder(plans: map<PlanId, Plan>, subs: seq<Subscription>, e: Event) {
    Arrives(plans, e) ==> PassExpiry(subs) <= e.now + e.hours * HOUR
  }

  lemma BuyStep(a: Account, e: Event)
    requires EarliestFirst(a) && ShortfallsFollowDebits(a.ledger) && e.Buy? && InOrder(a.plans, a.subs, e)
    ensures var b := Serve(a, e);
            && EarliestFirst(b) && b.plans == a.plans && PassExpiry(b.subs) == PassExpiry(a.subs)
            && ShortfallsFollowDebits(b.ledger)
            && Shortfall(b) == Shortfall(a)
            && (forall t: nat :: Allowance(b, t)
                  == Allowance(a, t) + if Arrives(a.plans, e) && e.now + e.hours * HOUR > t then e.tokens else 0)
  {
    var b := Serve(a, e);
    if Arrives(a.plans, e) {
      var s := NewPack(e.planId, e.tokens, e.hours, e.now);
      var entry := GrantEntry(a, e.tokens, |a.subs|);
      TotalAppend(a.ledger, entry, ShortfallOf);
      ShortfallsAppend(a.ledger, entry);
      PackJoins(a.subs, b.subs, s, e.now);
      forall t: nat ensures Allowance(b, t) == Allowance(a, t) + Available(s, t) {
        PackJoins(a.subs, b.subs, s, t);
      }
    }
  }

  // ---- What any other order can do ----

  lemma {:induction false} SpendAfter(expiry: seq<nat>, left: seq<nat>, used: seq<nat>, rest: seq<nat>, now: nat,
                                      t: nat)
    requires |expiry| == |left| == |used| == |rest| && now <= t
    requires forall i :: 0 <= i < |left| ==> used[i] <= left[i] && rest[i] == left[i] - used[i]
    requires forall i :: 0 <= i < |left| && used[i] > 0 ==> expiry[i] > now
    ensures SumAfter(expiry, rest, t) + SumAfter(expiry, used, t) == SumAfter(expiry, left, t)
    ensures SumAfter(expiry, rest, t) <= SumAfter(expiry, rest, now)
    ensures SumAfter(expiry, used, t) <= SumAfter(expiry, used, now) == Sum(used)
  {
    if left != [] {
      var last := |left| - 1;
      SpendAfter(expiry[..last], left[..last], used[..last], rest[..last], now, t);
    }
  }

  /** One charge by anyone: G(t) rises to at most min(G(t) + units, G(now)). */
  lemma SpendStep(p: Pool, x: Allocation, units: nat, now: nat, t: nat)
    requires Feasible(p, x, units, now) && now <= t
    ensures var q := Spend(p, x);
            && PoolOutliving(q, t) + Granted(x) <= Min(PoolOutliving(p, t) + units, PoolOutliving(p, now))
            && Granted(x) <= Min(units, PoolOutliving(p, now))
  {
    var q := Spend(p, x);
    SpendAfter(p.expiry, p.left, x.fromPacks, q.left, now, t);
    SpendAfter(p.expiry, p.left, x.fromPacks, q.left, now, now);
  }

  // ---- The exchange argument over a run ----

  /** Times never run backwards, every charge has its own, unbilled id, and no bought pack expires before the pass. */
  ghost predicate Chronicle(a: Account, events: seq<Event>) {
    && (forall i, j :: 0 <= i < j < |events| ==> events[i].now <= events[j].now)
    && (forall i :: 0 <= i < |events| && events[i].Charge? ==> !HasKey(a.ledger, FromUsage, Plain(events[i].id)))
    && (forall i, j :: 0 <= i < j < |events| && events[i].Charge? && events[j].Charge? ==> events[i].id != events[j].id)
    && (forall i :: 0 <= i < |events| ==> InOrder(a.plans, a.subs, events[i]))
  }

  /** The code is ahead of the other spender: funded more, and with what is left, at every horizon from `from` on. */
  ghost predicate Ahead(b: Account, q: Pool, funded: int, granted: int, from: nat) {
    && WellFormed(q)
    && granted <= funded
    && forall t: nat :: t >= from ==> PoolOutliving(q, t) + granted <= Allowance(b, t) + funded
  }

  lemma AheadCharge(a: Account, b: Account, q: Pool, x: Allocation, units: nat, now: nat, funded: int, granted: int,
                    from: nat)
    requires Ahead(a, q, funded, granted, from) && from <= now
    requires Feasible(q, x, units, now)
    requires forall t: nat :: t >= now ==> Allowance(b, t) == Min(Allowance(a, t), Max(0, Allowance(a, now) - units))
    ensures Ahead(b, Spend(q, x), funded + units - Max(0, units - Allowance(a, now)), granted + Granted(x), now)
  {
    forall t: nat | t >= now
      ensures PoolOutliving(Spend(q, x), t) + granted + Granted(x)
              <= Allowance(b, t) + funded + units - Max(0, units - Allowance(a, now))
    {
      SpendStep(q, x, units, now, t);
    }
    SpendStep(q, x, units, now, now);
  }

  lemma SumAfterAppend(expiry: seq<nat>, left: seq<nat>, e: nat, l: nat, t: nat)
    requires |expiry| == |left|
    ensures SumAfter(expiry + [e], left + [l], t) == SumAfter(expiry, left, t) + if e > t then l else 0
  {
    assert (expiry + [e])[..|left|] == expiry && (left + [l])[..|left|] == left;
  }

  lemma AheadBuy(a: Account, b: Account, q: Pool, r: Pool, end: nat, tokens: nat, funded: int, granted: int, from: nat)
    requires Ahead(a, q, funded, granted, from)
    requires r == Pool(q.expiry + [end], q.left + [tokens], q.wallet)
    requires forall t: nat :: Allowance(b, t) == Allowance(a, t) + if end > t then tokens else 0
    ensures Ahead(b, r, funded, granted, from)
  {
    forall t: nat | t >= from ensures PoolOutliving(r, t) + granted <= Allowance(b, t) + funded {
      SumAfterAppend(q.expiry, q.left, end, tokens, t);
    }
  }

  lemma KeyFromRun(a: Account, e: Event, id: nat)
    requires ShortfallsFollowDebits(a.ledger)
    requires HasKey(Serve(a, e).ledger, FromUsage, Plain(id))
    ensures HasKey(a.ledger, FromUsage, Plain(id)) || (e.Charge? && e.id == id)
  {
    match e
    case Charge(units, i, now) =>
      if !HasKey(a.ledger, FromUsage, Plain(i)) {
        ChargeLedger(a, units, i, now);
        ChargeRowsShape(a, units, i, now);
        ChargeKeys(a.ledger, ChargeRows(a, units, i, now), i, id);
      }
    case Buy(planId, tokens, hours, now) =>
      if Arrives(a.plans, e) {
        HasKeyAppend(a.ledger, GrantEntry(a, tokens, |a.subs|), FromUsage, Plain(id));
      }
  }

  lemma {:induction false} KeysOfRun(a: Account, events: seq<Event>, id: nat)
    requires ShortfallsFollowDebits(a.ledger)
    ensures var b := ServeAll(a, events);
            && ShortfallsFollowDebits(b.ledger)
            && (HasKey(b.ledger, FromUsage, Plain(id)) ==>
                  HasKey(a.ledger, FromUsage, Plain(id))
                  || exists i :: 0 <= i < |events| && events[i].Charge? && events[i].id == id)
  {
    if events != [] {
      var prefix, e := events[..|events| - 1], events[|events| - 1];
      KeysOfRun(a, prefix, id);
      var b := ServeAll(a, prefix);
      if e.Charge? && !HasKey(b.ledger, FromUsage, Plain(e.id)) {
        ChargeLedger(b, e.units, e.id, e.now);
      } else if Arrives(b.plans, e) {
        ShortfallsAppend(b.ledger, GrantEntry(b, e.tokens, |b.subs|));
      }
      if HasKey(ServeAll(a, events).ledger, FromUsage, Plain(id)) {
        KeyFromRun(b, e, id);
        if HasKey(b.ledger, FromUsage, Plain(id)) && !HasKey(a.ledger, FromUsage, Plain(id)) {
          var i :| 0 <= i < |prefix| && prefix[i].Charge? && prefix[i].id == id;
          assert events[i].id == id;
        }
      }
    }
  }

  lemma NextChargeUnbilled(a: Account, events: seq<Event>)
    requires ShortfallsFollowDebits(a.ledger) && Chronicle(a, events) && events != []
    requires events[|events| - 1].Charge?
    ensures !HasKey(ServeAll(a, events[..|events| - 1]).ledger, FromUsage, Plain(events[|events| - 1].id))
  {
    KeysOfRun(a, events[..|events| - 1], events[|events| - 1].id);
  }

  lemma EventKeeps(b: Account, e: Event)
    requires EarliestFirst(b) && ShortfallsFollowDebits(b.ledger)
    requires e.Charge? ==> !HasKey(b.ledger, FromUsage, Plain(e.id))
    requires InOrder(b.plans, b.subs, e)
    ensures var c := Serve(b, e);
            && EarliestFirst(c) && c.plans == b.plans && PassExpiry(c.subs) == PassExpiry(b.subs)
            && ShortfallsFollowDebits(c.ledger)
  {
    if e.Charge? {
      ChargeStep(b, e.units, e.id, e.now);
    } else {
      BuyStep(b, e);
    }
  }

  lemma {:induction false} RunKeepsPacks(a: Account, events: seq<Event>)
    requires EarliestFirst(a) && ShortfallsFollowDebits(a.ledger) && Chronicle(a, events)
    ensures var b := ServeAll(a, events);
            && EarliestFirst(b) && b.plans == a.plans && PassExpiry(b.subs) == PassExpiry(a.subs)
            && ShortfallsFollowDebits(b.ledger)
  {
    if events != [] {
      var e := events[|events| - 1];
      RunKeepsPacks(a, events[..|events| - 1]);
      if e.Charge? {
        NextChargeUnbilled(a, events);
      }
      EventKeeps(ServeAll(a, events[..|events| - 1]), e);
    }
  }

  /** What the code has funded over a run. */
  function Funded(a: Account, events: seq<Event>): int {
    TotalUnits(events) - (Shortfall(ServeAll(a, events)) - Shortfall(a))
  }

  function LastTime(events: seq<Event>): nat { if events == [] then 0 else events[|events| - 1].now }

  /** The state of the race after one more event. */
  lemma RaceStep(b: Account, c: Account, q: Pool, r: Pool, e: Event, x: Allocation,
                 funded: int, granted: int, from: nat, moreFunded: int, moreGranted: int)
    requires EarliestFirst(b) && ShortfallsFollowDebits(b.ledger)
    requires Ahead(b, q, funded, granted, from) && from <= e.now && InOrder(b.plans, b.subs, e)
    requires e.Charge? ==> Feasible(q, x, e.units, e.now) && !HasKey(b.ledger, FromUsage, Plain(e.id))
    requires c == Serve(b, e) && r == PoolStep(q, b.plans, e, x)
    requires moreFunded == funded + (if e.Charge? then e.units else 0) - (Shortfall(c) - Shortfall(b))
    requires moreGranted == granted + (if e.Charge? then Granted(x) else 0)
    ensures Ahead(c, r, moreFunded, moreGranted, e.now)
  {
    if e.Charge? {
      ChargeStep(b, e.units, e.id, e.now);
      AheadCharge(b, c, q, x, e.units, e.now, funded, granted, from);
    } else {
      BuyStep(b, e);
      if Arrives(b.plans, e) {
        AheadBuy(b, c, q, r, e.now + e.hours * HOUR, e.tokens, funded, granted, from);
      }
    }
  }

  lemma {:induction false} AheadAlways(a: Account, events: seq<Event>, p: Pool, xs: seq<Allocation>)
    requires EarliestFirst(a) && ShortfallsFollowDebits(a.ledger) && Chronicle(a, events)
    requires Ahead(a, p, 0, 0, 0)
    requires FeasibleRun(p, a.plans, events, xs)
    ensures Ahead(ServeAll(a, events), PoolAfter(p, a.plans, events, xs), Funded(a, events),
                  TotalGranted(events, xs), LastTime(events))
    decreases |events|
  {
    if events != [] {
      var n := |events| - 1;
      var prefix, ys := events[..n], xs[..n];
      AheadAlways(a, prefix, p, ys);
      OneMoreEvent(a, events, p, xs);
    }
  }

  /** The race before and after the last event. */
  lemma BeforeLast(a: Account, events: seq<Event>, p: Pool, xs: seq<Allocation>)
    returns (b: Account, q: Pool, e: Event, x: Allocation, funded: int, granted: int, from: nat)
    requires EarliestFirst(a) && ShortfallsFollowDebits(a.ledger) && Chronicle(a, events) && events != []
    requires FeasibleRun(p, a.plans, events, xs)
    ensures var n := |events| - 1;
            && b == ServeAll(a, events[..n]) && q == PoolAfter(p, a.plans, events[..n], xs[..n])
            && funded == Funded(a, events[..n]) && granted == TotalGranted(events[..n], xs[..n])
            && from == LastTime(events[..n]) && e == events[n] && x == xs[n]
    ensures EarliestFirst(b) && ShortfallsFollowDebits(b.ledger) && from <= e.now && InOrder(b.plans, b.subs, e)
    ensures e.Charge? ==> Feasible(q, x, e.units, e.now) && !HasKey(b.ledger, FromUsage, Plain(e.id))
    ensures ServeAll(a, events) == Serve(b, e) && PoolAfter(p, a.plans, events, xs) == PoolStep(q, b.plans, e, x)
    ensures Funded(a, events)
            == funded + (if e.Charge? then e.units else 0) - (Shortfall(ServeAll(a, events)) - Shortfall(b))
    ensures TotalGranted(events, xs) == granted + (if e.Charge? then Granted(x) else 0)
    ensures LastTime(events) == e.now
  {
    var n := |events| - 1;
    b, q, e, x := ServeAll(a, events[..n]), PoolAfter(p, a.plans, events[..n], xs[..n]), events[n], xs[n];
    funded, granted, from := Funded(a, events[..n]), TotalGranted(events[..n], xs[..n]), LastTime(events[..n]);
    RunKeepsPacks(a, events[..n]);
    if e.Charge? {
      NextChargeUnbilled(a, events);
    }
    assert n > 0 ==> events[..n][n - 1] == events[n - 1];
  }

  lemma OneMoreEvent(a: Account, events: seq<Event>, p: Pool, xs: seq<Allocation>)
    requires EarliestFirst(a) && ShortfallsFollowDebits(a.ledger) && Chronicle(a, events) && events != []
    requires FeasibleRun(p, a.plans, events, xs)
    requires var n := |events| - 1;
             Ahead(ServeAll(a, events[..n]), PoolAfter(p, a.plans, events[..n], xs[..n]), Funded(a, events[..n]),
                   TotalGranted(events[..n], xs[..n]), LastTime(events[..n]))
    ensures Ahead(ServeAll(a, events), PoolAfter(p, a.plans, events, xs), Funded(a, events),
                  TotalGranted(events, xs), LastTime(events))
  {
    var b, q, e, x, funded, granted, from := BeforeLast(a, events, p, xs);
    var c, r := ServeAll(a, events), PoolAfter(p, a.plans, events, xs);
    RaceStep(b, c, q, r, e, x, funded, granted, from, Funded(a, events), TotalGranted(events, xs));
  }

  /** What a row holds at `t`, as a pool entry and as the code counts it. */
  lemma RowSeen(subs: seq<Subscription>, i: nat, t: nat)
    requires PassEarliest(subs) && i < |subs|
    ensures (if SortKey(subs[i]) > t then Spendable(subs[i]) else 0)
            == (if IsPack(subs[i]) then Available(subs[i], t) else 0)
               + if FirstRolling(subs, 0) == Some(i) then Available(subs[i], t) else 0
  {
  }

  lemma SumAfterPrefix(expiry: seq<nat>, left: seq<nat>, n: nat, t: nat)
    requires 0 < n <= |expiry| == |left|
    ensures SumAfter(expiry[..n], left[..n], t)
            == SumAfter(expiry[..n - 1], left[..n - 1], t) + if expiry[n - 1] > t then left[n - 1] else 0
  {
    assert expiry[..n][..n - 1] == expiry[..n - 1] && left[..n][..n - 1] == left[..n - 1];
  }

  lemma {:induction false} PoolSees(subs: seq<Subscription>, expiry: seq<nat>, left: seq<nat>, n: nat, t: nat)
    requires PassEarliest(subs) && |subs| == |expiry| == |left| && n <= |subs|
    requires forall i :: 0 <= i < |subs| ==> expiry[i] == SortKey(subs[i]) && left[i] == Spendable(subs[i])
    ensures var r := FirstRolling(subs, 0);
            SumAfter(expiry[..n], left[..n], t)
            == PackCapacity(subs, n, t) + if r.Some? && r.value < n then Available(subs[r.value], t) else 0
  {
    if n > 0 {
      PoolSees(subs, expiry, left, n - 1, t);
      SumAfterPrefix(expiry, left, n, t);
      RowSeen(subs, n - 1, t);
    }
  }

  /**
   * Over every run, the shortfall the ledger records is at most what any other feasible way of
   * spending the same pass, packs and wallet would leave unfunded.
   */
  lemma EarliestExpiryIsOptimal(a: Account, events: seq<Event>, xs: seq<Allocation>)
    requires EarliestFirst(a) && ShortfallsFollowDebits(a.ledger) && Chronicle(a, events)
    requires FeasibleRun(PoolOf(a), a.plans, events, xs)
    ensures Shortfall(ServeAll(a, events)) - Shortfall(a) <= TotalUnits(events) - TotalGranted(events, xs)
  {
    var p := PoolOf(a);
    forall t: nat ensures PoolOutliving(p, t) == Allowance(a, t) {
      PoolSees(a.subs, p.expiry, p.left, |a.subs|, t);
      assert p.expiry[..|a.subs|] == p.expiry && p.left[..|a.subs|] == p.left;
    }
    AheadAlways(a, events, p, xs);
  }
}
