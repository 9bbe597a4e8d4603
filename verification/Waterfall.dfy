// What one charge funds and in which order (src/billing/service.ts:587-724).

module WaterfallProofs {
  import opened Base
  import opened Pricing
  import opened Accounts

  /** Tokens a row can give a charge at `now`, counting a pending timer as started by it. */
  function Available(s: Subscription, now: nat): nat {
    var live := Activated(s, now);
    if WindowActive(live, now) then Remaining(live) else 0
  }

  function SumAvailable(subs: seq<Subscription>, order: seq<nat>, now: nat): nat
    requires InRange(subs, order)
  {
    if order == [] then 0 else Available(subs[order[0]], now) + SumAvailable(subs, order[1..], now)
  }

  /** The packs' allowance, summed in row order: independent of how the code sorts them. */
  function PackCapacity(subs: seq<Subscription>, n: nat, now: nat): nat
    requires n <= |subs|
  {
    if n == 0 then 0
    else PackCapacity(subs, n - 1, now) + (if IsPack(subs[n - 1]) then Available(subs[n - 1], now) else 0)
  }

  function RollingCapacity(subs: seq<Subscription>, now: nat): nat {
    var r := FirstRolling(subs, 0);
    if r.Some? then Available(subs[r.value], now) else 0
  }

  /** What the rows and the wallet could put towards a charge made at `now`. */
  function Allowance(a: Account, now: nat): nat {
    RollingCapacity(a.subs, now) + PackCapacity(a.subs, |a.subs|, now) + a.tokens
  }

  /** What they leave for the cents. */
  function OpenAfter(a: Account, units: nat, now: nat): nat { Max(0, units - Allowance(a, now)) }

  /** What the cents could exactly buy. */
  function CentsCapacity(a: Account): nat {
    var rate := PaygRate(a.plans, a.subs, 0);
    if rate.Some? then ExactTokens(rate.value, a.cents) else 0
  }

  function Capacity(a: Account, now: nat): nat { Allowance(a, now) + CentsCapacity(a) }

  /** No cents, no rate for them, or one whose conversions are exact. */
  ghost predicate NothingRounded(a: Account) {
    var rate := PaygRate(a.plans, a.subs, 0);
    a.cents == 0 || rate.None? || Exact(rate.value)
  }

  // ---- Order does not change the sum ----

  // `rows` may have moved on since `subs` fixed the order.
  lemma {:induction false} SumAvailableInsert(rows: seq<Subscription>, subs: seq<Subscription>, i: nat,
                                              order: seq<nat>, now: nat)
    requires |rows| == |subs| && i < |subs| && InRange(subs, order)
    ensures SumAvailable(rows, InsertByExpiry(subs, i, order), now)
            == Available(rows[i], now) + SumAvailable(rows, order, now)
  {
    if order == [] {
    } else if Before(subs, i, order[0]) {
      assert ([i] + order)[1..] == order;
    } else {
      SumAvailableInsert(rows, subs, i, order[1..], now);
      var rest := InsertByExpiry(subs, i, order[1..]);
      assert ([order[0]] + rest)[1..] == rest;
    }
  }

  lemma {:induction false} SumAvailablePacks(rows: seq<Subscription>, subs: seq<Subscription>, n: nat, now: nat)
    requires |rows| == |subs| && n <= |subs|
    requires forall i :: 0 <= i < n ==> IsPack(rows[i]) == IsPack(subs[i])
    ensures SumAvailable(rows, PackOrder(subs, n), now) == PackCapacity(rows, n, now)
  {
    if n > 0 {
      SumAvailablePacks(rows, subs, n - 1, now);
      if IsPack(subs[n - 1]) {
        SumAvailableInsert(rows, subs, n - 1, PackOrder(subs, n - 1), now);
      }
    }
  }

  lemma {:induction false} SumAvailableFrame(subs: seq<Subscription>, others: seq<Subscription>, order: seq<nat>,
                                             now: nat)
    requires |subs| == |others| && InRange(subs, order)
    requires forall j :: j in order ==> subs[j] == others[j]
    ensures SumAvailable(subs, order, now) == SumAvailable(others, order, now)
  {
    if order != [] {
      assert forall j :: j in order[1..] ==> j in order;
      SumAvailableFrame(subs, others, order[1..], now);
    }
  }

  ghost predicate Distinct(order: seq<nat>) {
    forall p, q :: 0 <= p < q < |order| ==> order[p] != order[q]
  }

  // ---- The pack loop, row by row ----

  lemma DrawGives(s: Subscription, want: nat, now: nat)
    ensures DrawOne(s, want, now).1 == Min(want, Available(s, now))
    ensures Available(DrawOne(s, want, now).0, now) == Available(s, now) - DrawOne(s, want, now).1
  {
  }

  /** Rows outside the order are not touched. */
  lemma {:induction false} DrainFrame(subs: seq<Subscription>, order: seq<nat>, want: nat, now: nat)
    requires InRange(subs, order)
    ensures forall j :: 0 <= j < |subs| && j !in order ==> DrainPacks(subs, order, want, now).subs[j] == subs[j]
    decreases |order|
  {
    if order != [] && want > 0 {
      var (s, taken) := DrawOne(subs[order[0]], want, now);
      assert forall j :: j in order[1..] ==> j in order;
      assert order[0] in order;
      DrainFrame(subs[order[0] := s], order[1..], want - taken, now);
    }
  }

  /** The loop takes as much as is asked and available. */
  lemma {:induction false} DrainGives(subs: seq<Subscription>, order: seq<nat>, want: nat, now: nat)
    requires InRange(subs, order) && Distinct(order)
    ensures DrainPacks(subs, order, want, now).taken == Min(want, SumAvailable(subs, order, now))
    decreases |order|
  {
    if order != [] && want > 0 {
      var (s, taken) := DrawOne(subs[order[0]], want, now);
      DrawGives(subs[order[0]], want, now);
      var next := subs[order[0] := s];
      SumAvailableFrame(subs, next, order[1..], now);
      DrainGives(next, order[1..], want - taken, now);
    }
  }

  /** ... and takes it out of the rows of the order. */
  lemma {:induction false} DrainTakes(subs: seq<Subscription>, order: seq<nat>, want: nat, now: nat)
    requires InRange(subs, order) && Distinct(order)
    ensures var r := DrainPacks(subs, order, want, now);
            SumAvailable(r.subs, order, now) == SumAvailable(subs, order, now) - r.taken
    decreases |order|
  {
    if order != [] && want > 0 {
      var draw := DrawOne(subs[order[0]], want, now);
      var next, remaining := subs[order[0] := draw.0], want - draw.1;
      DrainTakes(next, order[1..], remaining, now);
      FirstTakes(subs, order, want, now, next, remaining);
    }
  }

  lemma FirstTakes(subs: seq<Subscription>, order: seq<nat>, want: nat, now: nat, next: seq<Subscription>,
                   remaining: nat)
    requires InRange(subs, order) && Distinct(order) && order != [] && want > 0
    requires next == subs[order[0] := DrawOne(subs[order[0]], want, now).0]
             && remaining == want - DrawOne(subs[order[0]], want, now).1
    requires var rest := DrainPacks(next, order[1..], remaining, now);
             SumAvailable(rest.subs, order[1..], now) == SumAvailable(next, order[1..], now) - rest.taken
    ensures var r := DrainPacks(subs, order, want, now);
            SumAvailable(r.subs, order, now) == SumAvailable(subs, order, now) - r.taken
  {
    DrawGives(subs[order[0]], want, now);
    SumAvailableFrame(subs, next, order[1..], now);
    DrainFrame(next, order[1..], remaining, now);
    assert DrainPacks(next, order[1..], remaining, now).subs[order[0]] == next[order[0]];
  }

  /**
   * Exactly what the loop does to the pack in place `p`: nothing (its timer is not even started)
   * while the packs before it can pay, otherwise it pays for what they left open.
   */
  lemma {:induction false} DrainAt(subs: seq<Subscription>, order: seq<nat>, want: nat, now: nat, p: nat, open: int)
    requires InRange(subs, order) && Distinct(order) && p < |order|
    requires InRange(subs, order[..p]) && open == want - SumAvailable(subs, order[..p], now)
    ensures DrainPacks(subs, order, want, now).subs[order[p]]
            == if open > 0 then DrawOne(subs[order[p]], open, now).0 else subs[order[p]]
    decreases |order|
  {
    if want > 0 {
      var draw := DrawOne(subs[order[0]], want, now);
      var next, rest, remaining := subs[order[0] := draw.0], order[1..], want - draw.1;
      if p == 0 {
        DrainFrame(next, rest, remaining, now);
      } else {
        EarlierStep(subs, next, order, p, now);
        var left := remaining - SumAvailable(next, rest[..p - 1], now);
        LeftOpen(subs[order[0]], want, now, SumAvailable(next, rest[..p - 1], now), open);
        DrainAt(next, rest, remaining, now, p - 1, left);
        DrainOnward(subs, order, want, now, p, next, remaining);
      }
    }
  }

  /** What happens behind the first place happens in the drain of the rest. */
  lemma DrainOnward(subs: seq<Subscription>, order: seq<nat>, want: nat, now: nat, p: nat, next: seq<Subscription>,
                    remaining: nat)
    requires InRange(subs, order) && Distinct(order) && 0 < p < |order| && want > 0
    requires next == subs[order[0] := DrawOne(subs[order[0]], want, now).0]
             && remaining == want - DrawOne(subs[order[0]], want, now).1
    ensures DrainPacks(subs, order, want, now).subs[order[p]]
            == DrainPacks(next, order[1..], remaining, now).subs[order[1..][p - 1]]
    ensures next[order[1..][p - 1]] == subs[order[p]]
  {
  }

  /** What one row leaves open for the rest. */
  lemma LeftOpen(s: Subscription, want: nat, now: nat, others: nat, open: int)
    requires open == want - (Available(s, now) + others)
    ensures var left := want - DrawOne(s, want, now).1 - others;
            if open > 0 then left == open else left <= 0
  {
    DrawGives(s, want, now);
  }

  lemma EarlierStep(subs: seq<Subscription>, next: seq<Subscription>, order: seq<nat>, p: nat, now: nat)
    requires InRange(subs, order) && Distinct(order) && 0 < p < |order| && |next| == |subs|
    requires forall j :: 0 <= j < |subs| && j != order[0] ==> next[j] == subs[j]
    ensures InRange(subs, order[..p]) && InRange(next, order[1..][..p - 1])
    ensures SumAvailable(subs, order[..p], now)
            == Available(subs[order[0]], now) + SumAvailable(next, order[1..][..p - 1], now)
  {
    assert order[..p][1..] == order[1..][..p - 1];
    SumAvailableFrame(subs, next, order[1..][..p - 1], now);
  }

  lemma {:induction false} AvailableWithin(subs: seq<Subscription>, order: seq<nat>, j: nat, now: nat)
    requires InRange(subs, order) && j in order
    ensures Available(subs[j], now) <= SumAvailable(subs, order, now)
  {
    if j != order[0] {
      assert j in order[1..];
      AvailableWithin(subs, order[1..], j, now);
    }
  }

  // ---- The whole charge ----

  lemma {:induction false} PaygRateFrame(plans: map<PlanId, Plan>, subs: seq<Subscription>, others: seq<Subscription>,
                                         k: nat)
    requires |subs| == |others| && k <= |subs|
    requires forall i :: 0 <= i < |subs| ==> Live(subs[i]) == Live(others[i]) && subs[i].planId == others[i].planId
    ensures PaygRate(plans, subs, k) == PaygRate(plans, others, k)
    decreases |subs| - k
  {
    if k < |subs| {
      PaygRateFrame(plans, subs, others, k + 1);
    }
  }

  /** Neither loop changes what a row is: only its timer and its used tokens move. */
  ghost predicate SameRow(s: Subscription, t: Subscription) {
    t == s.(used := t.used, activatedAt := t.activatedAt, expiresAt := t.expiresAt)
  }

  ghost predicate SameRows(subs: seq<Subscription>, others: seq<Subscription>) {
    |subs| == |others| && forall i :: 0 <= i < |subs| ==> SameRow(subs[i], others[i])
  }

  lemma {:induction false} DrainKeepsRows(subs: seq<Subscription>, order: seq<nat>, want: nat, now: nat)
    requires InRange(subs, order)
    ensures SameRows(subs, DrainPacks(subs, order, want, now).subs)
    decreases |order|
  {
    if order != [] && want > 0 {
      var (s, taken) := DrawOne(subs[order[0]], want, now);
      DrainKeepsRows(subs[order[0] := s], order[1..], want - taken, now);
    }
  }

  lemma {:induction false} PackCapacityFrame(subs: seq<Subscription>, others: seq<Subscription>, n: nat, now: nat)
    requires |subs| == |others| && n <= |subs|
    requires forall i :: 0 <= i < n ==>
               IsPack(subs[i]) == IsPack(others[i]) && (IsPack(subs[i]) ==> subs[i] == others[i])
    ensures PackCapacity(subs, n, now) == PackCapacity(others, n, now)
  {
    if n > 0 {
      PackCapacityFrame(subs, others, n - 1, now);
    }
  }

  lemma RollingStep(subs: seq<Subscription>, want: nat, now: nat)
    ensures var r := DrainRolling(subs, want, now);
            && r.taken == Min(want, RollingCapacity(subs, now))
            && SameRows(subs, r.subs)
            && PackCapacity(r.subs, |r.subs|, now) == PackCapacity(subs, |subs|, now)
            && RollingCapacity(r.subs, now) == RollingCapacity(subs, now) - r.taken
  {
    var rolling := FirstRolling(subs, 0);
    var r := DrainRolling(subs, want, now);
    if rolling.Some? {
      DrawGives(subs[rolling.value], want, now);
      FirstRollingFrame(subs, r.subs, 0);
    }
    PackCapacityFrame(subs, r.subs, |subs|, now);
  }

  lemma {:induction false} FirstRollingFrame(subs: seq<Subscription>, others: seq<Subscription>, k: nat)
    requires SameRows(subs, others) && k <= |subs|
    ensures FirstRolling(subs, k) == FirstRolling(others, k)
    decreases |subs| - k
  {
    if k < |subs| {
      FirstRollingFrame(subs, others, k + 1);
    }
  }

  lemma PackStep(subs: seq<Subscription>, want: nat, now: nat)
    ensures var p := DrainPacks(subs, PackOrder(subs, |subs|), want, now);
            && p.taken == Min(want, PackCapacity(subs, |subs|, now))
            && SameRows(subs, p.subs)
            && SumAvailable(p.subs, PackOrder(subs, |subs|), now) == PackCapacity(subs, |subs|, now) - p.taken
            && (forall j :: 0 <= j < |subs| && !IsPack(subs[j]) ==> p.subs[j] == subs[j])
  {
    var order := PackOrder(subs, |subs|);
    SumAvailablePacks(subs, subs, |subs|, now);
    DrainGives(subs, order, want, now);
    DrainTakes(subs, order, want, now);
    DrainFrame(subs, order, want, now);
    DrainKeepsRows(subs, order, want, now);
  }

  /** The cents leg is the two conversions, whatever rows the rate was looked up in. */
  lemma CentsStep(plans: map<PlanId, Plan>, subs: seq<Subscription>, others: seq<Subscription>, balance: nat, open: nat)
    requires SameRows(subs, others)
    ensures SpendCents(plans, others, balance, open) == SpendCents(plans, subs, balance, open)
    ensures var (spent, covered) := SpendCents(plans, subs, balance, open);
            var rate := PaygRate(plans, subs, 0);
            if rate.None? then spent == 0 && covered == 0
            else spent == SpentCents(rate.value, balance, open) && covered == CoveredByCents(rate.value, balance, open)
  {
    PaygRateFrame(plans, subs, others, 0);
    var rate := PaygRate(plans, subs, 0);
    if rate.Some? {
      FreeIsFree(rate.value);
    }
  }

  lemma PackLeg(r: Drawn, units: nat, want: nat, now: nat) returns (p: Drawn)
    requires r.taken <= units && want == units - r.taken
    ensures p == DrainPacks(r.subs, PackOrder(r.subs, |r.subs|), want, now) && p == PacksAfter(r, units, now)
  {
    p := PacksAfter(r, units, now);
  }

  lemma CashLegs(plans: map<PlanId, Plan>, tokens: nat, cents: nat, units: nat, r: Drawn, p: Drawn, want: nat)
    returns (f: Funding, open: nat)
    requires r.taken + p.taken <= units && want == units - r.taken
    ensures f == WithCash(plans, tokens, cents, units, r, p)
    ensures f.subs == p.subs && f.spent == r.spent + p.spent && f.rolling == r.taken && f.packs == p.taken
    ensures f.wallet == Min(want - p.taken, tokens) && open == want - p.taken - f.wallet
            && f.unfunded == open - f.covered
    ensures (f.spentCents, f.covered) == SpendCents(plans, p.subs, cents, open)
  {
    f := WithCash(plans, tokens, cents, units, r, p);
    open := want - p.taken - f.wallet;
  }

  /** The waterfall leg by leg: what each leg is asked for and what it gives. */
  lemma Legs(a: Account, units: nat, now: nat) returns (r: Drawn, want: nat, p: Drawn, open: nat, f: Funding)
    ensures r == DrainRolling(a.subs, units, now) && want == units - r.taken
    ensures p == DrainPacks(r.subs, PackOrder(r.subs, |r.subs|), want, now) && f == Waterfall(a, units, now)
    ensures f.subs == p.subs && f.spent == r.spent + p.spent && f.rolling == r.taken && f.packs == p.taken
    ensures f.wallet == Min(want - p.taken, a.tokens) && open == want - p.taken - f.wallet
            && f.unfunded == open - f.covered
    ensures (f.spentCents, f.covered) == SpendCents(a.plans, p.subs, a.cents, open)
  {
    r := DrainRolling(a.subs, units, now);
    want := units - r.taken;
    p := PackLeg(r, units, want, now);
    f, open := CashLegs(a.plans, a.tokens, a.cents, units, r, p, want);
  }

  /** What is open after three legs, in numbers. */
  lemma OpenIs(units: nat, most: nat, more: nat, last: nat, rolling: nat, packs: nat, wallet: nat, open: int)
    requires rolling == Min(units, most) && packs == Min(units - rolling, more)
             && wallet == Min(units - rolling - packs, last)
    requires open == units - rolling - packs - wallet
    ensures open == Max(0, units - (most + more + last))
  {
  }

  /** The legs before the cents. */
  lemma FirstLegs(a: Account, units: nat, now: nat) returns (p: Drawn, open: nat, f: Funding)
    ensures f == Waterfall(a, units, now) && f.subs == p.subs && SameRows(a.subs, p.subs)
    ensures f.rolling == Min(units, RollingCapacity(a.subs, now))
    ensures f.packs == Min(units - f.rolling, PackCapacity(a.subs, |a.subs|, now))
    ensures f.wallet == Min(units - f.rolling - f.packs, a.tokens) && open == units - f.rolling - f.packs - f.wallet
    ensures (f.spentCents, f.covered) == SpendCents(a.plans, p.subs, a.cents, open) && f.unfunded == open - f.covered
  {
    var r, want;
    r, want, p, open, f := Legs(a, units, now);
    RollingStep(a.subs, units, now);
    PackStep(r.subs, want, now);
  }

  /** Each leg is used only once the legs before it are exhausted, and each gives all it can. */
  lemma LegsInOrder(a: Account, units: nat, now: nat)
    ensures var f := Waterfall(a, units, now);
            && f.rolling == Min(units, RollingCapacity(a.subs, now))
            && f.packs == Min(units - f.rolling, PackCapacity(a.subs, |a.subs|, now))
            && f.wallet == Min(units - f.rolling - f.packs, a.tokens)
            && (f.spentCents, f.covered) == SpendCents(a.plans, a.subs, a.cents, OpenAfter(a, units, now))
            && f.rolling + f.packs + f.wallet + f.covered + f.unfunded == units
            && f.unfunded == OpenAfter(a, units, now) - f.covered
            && SameRows(a.subs, f.subs)
  {
    var p, open, f := FirstLegs(a, units, now);
    OpenIs(units, RollingCapacity(a.subs, now), PackCapacity(a.subs, |a.subs|, now), a.tokens,
           f.rolling, f.packs, f.wallet, open);
    CentsStep(a.plans, a.subs, p.subs, a.cents, open);
  }

  /** The cents leg of a charge in terms of the rate. */
  lemma CentsLeg(a: Account, units: nat, now: nat)
    ensures var f, rate, open := Waterfall(a, units, now), PaygRate(a.plans, a.subs, 0), OpenAfter(a, units, now);
            if rate.None? then f.spentCents == 0 && f.covered == 0
            else f.spentCents == SpentCents(rate.value, a.cents, open)
                 && f.covered == CoveredByCents(rate.value, a.cents, open)
  {
    LegsInOrder(a, units, now);
    CentsStep(a.plans, a.subs, a.subs, a.cents, OpenAfter(a, units, now));
  }

  lemma PartGrows(m: nat, n: nat)
    requires m <= n
    ensures 2 * m / PRECISION <= 2 * n / PRECISION
  {
    QuotientBound(2 * n, PRECISION, 2 * m / PRECISION);
    QuotientBound(2 * m, PRECISION, 2 * m / PRECISION);
  }

  /** The cents leg against what the whole balance could exactly buy. */
  lemma CentsNearCapacity(a: Account, open: nat)
    ensures var covered, best := SpendCents(a.plans, a.subs, a.cents, open).1, Min(open, CentsCapacity(a));
            && best - 1 - 2 * open / PRECISION <= covered <= best + 1 + 2 * open / PRECISION
            && (NothingRounded(a) ==> covered == best)
  {
    var rate := PaygRate(a.plans, a.subs, 0);
    CentsStep(a.plans, a.subs, a.subs, a.cents, open);
    if rate.Some? {
      CoversAllItCan(rate.value, a.cents, open);
      FreeIsFree(rate.value);
    }
  }

  lemma ExcessIs(units: nat, allowance: nat, cents: nat, covered: int, unfunded: int, slack: nat, more: nat)
    requires unfunded == Max(0, units - allowance) - covered && slack <= more
    requires Min(Max(0, units - allowance), cents) - slack <= covered <= Min(Max(0, units - allowance), cents) + slack
    ensures Max(0, units - (allowance + cents)) - more <= unfunded <= Max(0, units - (allowance + cents)) + more
  {
  }

  /** What is open for the cents, and what they cover of it. */
  lemma CentsNumbers(a: Account, units: nat, now: nat)
    returns (allowance: nat, cents: nat, covered: nat, unfunded: nat, slack: nat)
    ensures allowance == Allowance(a, now) && cents == CentsCapacity(a)
    ensures unfunded == Waterfall(a, units, now).unfunded && unfunded == Max(0, units - allowance) - covered
    ensures slack == 1 + 2 * units / PRECISION
    ensures var best := Min(Max(0, units - allowance), cents);
            best - slack <= covered <= best + slack && (NothingRounded(a) ==> covered == best)
  {
    var open, f := OpenAfter(a, units, now), Waterfall(a, units, now);
    allowance, cents, covered, unfunded := Allowance(a, now), CentsCapacity(a), f.covered, f.unfunded;
    slack := 1 + 2 * units / PRECISION;
    LegsInOrder(a, units, now);
    CentsNearCapacity(a, open);
    PartGrows(open, units);
  }

  /**
   * Nothing goes unfunded while anything is left to spend: the shortfall is what exceeds the capacity,
   * exactly when no rounding is involved, and otherwise up to one token and at most one more in 2^50.
   */
  lemma ShortfallExact(a: Account, units: nat, now: nat)
    ensures var unfunded, excess := Waterfall(a, units, now).unfunded, Max(0, units - Capacity(a, now));
            && excess - 1 - 2 * units / PRECISION <= unfunded <= excess + 1 + 2 * units / PRECISION
            && (NothingRounded(a) ==> unfunded == excess)
  {
    var allowance, cents, covered, unfunded, slack := CentsNumbers(a, units, now);
    ExcessIs(units, allowance, cents, covered, unfunded, slack, slack);
    if NothingRounded(a) {
      ExcessIs(units, allowance, cents, covered, unfunded, 0, 0);
    }
  }

  lemma ShortfallEmptiesPacks(subs: seq<Subscription>, want: nat, now: nat)
    requires want > PackCapacity(subs, |subs|, now)
    ensures var p := DrainPacks(subs, PackOrder(subs, |subs|), want, now);
            forall i :: 0 <= i < |subs| && IsPack(p.subs[i]) ==> Available(p.subs[i], now) == 0
  {
    var order := PackOrder(subs, |subs|);
    var p := DrainPacks(subs, order, want, now);
    PackStep(subs, want, now);
    forall i | 0 <= i < |subs| && IsPack(p.subs[i]) ensures Available(p.subs[i], now) == 0 {
      assert IsPack(subs[i]);
      AvailableWithin(p.subs, order, i, now);
    }
  }

  lemma PacksSpareRolling(subs: seq<Subscription>, want: nat, now: nat)
    ensures var p := DrainPacks(subs, PackOrder(subs, |subs|), want, now);
            RollingCapacity(p.subs, now) == RollingCapacity(subs, now)
  {
    PackStep(subs, want, now);
    FirstRollingFrame(subs, DrainPacks(subs, PackOrder(subs, |subs|), want, now).subs, 0);
  }

  /**
   * A shortfall leaves every drawable window and the wallet empty, and with a rate the cents as well;
   * only a shortfall of one token, and at most one more in 2^50, can leave cents that rounding kept back.
   */
  lemma ShortfallExhausts(a: Account, units: nat, now: nat)
    requires Waterfall(a, units, now).unfunded > 0
    ensures var f, rate := Waterfall(a, units, now), PaygRate(a.plans, a.subs, 0);
            && (forall i :: 0 <= i < |a.subs| && IsPack(f.subs[i]) ==> Available(f.subs[i], now) == 0)
            && RollingCapacity(f.subs, now) == 0
            && f.wallet == a.tokens
            && (rate.Some? ==> f.spentCents == a.cents || f.unfunded <= 1 + 2 * units / PRECISION)
            && (rate.Some? && Exact(rate.value) ==> f.spentCents == a.cents)
  {
    RowsExhausted(a, units, now);
    if PaygRate(a.plans, a.subs, 0).Some? {
      CentsExhausted(a, units, now);
    }
  }

  lemma RowsExhausted(a: Account, units: nat, now: nat)
    requires Waterfall(a, units, now).unfunded > 0
    ensures var f := Waterfall(a, units, now);
            && (forall i :: 0 <= i < |a.subs| && IsPack(f.subs[i]) ==> Available(f.subs[i], now) == 0)
            && RollingCapacity(f.subs, now) == 0
            && f.wallet == a.tokens
  {
    LegsInOrder(a, units, now);
    RollingStep(a.subs, units, now);
    var r, want, p, open, f := Legs(a, units, now);
    ShortfallEmptiesPacks(r.subs, want, now);
    PacksSpareRolling(r.subs, want, now);
  }

  lemma CentsExhausted(a: Account, units: nat, now: nat)
    requires Waterfall(a, units, now).unfunded > 0 && PaygRate(a.plans, a.subs, 0).Some?
    ensures var f := Waterfall(a, units, now);
            && (f.spentCents == a.cents || f.unfunded <= 1 + 2 * units / PRECISION)
            && (Exact(PaygRate(a.plans, a.subs, 0).value) ==> f.spentCents == a.cents)
  {
    var rate, open := PaygRate(a.plans, a.subs, 0).value, OpenAfter(a, units, now);
    LegsInOrder(a, units, now);
    CentsLeg(a, units, now);
    PartGrows(open, units);
    EnoughOrAll(rate, a.cents, open);
    PriceCovers(rate, open);
  }

  /**
   * Money is not lost or invented but by rounding: without a rate no cent moves, and with one the cents a
   * charge takes are the price of the tokens they cover, to the cent (and at most one more in 2^51), and
   * exactly that price when the conversions are exact.
   */
  lemma CentsWellSpent(a: Account, units: nat, now: nat)
    ensures var f, rate := Waterfall(a, units, now), PaygRate(a.plans, a.subs, 0);
            if rate.None? then f.spentCents == 0 && f.covered == 0
            else
              var price := ExactCents(rate.value, f.covered);
              && price - 1 - f.spentCents / PRECISION <= f.spentCents <= price + 1 + f.spentCents / PRECISION
              && (f.spentCents > 0 <==> f.covered > 0)
              && (Exact(rate.value) ==> f.spentCents == price)
  {
    var rate := PaygRate(a.plans, a.subs, 0);
    CentsLeg(a, units, now);
    if rate.Some? {
      SpentIsPrice(rate.value, a.cents, OpenAfter(a, units, now));
    }
  }

  /** Cents that meet a rate always pay for something, however they round. */
  lemma CentsPaySomething(a: Account, units: nat, now: nat)
    ensures Waterfall(a, units, now).covered > 0
            <==> OpenAfter(a, units, now) > 0 && a.cents > 0 && PaygRate(a.plans, a.subs, 0).Some?
  {
    var rate, open := PaygRate(a.plans, a.subs, 0), OpenAfter(a, units, now);
    CentsLeg(a, units, now);
    if rate.Some? {
      SpentIsPrice(rate.value, a.cents, open);
      FreeIsFree(rate.value);
      if open > 0 {
        PriceIsPositive(rate.value, open);
      }
    }
  }
}
