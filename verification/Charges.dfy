// What one charge does to each row of the account (src/billing/service.ts:587-738): which rows pay, in
// which order and down to what, at whose rate, which are marked past due, and what the ledger says.

module Charges {
  import opened Base
  import opened Pricing
  import opened Accounts
  import opened WaterfallProofs
  import opened Conservation
  import FundingGate

  // ---- Who sets the rate ----

  /** A live subscription whose known plan carries a rate. */
  predicate Rated(plans: map<PlanId, Plan>, s: Subscription) {
    s.status != Canceled && s.planId in plans && plans[s.planId].overage.cents > 0
  }

  /** Row `i` is the oldest of them. */
  ghost predicate OldestRated(plans: map<PlanId, Plan>, subs: seq<Subscription>, i: nat) {
    i < |subs| && Rated(plans, subs[i]) && forall j :: 0 <= j < i ==> !Rated(plans, subs[j])
  }

  ghost predicate NoneRated(plans: map<PlanId, Plan>, subs: seq<Subscription>) {
    forall i :: 0 <= i < |subs| ==> !Rated(plans, subs[i])
  }

  lemma {:induction false} RateFrom(plans: map<PlanId, Plan>, subs: seq<Subscription>, k: nat, i: nat)
    requires k <= i && OldestRated(plans, subs, i)
    ensures PaygRate(plans, subs, k) == Some(plans[subs[i].planId].overage)
    decreases i - k
  {
    if k < i {
      RateFrom(plans, subs, k + 1, i);
    }
  }

  lemma {:induction false} RateNeedsRated(plans: map<PlanId, Plan>, subs: seq<Subscription>, k: nat)
    requires k <= |subs|
    ensures PaygRate(plans, subs, k).Some? <==> exists i :: k <= i < |subs| && Rated(plans, subs[i])
    decreases |subs| - k
  {
    if k < |subs| {
      RateNeedsRated(plans, subs, k + 1);
    }
  }

  /** Nothing open costs nothing, and no cents cover nothing. */
  lemma CentsAt(rate: Rate, balance: nat, open: nat)
    requires rate.cents > 0
    ensures Pricing.SpentCents(rate, balance, open) == if open == 0 then 0 else Min(balance, rate.centsFor(open))
    ensures var spent := Pricing.SpentCents(rate, balance, open);
            CoveredByCents(rate, balance, open) == if spent == 0 then 0 else Min(rate.tokensFor(spent), open)
  {
    FreeIsFree(rate);
  }

  lemma LeftForCents(a: Account, units: nat, now: nat) returns (f: Funding, open: nat)
    ensures f == Waterfall(a, units, now) && open == units - f.rolling - f.packs - f.wallet
    ensures open == OpenAfter(a, units, now)
  {
    LegsInOrder(a, units, now);
    f, open := Waterfall(a, units, now), OpenAfter(a, units, now);
  }

  /** Cents are spent at the rate of the oldest live subscription that has one, and not at all without one. */
  lemma CentsAtOldestRate(a: Account, units: nat, now: nat, i: nat)
    ensures var f := Waterfall(a, units, now);
            var open: int := units - f.rolling - f.packs - f.wallet;
            && open >= 0
            && (NoneRated(a.plans, a.subs) ==> f.spentCents == 0 && f.covered == 0)
            && (OldestRated(a.plans, a.subs, i) ==>
                  var rate := a.plans[a.subs[i].planId].overage;
                  && f.spentCents == (if open == 0 then 0 else Min(a.cents, rate.centsFor(open)))
                  && f.covered == if f.spentCents == 0 then 0 else Min(rate.tokensFor(f.spentCents), open))
  {
    var f, open := LeftForCents(a, units, now);
    CentsLeg(a, units, now);
    if NoneRated(a.plans, a.subs) {
      RateNeedsRated(a.plans, a.subs, 0);
    } else if OldestRated(a.plans, a.subs, i) {
      RateFrom(a.plans, a.subs, 0, i);
      CentsAt(a.plans[a.subs[i].planId].overage, a.cents, open);
    }
  }

  // ---- What happens to each row ----

  /** The row's window is open at `now`. */
  predicate OpenAt(s: Subscription, now: nat) {
    match s.durationHours
    case Some(_) => s.activatedAt.Some? && s.expiresAt.Some? && now < s.expiresAt.value
    case None => now < s.periodEnd
  }

  /** The row with its timer started at `now`. */
  function Started(s: Subscription, now: nat): Subscription {
    var hours := if s.durationHours.Some? then s.durationHours.value else 0;
    s.(activatedAt := Some(now), expiresAt := Some(now + hours * 3_600_000))
  }

  /** Only the used tokens and a waiting timer change; only an open window pays, up to what it includes. */
  ghost predicate Pays(s: Subscription, r: Subscription, now: nat) {
    && (|| r == s.(used := r.used)
        || (s.status == Active && s.timerBasis == Some(FromFirstUse) && s.activatedAt == None
            && r == Started(s, now).(used := r.used)))
    && s.used <= r.used
    && (s.used < r.used ==> OpenAt(r, now) && r.used <= r.included)
  }

  predicate LivePack(s: Subscription) {
    s.status != Canceled && (s.purchaseMethod == Some(TokenPack) || s.purchaseMethod == None)
  }

  predicate LivePass(s: Subscription) { s.status != Canceled && s.purchaseMethod == Some(RollingTime) }

  ghost predicate OldestPass(subs: seq<Subscription>, i: nat) {
    i < |subs| && LivePass(subs[i]) && forall j :: 0 <= j < i ==> !LivePass(subs[j])
  }

  lemma {:induction false} PassFrom(subs: seq<Subscription>, k: nat)
    requires k <= |subs|
    ensures var r := FirstRolling(subs, k);
            r.Some? ==> forall j :: k <= j < r.value ==> !LivePass(subs[j])
    decreases |subs| - k
  {
    if k < |subs| {
      PassFrom(subs, k + 1);
    }
  }

  lemma OldestPassFirst(subs: seq<Subscription>, i: nat)
    ensures FirstRolling(subs, 0) == Some(i) <==> OldestPass(subs, i)
  {
    PassFrom(subs, 0);
  }

  lemma DrawPays(s: Subscription, want: nat, now: nat)
    ensures Pays(s, DrawOne(s, want, now).0, now) && DrawOne(s, want, now).0.used == s.used + DrawOne(s, want, now).1
  {
  }

  /** What the loop does to the rows, and which of them it lists. */
  ghost predicate Drains(subs: seq<Subscription>, r: Drawn, now: nat) {
    && |r.subs| == |subs|
    && (forall i :: 0 <= i < |subs| ==> Pays(subs[i], r.subs[i], now))
    && (forall i: nat :: i < |subs| ==> (i in r.spent <==> subs[i].used < r.subs[i].used))
  }

  /** The drain of a nonempty order, first row and rest. */
  lemma DrainFirst(subs: seq<Subscription>, order: seq<nat>, want: nat, now: nat)
    returns (next: seq<Subscription>, rest: seq<nat>, remaining: nat, taken: nat, r: Drawn)
    requires InRange(subs, order) && Distinct(order) && order != [] && want > 0
    ensures |next| == |subs| && next == subs[order[0] := next[order[0]]] && Pays(subs[order[0]], next[order[0]], now)
    ensures next[order[0]].used == subs[order[0]].used + taken
    ensures rest == order[1..] && InRange(next, rest) && Distinct(rest)
    ensures r == DrainPacks(next, rest, remaining, now) && r.subs[order[0]] == next[order[0]]
    ensures DrainPacks(subs, order, want, now)
            == Drawn(r.subs, taken + r.taken, Spent(order[0], taken) + r.spent)
  {
    var draw := DrawOne(subs[order[0]], want, now);
    next, rest, remaining, taken := subs[order[0] := draw.0], order[1..], want - draw.1, draw.1;
    r := DrainPacks(next, rest, remaining, now);
    DrainFrame(next, rest, remaining, now);
    DrawPays(subs[order[0]], want, now);
  }

  lemma {:induction false} DrainPays(subs: seq<Subscription>, order: seq<nat>, want: nat, now: nat)
    requires InRange(subs, order) && Distinct(order)
    ensures Drains(subs, DrainPacks(subs, order, want, now), now)
    decreases |order|
  {
    if order != [] && want > 0 {
      var next, rest, remaining, taken, r := DrainFirst(subs, order, want, now);
      DrainPays(next, rest, remaining, now);
      FirstPays(subs, next, order[0], r, taken, now);
    } else {
      NothingDrained(subs, now);
    }
  }

  lemma NothingDrained(subs: seq<Subscription>, now: nat)
    ensures Drains(subs, Drawn(subs, 0, []), now)
  {
  }

  /** The first row of the order beside what happens to the rest. */
  lemma FirstPays(subs: seq<Subscription>, next: seq<Subscription>, k: nat, rest: Drawn, taken: nat, now: nat)
    requires k < |subs| == |next| && next == subs[k := next[k]]
    requires Pays(subs[k], next[k], now) && next[k].used == subs[k].used + taken
    requires Drains(next, rest, now) && rest.subs[k] == next[k]
    ensures Drains(subs, Drawn(rest.subs, taken + rest.taken, Spent(k, taken) + rest.spent), now)
  {
  }

  lemma PassPays(subs: seq<Subscription>, want: nat, now: nat)
    ensures Drains(subs, DrainRolling(subs, want, now), now)
    ensures var r := DrainRolling(subs, want, now);
            forall i: nat :: i < |subs| && !OldestPass(subs, i) ==> r.subs[i] == subs[i]
  {
    var rolling := FirstRolling(subs, 0);
    if rolling.Some? {
      DrawPays(subs[rolling.value], want, now);
      OldestPassFirst(subs, rolling.value);
    }
  }

  lemma BothPay(subs: seq<Subscription>, r: Drawn, p: Drawn, now: nat)
    requires Drains(subs, r, now) && Drains(r.subs, p, now)
    requires forall i: nat :: i < |subs| ==> r.subs[i] == subs[i] || p.subs[i] == r.subs[i]
    ensures Drains(subs, Drawn(p.subs, r.taken + p.taken, r.spent + p.spent), now)
  {
  }

  /** Only the oldest live pass and live packs pay. */
  ghost predicate Payer(subs: seq<Subscription>, i: nat)
    requires i < |subs|
  {
    LivePack(subs[i]) || OldestPass(subs, i)
  }

  /** Row by row, what a charge does: payers pay from open windows, no other row changes, and the payers are listed. */
  lemma RowsAfterCharge(a: Account, units: nat, now: nat)
    ensures var f := Waterfall(a, units, now);
            && |f.subs| == |a.subs|
            && (forall i: nat :: i < |a.subs| ==> Pays(a.subs[i], f.subs[i], now))
            && (forall i: nat :: i < |a.subs| && !Payer(a.subs, i) ==> f.subs[i] == a.subs[i])
            && (forall i: nat :: i < |a.subs| ==> (i in f.spent <==> a.subs[i].used < f.subs[i].used))
  {
    var r, want, p, open, f := Legs(a, units, now);
    var order := PackOrder(r.subs, |r.subs|);
    PassPays(a.subs, units, now);
    RollingStep(a.subs, units, now);
    DrainPays(r.subs, order, want, now);
    PackStep(r.subs, want, now);
    forall i: nat | i < |a.subs| ensures r.subs[i] == a.subs[i] || p.subs[i] == r.subs[i] {
      assert SameRow(a.subs[i], r.subs[i]);
    }
    BothPay(a.subs, r, p, now);
    forall i: nat | i < |a.subs| && !Payer(a.subs, i) ensures f.subs[i] == a.subs[i] {
      assert r.subs[i] == a.subs[i] && !IsPack(r.subs[i]);
    }
  }

  /** On a shortfall every payer with an open window has paid to its last token. */
  lemma ShortfallUsesUp(a: Account, units: nat, now: nat, i: nat)
    requires Waterfall(a, units, now).unfunded > 0 && i < |a.subs| && Payer(a.subs, i)
    ensures var s := Waterfall(a, units, now).subs[i];
            OpenAt(s, now) ==> s.used >= s.included
  {
    var f := Waterfall(a, units, now);
    ShortfallExhausts(a, units, now);
    LegsInOrder(a, units, now);
    assert SameRow(a.subs[i], f.subs[i]);
    if OldestPass(a.subs, i) {
      OldestPassFirst(a.subs, i);
      FirstRollingFrame(a.subs, f.subs, 0);
    }
  }

  // ---- In which order packs pay ----

  function EndOf(s: Subscription): nat {
    match s.expiresAt
    case Some(end) => end
    case None => s.periodEnd
  }

  /** Earlier end first; of two that end together, the older. */
  predicate PaysBefore(subs: seq<Subscription>, i: nat, j: nat)
    requires i < |subs| && j < |subs|
  {
    EndOf(subs[i]) < EndOf(subs[j]) || (EndOf(subs[i]) == EndOf(subs[j]) && i < j)
  }

  lemma {:induction false} SumSplit(subs: seq<Subscription>, order: seq<nat>, p: nat, q: nat, now: nat)
    requires InRange(subs, order) && p < q <= |order|
    ensures InRange(subs, order[..p]) && InRange(subs, order[..q])
    ensures SumAvailable(subs, order[..q], now) >= SumAvailable(subs, order[..p], now) + Available(subs[order[p]], now)
  {
    assert order[..q][1..] == order[1..][..q - 1];
    if p > 0 {
      assert order[..p][1..] == order[1..][..p - 1];
      SumSplit(subs, order[1..], p - 1, q - 1, now);
    }
  }

  /** In the drain: a later place is touched only once the earlier one has nothing left. */
  lemma LaterPlaceWaits(subs: seq<Subscription>, order: seq<nat>, want: nat, now: nat, p: nat, q: nat)
    requires InRange(subs, order) && Distinct(order) && p < q < |order|
    ensures var r := DrainPacks(subs, order, want, now).subs;
            r[order[q]] != subs[order[q]] ==> Available(r[order[p]], now) == 0
  {
    SumSplit(subs, order, p, q, now);
    var open, left := want - SumAvailable(subs, order[..q], now), want - SumAvailable(subs, order[..p], now);
    DrainAt(subs, order, want, now, q, open);
    DrainAt(subs, order, want, now, p, left);
    if open > 0 {
      DrawGives(subs[order[p]], left, now);
    }
  }

  lemma PacksInOrder(subs: seq<Subscription>, p: Drawn, want: nat, now: nat, i: nat, j: nat)
    requires p == DrainPacks(subs, PackOrder(subs, |subs|), want, now)
    requires i < |subs| && j < |subs| && LivePack(subs[i]) && LivePack(subs[j]) && PaysBefore(subs, i, j)
    ensures p.subs[j] != subs[j] ==> Available(p.subs[i], now) == 0
  {
    var order := PackOrder(subs, |subs|);
    var k :| 0 <= k < |order| && order[k] == i;
    var n :| 0 <= n < |order| && order[n] == j;
    LaterPlaceWaits(subs, order, want, now, k, n);
  }

  /** No pack is touched, and no timer of one is started, while a pack that ends earlier still holds tokens. */
  lemma EarlierPacksFirst(a: Account, units: nat, now: nat, i: nat, j: nat)
    requires i < |a.subs| && j < |a.subs| && LivePack(a.subs[i]) && LivePack(a.subs[j]) && PaysBefore(a.subs, i, j)
    ensures var f := Waterfall(a, units, now);
            f.subs[j] != a.subs[j] && OpenAt(f.subs[i], now) ==> f.subs[i].used >= f.subs[i].included
  {
    var r, want, packs, open, f := Legs(a, units, now);
    PacksSpared(a.subs, r, units, now, i);
    PacksSpared(a.subs, r, units, now, j);
    PacksInOrder(r.subs, packs, want, now, i, j);
    if Available(f.subs[i], now) == 0 {
      NothingLeft(f.subs[i], now);
    }
  }

  lemma PacksSpared(subs: seq<Subscription>, r: Drawn, units: nat, now: nat, i: nat)
    requires i < |subs| && LivePack(subs[i]) && r == DrainRolling(subs, units, now)
    ensures r.subs[i] == subs[i]
  {
    PassPays(subs, units, now);
  }

  lemma NothingLeft(s: Subscription, now: nat)
    requires Available(s, now) == 0
    ensures OpenAt(s, now) ==> s.used >= s.included
  {
  }

  // ---- What a shortfall marks ----

  /** The row paid, or nobody did and it is the newest live one. */
  ghost predicate ToMark(subs: seq<Subscription>, paid: seq<Subscription>, i: nat)
    requires i < |subs| == |paid|
  {
    || subs[i].used < paid[i].used
    || (&& (forall j :: 0 <= j < |subs| ==> subs[j].used == paid[j].used)
        && subs[i].status != Canceled && forall j :: i < j < |subs| ==> subs[j].status == Canceled)
  }

  lemma MarkRows(subs: seq<Subscription>, paid: seq<Subscription>, spent: seq<nat>)
    requires |paid| == |subs| && InRange(paid, spent)
    requires forall i: nat :: i < |subs| ==> paid[i].status == subs[i].status && subs[i].used <= paid[i].used
    requires forall i: nat :: i < |subs| ==> (i in spent <==> subs[i].used < paid[i].used)
    requires forall i: nat :: i in spent ==> subs[i].status != Canceled
    ensures var b := MarkShortfall(paid, spent);
            forall i: nat :: i < |subs| ==>
              b[i] == if ToMark(subs, paid, i) then paid[i].(status := PastDue) else paid[i]
  {
    FundingGate.MarkAllMarks(paid, spent);
    if spent == [] {
      assert forall i: nat :: i < |subs| ==> i !in spent;
    } else {
      assert spent[0] in spent;
    }
  }

  lemma RecordedMarks(a: Account, units: nat, id: nat, f: Funding)
    requires InRange(a.subs, f.spent)
    ensures Recorded(a, units, id, f).subs == if f.unfunded > 0 then MarkShortfall(a.subs, f.spent) else a.subs
  {
  }

  /**
   * Without a shortfall no status changes; with one, exactly the rows that paid become past due, or, when
   * none did, the newest live row.
   */
  lemma ShortfallMarks(a: Account, units: nat, id: nat, now: nat)
    requires !HasKey(a.ledger, FromUsage, Plain(id)) && units > 0
    ensures var b, f := ApplyUsage(a, units, id, now), Waterfall(a, units, now);
            && |b.subs| == |a.subs| == |f.subs|
            && forall i: nat :: i < |a.subs| ==>
                 b.subs[i] == if f.unfunded > 0 && ToMark(a.subs, f.subs, i) then f.subs[i].(status := PastDue)
                              else f.subs[i]
  {
    var f := PaidRows(a, units, now);
    RecordedMarks(Deducted(a, f), units, id, f);
    MarkRows(a.subs, f.subs, f.spent);
  }

  /** Only live rows pay, and none changes its status by paying. */
  lemma PaidRows(a: Account, units: nat, now: nat) returns (f: Funding)
    ensures f == Waterfall(a, units, now) && |f.subs| == |a.subs| && InRange(f.subs, f.spent)
    ensures forall i: nat :: i < |a.subs| ==> f.subs[i].status == a.subs[i].status && a.subs[i].used <= f.subs[i].used
    ensures forall i: nat :: i < |a.subs| ==> (i in f.spent <==> a.subs[i].used < f.subs[i].used)
    ensures forall i: nat :: i in f.spent ==> i < |a.subs| && a.subs[i].status != Canceled
  {
    f := Waterfall(a, units, now);
    RowsAfterCharge(a, units, now);
  }

  // ---- What the ledger says ----

  lemma ChargeMoney(a: Account, units: nat, id: nat, now: nat)
    requires !HasKey(a.ledger, FromUsage, Plain(id))
    ensures var b, f := ApplyUsage(a, units, id, now), Waterfall(a, units, now);
            b.tokens == a.tokens - f.wallet && b.cents == a.cents - f.spentCents
  {
    if units == 0 {
      ZeroCharge(a, now);
    }
  }

  /** The entries of a charge of `units`: what was funded, and what was not. */
  function Debited(id: nat, units: nat, unfunded: nat, tokens: nat, spent: nat, cents: nat): Entry {
    Entry(Debit, FromUsage, unfunded - units, Plain(id), tokens, if spent > 0 then Cents else Tokens, spent, cents)
  }

  function Missing(id: nat, unfunded: nat, tokens: nat, spent: nat, cents: nat): Entry {
    Entry(Adjustment, FromUsage, 0 - unfunded, Unfunded(id), tokens, if spent > 0 then Cents else Tokens, 0, cents)
  }

  lemma FundingWrites(a: Account, units: nat, id: nat, f: Funding, tokens: nat, cents: nat)
    requires tokens == a.tokens - f.wallet && cents == a.cents - f.spentCents
    ensures FundingRows(a, units, id, f)
            == [Debited(id, units, f.unfunded, tokens, f.spentCents, cents)]
               + if f.unfunded > 0 then [Missing(id, f.unfunded, tokens, f.spentCents, cents)] else []
  {
  }

  /** A charge's ledger rows: the funded tokens and the cents taken, then what went unfunded and the balances after. */
  lemma ChargeWrites(a: Account, units: nat, id: nat, now: nat)
    requires ShortfallsFollowDebits(a.ledger) && !HasKey(a.ledger, FromUsage, Plain(id))
    ensures var b, unfunded := ApplyUsage(a, units, id, now), Waterfall(a, units, now).unfunded;
            && b.cents <= a.cents
            && b.ledger == a.ledger
                 + ([Debited(id, units, unfunded, b.tokens, a.cents - b.cents, if units == 0 then 0 else b.cents)]
                    + if unfunded > 0 then [Missing(id, unfunded, b.tokens, a.cents - b.cents, b.cents)] else [])
  {
    var b := ApplyUsage(a, units, id, now);
    ChargeLedger(a, units, id, now);
    ChargeMoney(a, units, id, now);
    RowsOfCharge(a, units, id, now, Waterfall(a, units, now), b.tokens, b.cents);
  }

  lemma RowsOfCharge(a: Account, units: nat, id: nat, now: nat, f: Funding, tokens: nat, cents: nat)
    requires f == Waterfall(a, units, now) && tokens == a.tokens - f.wallet && cents == a.cents - f.spentCents
    ensures ChargeRows(a, units, id, now)
            == [Debited(id, units, f.unfunded, tokens, f.spentCents, if units == 0 then 0 else cents)]
               + if f.unfunded > 0 then [Missing(id, f.unfunded, tokens, f.spentCents, cents)] else []
  {
    if units == 0 {
      ZeroCharge(a, now);
      LegsInOrder(a, 0, now);
    } else {
      FundingWrites(a, units, id, f, tokens, cents);
    }
  }
}
