// The rows of one account (src/billing/service.ts) and the effect of each billing operation
// on them. The class in BillingService.dfy performs the operations in place; the functions
// here say what each of them leaves behind.
//
// A subscription's id is its position: rows are appended in creation order and never deleted.
// Times are milliseconds.

module Accounts {
  import opened Base
  import opened Pricing

  type PlanId = nat

  datatype Method = RollingTime | TokenPack | MonetaryPack | Payg
  datatype TimerBasis = FromPayment | FromFirstUse
  datatype Status = Active | PastDue | Canceled

  datatype Plan = Plan(
    includedTokens: nat,
    overage: Rate,
    active: bool,
    durationHours: Option<nat>,
    timerBasis: TimerBasis,
    resetsAllowed: nat,
    purchaseMethod: Method)

  datatype Subscription = Subscription(
    planId: PlanId,
    status: Status,
    periodEnd: nat,
    included: nat,
    used: nat,
    purchaseMethod: Option<Method>,
    durationHours: Option<nat>,
    timerBasis: Option<TimerBasis>,
    activatedAt: Option<nat>,
    expiresAt: Option<nat>,
    resetsRemaining: nat,
    modelGroupId: Option<nat>)

  datatype Kind = Grant | Purchase | Debit | Refund | Adjustment
  datatype Source = FromSubscription | FromPayg | FromAdmin | FromPaymentSource | FromUsage
  datatype Currency = Tokens | Cents

  /** `Plain(r)` is the reference `r`; `Unfunded(r)` is the reference `r + ":unfunded"`. */
  datatype Reference = Plain(id: nat) | Unfunded(id: nat)

  datatype Entry = Entry(
    kind: Kind,
    source: Source,
    tokens: int,
    reference: Reference,
    balanceAfter: nat,
    currency: Currency,
    cents: nat,
    balanceAfterCents: nat)

  datatype Account = Account(
    plans: map<PlanId, Plan>,
    subs: seq<Subscription>,
    tokens: nat,
    cents: nat,
    ledger: seq<Entry>,
    lastUsageAt: nat)

  datatype BillingError =
    | PlanNotFound | PlanInactive | PackTokensInvalid | PackDurationInvalid
    | ResetUnavailable | CreditMustBePositive
    | PaymentMethodInvalid | PaymentScopeInvalid | PaymentPlanMissing | PaymentAmountInvalid
    | PaymentTokensMissing | PaymentCentsMissing | PaygRateMissing
    | EntitlementSnapshotInvalid | InsufficientTokens

  datatype Outcome<+T> = Ok(value: T) | Err(error: BillingError)

  const HOUR: nat := 3_600_000
  const DAY: nat := 24 * HOUR
  const MAX_SAFE_INTEGER: nat := 9_007_199_254_740_991

  // ---- Ledger: UNIQUE(account_id, source, reference) ----

  predicate HasKey(ledger: seq<Entry>, source: Source, reference: Reference) {
    exists i :: 0 <= i < |ledger| && ledger[i].source == source && ledger[i].reference == reference
  }

  /** INSERT OR IGNORE. */
  function Record(ledger: seq<Entry>, e: Entry): seq<Entry> {
    if HasKey(ledger, e.source, e.reference) then ledger else ledger + [e]
  }

  /** UPDATE ledger_entries SET cents = ?, currency = 'tokens' WHERE source = ? AND reference = ?. */
  function StampCents(ledger: seq<Entry>, source: Source, reference: Reference, cents: nat): (r: seq<Entry>)
    ensures |r| == |ledger|
    ensures forall i :: 0 <= i < |ledger| ==>
              r[i] == if ledger[i].source == source && ledger[i].reference == reference
                      then ledger[i].(cents := cents, currency := Tokens) else ledger[i]
  {
    if ledger == [] then []
    else
      var e := ledger[|ledger| - 1];
      StampCents(ledger[..|ledger| - 1], source, reference, cents)
      + [if e.source == source && e.reference == reference then e.(cents := cents, currency := Tokens) else e]
  }

  // ---- Subscriptions ----

  /** status IN ('active','past_due'). */
  predicate Live(s: Subscription) { s.status != Canceled }

  predicate WindowActive(s: Subscription, now: nat) {
    if s.durationHours.Some? then
      s.activatedAt.Some? && s.expiresAt.Some? && s.expiresAt.value > now
    else
      s.periodEnd > now
  }

  function DurationMs(hours: Option<nat>): nat {
    if hours.Some? then hours.value * HOUR else 0
  }

  predicate Pending(s: Subscription) {
    s.timerBasis == Some(FromFirstUse) && s.activatedAt.None?
  }

  /** The row after `activateFirstUse`: only an active, still pending timer starts. */
  function Activated(s: Subscription, now: nat): Subscription {
    if Pending(s) && s.status == Active
    then s.(activatedAt := Some(now), expiresAt := Some(now + DurationMs(s.durationHours)))
    else s
  }

  function Remaining(s: Subscription): nat { Max(0, s.included - s.used) }

  function CancelWhere(subs: seq<Subscription>, cancel: Subscription -> bool): (r: seq<Subscription>)
    ensures |r| == |subs|
    ensures forall i :: 0 <= i < |subs| ==>
              r[i] == if Live(subs[i]) && cancel(subs[i]) then subs[i].(status := Canceled) else subs[i]
  {
    seq(|subs|, i requires 0 <= i < |subs| =>
      if Live(subs[i]) && cancel(subs[i]) then subs[i].(status := Canceled) else subs[i])
  }

  function PeriodMs(plan: Plan, periodDays: nat): nat {
    if plan.durationHours.Some? && plan.durationHours.value != 0
    then DurationMs(plan.durationHours) else periodDays * DAY
  }

  function NewSubscription(plan: Plan, planId: PlanId, now: nat, periodDays: nat): Subscription {
    var end := now + PeriodMs(plan, periodDays);
    var running := plan.timerBasis == FromPayment;
    Subscription(planId, Active, end, plan.includedTokens, 0, Some(plan.purchaseMethod), plan.durationHours,
                 Some(plan.timerBasis), if running then Some(now) else None,
                 if running then Some(end) else None, plan.resetsAllowed, None)
  }

  /** What a purchase of `plan` cancels: everything without a duration, the rolling pass with one. */
  function Replaced(plan: Plan, subs: seq<Subscription>): seq<Subscription> {
    if plan.durationHours.None? then CancelWhere(subs, (s: Subscription) => true)
    else if plan.purchaseMethod == RollingTime then
      CancelWhere(subs, (s: Subscription) => s.purchaseMethod == Some(RollingTime))
    else subs
  }

  function GrantEntry(a: Account, tokens: nat, id: nat): Entry {
    Entry(Grant, FromSubscription, tokens, Plain(id), a.tokens, Tokens, 0, 0)
  }

  function StartSubscription(a: Account, planId: PlanId, now: nat, periodDays: nat): Outcome<Account> {
    if planId !in a.plans then Err(PlanNotFound)
    else if !a.plans[planId].active then Err(PlanInactive)
    else
      var plan := a.plans[planId];
      Ok(a.(subs := Replaced(plan, a.subs) + [NewSubscription(plan, planId, now, periodDays)],
            ledger := Record(a.ledger, GrantEntry(a, plan.includedTokens, |a.subs|))))
  }

  function NewPack(planId: PlanId, tokens: nat, hours: nat, now: nat): Subscription {
    var end := now + hours * HOUR;
    Subscription(planId, Active, end, tokens, 0, Some(TokenPack), Some(hours), Some(FromPayment),
                 Some(now), Some(end), 0, None)
  }

  function StartDurationPack(a: Account, planId: PlanId, tokens: int, hours: int, now: nat): Outcome<Account> {
    if planId !in a.plans then Err(PlanNotFound)
    else if !(0 < tokens <= MAX_SAFE_INTEGER) then Err(PackTokensInvalid)
    else if !(1 <= hours <= 8_760) then Err(PackDurationInvalid)
    else
      Ok(a.(subs := a.subs + [NewPack(planId, tokens, hours, now)],
            ledger := Record(a.ledger, GrantEntry(a, tokens, |a.subs|))))
  }

  function ActivateFirstUse(a: Account, id: nat, now: nat): Account {
    if id < |a.subs| then a.(subs := a.subs[id := Activated(a.subs[id], now)]) else a
  }

  function Restarted(s: Subscription, now: nat): Subscription
    requires s.resetsRemaining > 0
  {
    s.(activatedAt := Some(now), expiresAt := Some(now + DurationMs(s.durationHours)),
       used := 0, resetsRemaining := s.resetsRemaining - 1)
  }

  function ResetSubscription(a: Account, id: nat, now: nat): Outcome<Account> {
    if id < |a.subs| && a.subs[id].status == Active && a.subs[id].resetsRemaining > 0
    then Ok(a.(subs := a.subs[id := Restarted(a.subs[id], now)]))
    else Err(ResetUnavailable)
  }

  function CancelSubscription(a: Account): Account {
    a.(subs := CancelWhere(a.subs, (s: Subscription) => true))
  }

  function Credit(a: Account, tokens: int, source: Source, reference: Reference, kind: Kind): Outcome<Account> {
    if tokens <= 0 then Err(CreditMustBePositive)
    else if HasKey(a.ledger, source, reference) then Ok(a)
    else
      Ok(a.(tokens := a.tokens + tokens,
            ledger := Record(a.ledger, Entry(kind, source, tokens, reference, a.tokens + tokens, Tokens, 0, 0))))
  }

  // ---- The charging waterfall ----

  /** The first live rolling pass at or after position `k`. */
  function FirstRolling(subs: seq<Subscription>, k: nat): (r: Option<nat>)
    requires k <= |subs|
    ensures r.Some? ==> && k <= r.value < |subs| && Live(subs[r.value])
                        && subs[r.value].purchaseMethod == Some(RollingTime)
    ensures r.None? ==> forall i :: k <= i < |subs| && Live(subs[i]) ==> subs[i].purchaseMethod != Some(RollingTime)
    decreases |subs| - k
  {
    if k == |subs| then None
    else if Live(subs[k]) && subs[k].purchaseMethod == Some(RollingTime) then Some(k)
    else FirstRolling(subs, k + 1)
  }

  predicate IsPack(s: Subscription) {
    Live(s) && (s.purchaseMethod == Some(TokenPack) || s.purchaseMethod == None)
  }

  function SortKey(s: Subscription): nat {
    if s.expiresAt.Some? then s.expiresAt.value else s.periodEnd
  }

  /** Earliest expiry first; the sort is stable, so equal expiries keep creation order. */
  predicate Before(subs: seq<Subscription>, i: nat, j: nat)
    requires i < |subs| && j < |subs|
  {
    SortKey(subs[i]) < SortKey(subs[j]) || (SortKey(subs[i]) == SortKey(subs[j]) && i < j)
  }

  ghost predicate InRange(subs: seq<Subscription>, order: seq<nat>) {
    forall p :: 0 <= p < |order| ==> order[p] < |subs|
  }

  ghost predicate Ordered(subs: seq<Subscription>, order: seq<nat>) {
    InRange(subs, order) && forall p, q :: 0 <= p < q < |order| ==> Before(subs, order[p], order[q])
  }

  function InsertByExpiry(subs: seq<Subscription>, i: nat, order: seq<nat>): (r: seq<nat>)
    requires i < |subs| && InRange(subs, order)
    ensures InRange(subs, r)
    ensures forall j :: j in r <==> j == i || j in order
    ensures Ordered(subs, order) && i !in order ==> Ordered(subs, r)
  {
    if order == [] then [i]
    else if Before(subs, i, order[0]) then [i] + order
    else
      var rest := InsertByExpiry(subs, i, order[1..]);
      assert forall j :: j in order <==> j == order[0] || j in order[1..];
      assert Ordered(subs, order) ==> forall j :: j in order[1..] ==> Before(subs, order[0], j);
      assert forall q :: 0 <= q < |rest| ==> rest[q] in rest;
      [order[0]] + rest
  }

  /** The packs among the first `n` rows, earliest expiry first. */
  function PackOrder(subs: seq<Subscription>, n: nat): (r: seq<nat>)
    requires n <= |subs|
    ensures Ordered(subs, r)
    ensures forall j: nat :: j in r <==> j < n && IsPack(subs[j])
  {
    if n == 0 then []
    else if IsPack(subs[n - 1]) then InsertByExpiry(subs, n - 1, PackOrder(subs, n - 1))
    else PackOrder(subs, n - 1)
  }

  /** Spends up to `want` tokens from one row at `now`, starting its timer if it is still pending. */
  function DrawOne(s: Subscription, want: nat, now: nat): (r: (Subscription, nat))
    ensures r.1 <= want
  {
    var live := Activated(s, now);
    var taken := if WindowActive(live, now) then Min(Remaining(live), want) else 0;
    (live.(used := live.used + taken), taken)
  }

  datatype Drawn = Drawn(subs: seq<Subscription>, taken: nat, spent: seq<nat>)

  function Spent(id: nat, taken: nat): seq<nat> { if taken > 0 then [id] else [] }

  /** The pack loop: stops as soon as nothing is left to fund. */
  function DrainPacks(subs: seq<Subscription>, order: seq<nat>, want: nat, now: nat): (r: Drawn)
    requires InRange(subs, order)
    ensures r.taken <= want && |r.subs| == |subs| && InRange(subs, r.spent)
    decreases |order|
  {
    if order == [] || want == 0 then Drawn(subs, 0, [])
    else
      var (s, taken) := DrawOne(subs[order[0]], want, now);
      var rest := DrainPacks(subs[order[0] := s], order[1..], want - taken, now);
      Drawn(rest.subs, taken + rest.taken, Spent(order[0], taken) + rest.spent)
  }

  function DrainRolling(subs: seq<Subscription>, want: nat, now: nat): (r: Drawn)
    ensures r.taken <= want && |r.subs| == |subs| && InRange(subs, r.spent)
  {
    var rolling := FirstRolling(subs, 0);
    if rolling.None? then Drawn(subs, 0, [])
    else
      var (s, taken) := DrawOne(subs[rolling.value], want, now);
      Drawn(subs[rolling.value := s], taken, Spent(rolling.value, taken))
  }

  /** The first live subscription whose plan carries a rate, from position `k`. */
  function PaygRate(plans: map<PlanId, Plan>, subs: seq<Subscription>, k: nat): (r: Option<Rate>)
    requires k <= |subs|
    ensures r.Some? ==> r.value.cents > 0
    decreases |subs| - k
  {
    if k == |subs| then None
    else if Live(subs[k]) && subs[k].planId in plans && plans[subs[k].planId].overage.cents > 0
    then Some(plans[subs[k].planId].overage)
    else PaygRate(plans, subs, k + 1)
  }

  /** How one charge was funded, and the rows after it. `covered` is the part bought with `spentCents`. */
  datatype Funding = Funding(
    subs: seq<Subscription>,
    rolling: nat,
    packs: nat,
    wallet: nat,
    spentCents: nat,
    covered: nat,
    unfunded: nat,
    spent: seq<nat>)

  /** The cents leg: cents spent and tokens they cover. */
  function SpendCents(plans: map<PlanId, Plan>, subs: seq<Subscription>, balance: nat, open: nat): (r: (nat, nat))
    ensures r.0 <= balance && r.1 <= open
  {
    var rate := if open > 0 && balance > 0 then PaygRate(plans, subs, 0) else None;
    if rate.None? then (0, 0)
    else
      var spent := SpentCents(rate.value, balance, open);
      (spent, if spent > 0 then Min(TokensAt(rate.value, spent), open) else 0)
  }

  /** The packs pay, by earliest expiry, for what the rolling pass left open. */
  function PacksAfter(rolled: Drawn, units: nat, now: nat): (r: Drawn)
    requires rolled.taken <= units
    ensures rolled.taken + r.taken <= units && |r.subs| == |rolled.subs| && InRange(rolled.subs, r.spent)
  {
    DrainPacks(rolled.subs, PackOrder(rolled.subs, |rolled.subs|), units - rolled.taken, now)
  }

  /** The wallet, then the cents, pay for the rest. */
  function WithCash(plans: map<PlanId, Plan>, tokens: nat, cents: nat, units: nat,
                    rolled: Drawn, packed: Drawn): (f: Funding)
    requires rolled.taken + packed.taken <= units
    ensures f.wallet <= tokens && f.spentCents <= cents
    ensures f.subs == packed.subs && f.spent == rolled.spent + packed.spent
  {
    var due := units - rolled.taken - packed.taken;
    var wallet := Min(tokens, due);
    var open := due - wallet;
    var (spentCents, covered) := SpendCents(plans, packed.subs, cents, open);
    Funding(packed.subs, rolled.taken, packed.taken, wallet, spentCents, covered, open - covered,
            rolled.spent + packed.spent)
  }

  function Waterfall(a: Account, units: nat, now: nat): (f: Funding)
    ensures f.wallet <= a.tokens && f.spentCents <= a.cents
    ensures |f.subs| == |a.subs| && InRange(f.subs, f.spent)
  {
    var rolled := DrainRolling(a.subs, units, now);
    WithCash(a.plans, a.tokens, a.cents, units, rolled, PacksAfter(rolled, units, now))
  }

  /** The newest live row among the first `n`. */
  function NewestLive(subs: seq<Subscription>, n: nat): (r: Option<nat>)
    requires n <= |subs|
    ensures r.Some? ==> r.value < n && Live(subs[r.value])
    ensures r.Some? ==> forall i :: r.value < i < n ==> !Live(subs[i])
    ensures r.None? ==> forall i :: 0 <= i < n ==> !Live(subs[i])
  {
    if n == 0 then None else if Live(subs[n - 1]) then Some(n - 1) else NewestLive(subs, n - 1)
  }

  function MarkPastDue(s: Subscription): Subscription {
    if Live(s) then s.(status := PastDue) else s
  }

  function MarkAll(subs: seq<Subscription>, ids: seq<nat>): (r: seq<Subscription>)
    requires InRange(subs, ids)
    ensures |r| == |subs|
    decreases |ids|
  {
    if ids == [] then subs else MarkAll(subs[ids[0] := MarkPastDue(subs[ids[0]])], ids[1..])
  }

  /** A shortfall marks what was spent, or the newest live row when nothing was. */
  function MarkShortfall(subs: seq<Subscription>, spent: seq<nat>): (r: seq<Subscription>)
    requires InRange(subs, spent)
    ensures |r| == |subs|
  {
    if spent != [] then MarkAll(subs, spent)
    else
      var latest := NewestLive(subs, |subs|);
      if latest.Some? then subs[latest.value := MarkPastDue(subs[latest.value])] else subs
  }

  function DebitEntry(id: nat, units: nat, f: Funding, tokensAfter: nat, centsAfter: nat): Entry {
    Entry(Debit, FromUsage, -(units - f.unfunded), Plain(id), tokensAfter,
          if f.spentCents > 0 then Cents else Tokens, f.spentCents, centsAfter)
  }

  function ShortfallEntry(id: nat, f: Funding, tokensAfter: nat, centsAfter: nat): Entry {
    Entry(Adjustment, FromUsage, 0 - f.unfunded, Unfunded(id), tokensAfter,
          if f.spentCents > 0 then Cents else Tokens, 0, centsAfter)
  }

  /** The rows once `f` has been taken from them. */
  function Deducted(a: Account, f: Funding): Account
    requires f.wallet <= a.tokens && f.spentCents <= a.cents
  {
    a.(subs := f.subs, tokens := a.tokens - f.wallet, cents := a.cents - f.spentCents)
  }

  /** The debit, and for a shortfall its own row and the past-due marks. */
  function Recorded(a: Account, units: nat, id: nat, f: Funding): Account
    requires InRange(a.subs, f.spent)
  {
    var debited := Record(a.ledger, DebitEntry(id, units, f, a.tokens, a.cents));
    if f.unfunded > 0 then
      a.(subs := MarkShortfall(a.subs, f.spent),
         ledger := Record(debited, ShortfallEntry(id, f, a.tokens, a.cents)))
    else a.(ledger := debited)
  }

  function ApplyUsage(a: Account, units: nat, id: nat, now: nat): Account {
    if HasKey(a.ledger, FromUsage, Plain(id)) then a
    else if units == 0 then
      a.(ledger := Record(a.ledger, Entry(Debit, FromUsage, 0, Plain(id), a.tokens, Tokens, 0, 0)))
    else
      var f := Waterfall(a, units, now);
      Recorded(Deducted(a, f), units, id, f)
  }

  // ---- Payments ----

  /** A parsed entitlement snapshot. Absent fields are `None`. */
  datatype Snapshot = Snapshot(
    purchaseMethod: Option<Method>,
    planId: Option<PlanId>,
    modelGroupId: Option<Option<nat>>,
    tokens: Option<int>,
    balanceCents: Option<int>,
    amountCents: Option<int>,
    durationHours: Option<int>)

  datatype Settlement = Settlement(
    account: Account,
    tokensGranted: nat,
    centsGranted: nat,
    subscription: Option<nat>)

  function OrElse(x: Option<int>, d: int): int { if x.Some? then x.value else d }

  function PaymentMark(a: Account, paymentId: nat, currency: Currency, cents: nat): Entry {
    Entry(Grant, FromPaymentSource, 0, Plain(paymentId), a.tokens, currency, cents,
          if currency == Cents then a.cents else 0)
  }

  function SettleRolling(a: Account, paymentId: nat, s: Snapshot, now: nat): Outcome<Settlement> {
    if s.planId.None? then Err(PaymentPlanMissing)
    else
      match StartSubscription(a, s.planId.value, now, 30)
      case Err(e) => Err(e)
      case Ok(b) =>
        var id := |a.subs|;
        var grouped := if s.modelGroupId.Some? && id < |b.subs|
                       then b.(subs := b.subs[id := b.subs[id].(modelGroupId := s.modelGroupId.value)]) else b;
        Ok(Settlement(grouped.(ledger := Record(grouped.ledger, PaymentMark(grouped, paymentId, Tokens, 0))),
                      0, 0, Some(id)))
  }

  function SettlePack(a: Account, paymentId: nat, s: Snapshot, tokens: int, cents: int, now: nat): Outcome<Settlement> {
    var equivalent := OrElse(s.amountCents, cents);
    if tokens <= 0 then Err(PaymentTokensMissing)
    else if equivalent < 0 then Err(PaymentAmountInvalid)
    else if s.durationHours.Some? then
      var hours := s.durationHours.value;
      if !(0 < hours <= MAX_SAFE_INTEGER) then Err(PaymentAmountInvalid)
      else if s.planId.None? then Err(PaymentPlanMissing)
      else
        match StartDurationPack(a, s.planId.value, tokens, hours, now)
        case Err(e) => Err(e)
        case Ok(b) =>
          Ok(Settlement(b.(ledger := StampCents(b.ledger, FromSubscription, Plain(|a.subs|), equivalent)),
                        tokens, 0, Some(|a.subs|)))
    else
      match Credit(a, tokens, FromPaymentSource, Plain(paymentId), Purchase)
      case Err(e) => Err(e)
      case Ok(b) =>
        Ok(Settlement(b.(ledger := StampCents(b.ledger, FromPaymentSource, Plain(paymentId), equivalent)),
                      tokens, 0, None))
  }

  function SettleMoney(a: Account, paymentId: nat, cents: int): Outcome<Settlement> {
    if PaygRate(a.plans, a.subs, 0).None? then Err(PaygRateMissing)
    else if cents <= 0 then Err(PaymentCentsMissing)
    else
      var b := a.(cents := a.cents + cents);
      Ok(Settlement(b.(ledger := Record(b.ledger, PaymentMark(b, paymentId, Cents, cents))), 0, cents, None))
  }

  /** `inScope`: the payment row exists, belongs to the account and carries an order id. */
  function SettlePaymentSnapshot(a: Account, paymentId: nat, inScope: bool, s: Snapshot, now: nat)
    : Outcome<Settlement>
  {
    if s.purchaseMethod.None? then Err(PaymentMethodInvalid)
    else if !inScope then Err(PaymentScopeInvalid)
    else if HasKey(a.ledger, FromPaymentSource, Plain(paymentId)) then Ok(Settlement(a, 0, 0, None))
    else if s.purchaseMethod.value == RollingTime then SettleRolling(a, paymentId, s, now)
    else
      var tokens := OrElse(s.tokens, 0);
      var cents := OrElse(s.balanceCents, 0);
      if tokens < 0 || cents < 0 then Err(PaymentAmountInvalid)
      else if s.purchaseMethod.value == TokenPack then SettlePack(a, paymentId, s, tokens, cents, now)
      else SettleMoney(a, paymentId, cents)
  }

  // ---- The funding gate (after its reconcile) ----

  predicate GateOpens(s: Subscription, now: nat) {
    Live(s) && (Pending(s) || (WindowActive(s, now) && Remaining(s) > 0))
  }

  predicate AssertFunded(a: Account, now: nat) {
    (exists i :: 0 <= i < |a.subs| && GateOpens(a.subs[i], now)) || a.tokens > 0 || a.cents > 0
  }
}
