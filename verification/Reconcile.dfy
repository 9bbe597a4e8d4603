// Pulling settled usage into the ledger in batches behind a cursor (src/billing/service.ts:908-958).

module Reconciliation {
  import opened Base
  import opened Accounts
  import opened Budget
  import Billing = Conservation

  const BATCH: nat := 500

  predicate Billed(a: Account, id: nat) { HasKey(a.ledger, FromUsage, Plain(id)) }

  /** The WHERE clause of the selection. */
  predicate Selectable(r: UsageRow, tenant: nat, a: Account) {
    r.tenant == tenant && r.state == Settled && r.createdAt >= a.lastUsageAt && !Billed(a, r.id)
  }

  function Select(rows: seq<UsageRow>, tenant: nat, a: Account): (s: seq<UsageRow>)
    ensures forall r :: r in s <==> r in rows && Selectable(r, tenant, a)
  {
    if rows == [] then []
    else
      var prefix, last := rows[..|rows| - 1], rows[|rows| - 1];
      assert rows == prefix + [last];
      var s := Select(prefix, tenant, a);
      if Selectable(last, tenant, a) then s + [last] else s
  }

  lemma DistinctAppend(rows: seq<UsageRow>, last: UsageRow)
    requires DistinctIds(rows) && forall r :: r in rows ==> r.id != last.id
    ensures DistinctIds(rows + [last])
  {
  }

  lemma {:induction false} SelectDistinct(rows: seq<UsageRow>, tenant: nat, a: Account)
    requires DistinctIds(rows)
    ensures DistinctIds(Select(rows, tenant, a))
  {
    if rows != [] {
      var prefix, last := rows[..|rows| - 1], rows[|rows| - 1];
      SelectDistinct(prefix, tenant, a);
      if Selectable(last, tenant, a) {
        DistinctAppend(Select(prefix, tenant, a), last);
      }
    }
  }

  /** ORDER BY created_at, id. */
  predicate Precedes(r: UsageRow, s: UsageRow) {
    r.createdAt < s.createdAt || (r.createdAt == s.createdAt && r.id < s.id)
  }

  ghost predicate Sorted(rows: seq<UsageRow>) {
    forall i, j :: 0 <= i < j < |rows| ==> Precedes(rows[i], rows[j])
  }

  function Insert(r: UsageRow, rows: seq<UsageRow>): (s: seq<UsageRow>)
    ensures |s| == |rows| + 1
    ensures forall x :: x in s <==> x == r || x in rows
    ensures Sorted(rows) && (forall x :: x in rows ==> x.id != r.id) ==> Sorted(s)
  {
    if rows == [] then [r]
    else if Precedes(r, rows[0]) then [r] + rows
    else
      var rest := Insert(r, rows[1..]);
      assert forall x :: x in rows <==> x == rows[0] || x in rows[1..];
      assert Sorted(rows) ==> forall x :: x in rows[1..] ==> Precedes(rows[0], x);
      assert forall i :: 0 <= i < |rest| ==> rest[i] in rest;
      [rows[0]] + rest
  }

  function Sort(rows: seq<UsageRow>): (s: seq<UsageRow>)
    ensures |s| == |rows|
    ensures forall x :: x in s <==> x in rows
    ensures DistinctIds(rows) ==> Sorted(s)
  {
    if rows == [] then []
    else
      var prefix, last := rows[..|rows| - 1], rows[|rows| - 1];
      assert rows == prefix + [last];
      assert DistinctIds(rows) ==> forall x :: x in prefix ==> x.id != last.id;
      Insert(last, Sort(prefix))
  }

  /** The selected rows, oldest first, at most one batch of them. */
  function Batch(rows: seq<UsageRow>, tenant: nat, a: Account): seq<UsageRow> {
    var s := Sort(Select(rows, tenant, a));
    if |s| <= BATCH then s else s[..BATCH]
  }

  function BillAll(a: Account, batch: seq<UsageRow>, now: nat): Account {
    if batch == [] then a
    else
      var last := batch[|batch| - 1];
      ApplyUsage(BillAll(a, batch[..|batch| - 1], now), last.units, last.id, now)
  }

  function Watermark(since: nat, batch: seq<UsageRow>): nat {
    if batch == [] then since else Max(Watermark(since, batch[..|batch| - 1]), batch[|batch| - 1].createdAt)
  }

  function Reconcile(a: Account, rows: seq<UsageRow>, tenant: nat, now: nat): Account {
    var batch := Batch(rows, tenant, a);
    if batch == [] then a
    else BillAll(a, batch, now).(lastUsageAt := Watermark(a.lastUsageAt, batch))
  }

  // ---- A batch ----

  function UsageOps(batch: seq<UsageRow>, now: nat): (ops: seq<Billing.Op>)
    ensures |ops| == |batch|
  {
    seq(|batch|, i requires 0 <= i < |batch| => Billing.Usage(batch[i].units, batch[i].id, now))
  }

  lemma RunLast(a: Account, ops: seq<Billing.Op>, prefix: seq<Billing.Op>, op: Billing.Op)
    requires ops == prefix + [op]
    ensures Billing.Run(a, ops) == Billing.Step(Billing.Run(a, prefix), op)
  {
    assert ops[..|prefix|] == prefix;
  }

  lemma UsageStep(a: Account, op: Billing.Op)
    requires op.Usage?
    ensures Billing.Step(a, op) == ApplyUsage(a, op.units, op.usageId, op.now)
  {
  }

  lemma UsageOpsLast(batch: seq<UsageRow>, now: nat)
    requires batch != []
    ensures var last := batch[|batch| - 1];
            UsageOps(batch, now) == UsageOps(batch[..|batch| - 1], now) + [Billing.Usage(last.units, last.id, now)]
  {
  }

  /** A batch is a run of charges, so every law of runs holds across it. */
  lemma {:induction false} BatchIsRun(a: Account, batch: seq<UsageRow>, now: nat)
    ensures BillAll(a, batch, now) == Billing.Run(a, UsageOps(batch, now))
  {
    if batch != [] {
      var prefix, last := batch[..|batch| - 1], batch[|batch| - 1];
      BatchIsRun(a, prefix, now);
      UsageOpsLast(batch, now);
      var op := Billing.Usage(last.units, last.id, now);
      RunLast(a, UsageOps(batch, now), UsageOps(prefix, now), op);
      UsageStep(Billing.Run(a, UsageOps(prefix, now)), op);
    }
  }

  lemma ChargeBills(a: Account, units: nat, id: nat, now: nat, other: nat)
    requires Billing.ShortfallsFollowDebits(a.ledger)
    ensures var b := ApplyUsage(a, units, id, now);
            && Billing.ShortfallsFollowDebits(b.ledger)
            && b.lastUsageAt == a.lastUsageAt
            && (Billed(b, other) <==> Billed(a, other) || other == id)
  {
    if !Billed(a, id) {
      Billing.ChargeLedger(a, units, id, now);
      Billing.ChargeRowsShape(a, units, id, now);
      Billing.ChargeKeys(a.ledger, Billing.ChargeRows(a, units, id, now), id, other);
    }
  }

  predicate Names(batch: seq<UsageRow>, id: nat) { exists i :: 0 <= i < |batch| && batch[i].id == id }

  lemma NamesLast(batch: seq<UsageRow>, id: nat)
    requires batch != []
    ensures Names(batch, id) <==> Names(batch[..|batch| - 1], id) || batch[|batch| - 1].id == id
  {
    var prefix := batch[..|batch| - 1];
    if Names(prefix, id) {
      var i :| 0 <= i < |prefix| && prefix[i].id == id;
      assert batch[i].id == id;
    }
    if Names(batch, id) && batch[|batch| - 1].id != id {
      var i :| 0 <= i < |batch| && batch[i].id == id;
      assert prefix[i].id == id;
    }
  }

  lemma {:induction false} BatchBills(a: Account, batch: seq<UsageRow>, now: nat, id: nat)
    requires Billing.ShortfallsFollowDebits(a.ledger)
    ensures var b := BillAll(a, batch, now);
            && Billing.ShortfallsFollowDebits(b.ledger)
            && b.lastUsageAt == a.lastUsageAt
            && (Billed(b, id) <==> Billed(a, id) || Names(batch, id))
  {
    if batch != [] {
      var last := batch[|batch| - 1];
      var b := BillAll(a, batch[..|batch| - 1], now);
      BatchBills(a, batch[..|batch| - 1], now, id);
      NamesLast(batch, id);
      ChargeBills(b, last.units, last.id, now, id);
      assert BillAll(a, batch, now) == ApplyUsage(b, last.units, last.id, now);
    }
  }

  lemma ReconcileSound(a: Account, rows: seq<UsageRow>, tenant: nat, now: nat)
    requires Billing.ShortfallsFollowDebits(a.ledger)
    ensures Billing.ShortfallsFollowDebits(Reconcile(a, rows, tenant, now).ledger)
  {
    BatchBills(a, Batch(rows, tenant, a), now, 0);
  }

  lemma {:induction false} WatermarkBounds(since: nat, batch: seq<UsageRow>)
    ensures Watermark(since, batch) >= since
    ensures forall r :: r in batch ==> r.createdAt <= Watermark(since, batch)
    ensures Watermark(since, batch) == since || exists r :: r in batch && r.createdAt == Watermark(since, batch)
  {
    if batch != [] {
      var prefix, last := batch[..|batch| - 1], batch[|batch| - 1];
      WatermarkBounds(since, prefix);
      assert batch == prefix + [last];
    }
  }

  /** Every selected row is in the batch or comes after all of it. */
  lemma BatchIsOldest(rows: seq<UsageRow>, tenant: nat, a: Account, r: UsageRow)
    requires DistinctIds(rows) && r in rows && Selectable(r, tenant, a)
    ensures var batch := Batch(rows, tenant, a);
            r in batch || (|batch| == BATCH && forall x :: x in batch ==>
                             x.createdAt < r.createdAt || (x.createdAt == r.createdAt && x.id < r.id))
  {
    SelectDistinct(rows, tenant, a);
    var s := Sort(Select(rows, tenant, a));
    assert r in s;
    var k :| 0 <= k < |s| && s[k] == r;
  }

  lemma BatchSelected(rows: seq<UsageRow>, tenant: nat, a: Account)
    requires DistinctIds(rows)
    ensures var batch := Batch(rows, tenant, a);
            && Sorted(batch) && |batch| <= BATCH
            && forall x :: x in batch ==> x in rows && Selectable(x, tenant, a)
  {
    SelectDistinct(rows, tenant, a);
    var s := Sort(Select(rows, tenant, a));
    assert forall x :: x in Batch(rows, tenant, a) ==> x in s;
  }

  // ---- One call ----

  lemma NamesMeansIn(rows: seq<UsageRow>, batch: seq<UsageRow>, r: UsageRow)
    requires DistinctIds(rows) && r in rows && forall x :: x in batch ==> x in rows
    ensures Names(batch, r.id) <==> r in batch
  {
    if Names(batch, r.id) {
      var i :| 0 <= i < |batch| && batch[i].id == r.id;
      assert batch[i] in batch;
      var p :| 0 <= p < |rows| && rows[p] == batch[i];
      var q :| 0 <= q < |rows| && rows[q] == r;
    }
  }

  /**
   * One call bills exactly its batch, never moves the cursor back, and never moves it past a row
   * that was selectable and is still unbilled.
   */
  lemma SkipFree(a: Account, rows: seq<UsageRow>, tenant: nat, now: nat, r: UsageRow)
    requires Billing.ShortfallsFollowDebits(a.ledger) && DistinctIds(rows) && r in rows
    ensures var b := Reconcile(a, rows, tenant, now);
            && Billing.ShortfallsFollowDebits(b.ledger)
            && b.lastUsageAt >= a.lastUsageAt
            && (Billed(b, r.id) <==> Billed(a, r.id) || r in Batch(rows, tenant, a))
            && (Selectable(r, tenant, a) && !Billed(b, r.id) ==> r.createdAt >= b.lastUsageAt)
  {
    var batch := Batch(rows, tenant, a);
    BatchSelected(rows, tenant, a);
    BatchBills(a, batch, now, r.id);
    NamesMeansIn(rows, batch, r);
    WatermarkBounds(a.lastUsageAt, batch);
    if Selectable(r, tenant, a) {
      BatchIsOldest(rows, tenant, a, r);
    }
  }

  /** After the call a row is selectable exactly when it was before and the batch did not take it. */
  lemma SelectableAfter(a: Account, rows: seq<UsageRow>, tenant: nat, now: nat, r: UsageRow)
    requires Billing.ShortfallsFollowDebits(a.ledger) && DistinctIds(rows) && r in rows
    ensures Selectable(r, tenant, Reconcile(a, rows, tenant, now))
            <==> Selectable(r, tenant, a) && r !in Batch(rows, tenant, a)
  {
    SkipFree(a, rows, tenant, now, r);
  }

  // ---- Draining the backlog ----

  /** How many rows the selection would find without its limit. */
  function Backlog(a: Account, rows: seq<UsageRow>, tenant: nat): nat { |Select(rows, tenant, a)| }

  lemma {:induction false} SortedSize(rows: seq<UsageRow>)
    requires Sorted(rows)
    ensures |set r | r in rows| == |rows|
  {
    if rows != [] {
      var prefix, last := rows[..|rows| - 1], rows[|rows| - 1];
      SortedSize(prefix);
      assert rows == prefix + [last];
      assert last !in prefix;
      assert (set r | r in rows) == (set r | r in prefix) + {last};
    }
  }

  lemma BacklogIsSet(a: Account, rows: seq<UsageRow>, tenant: nat)
    requires DistinctIds(rows)
    ensures Backlog(a, rows, tenant) == |set r | r in rows && Selectable(r, tenant, a)|
  {
    var s := Sort(Select(rows, tenant, a));
    SelectDistinct(rows, tenant, a);
    SortedSize(s);
    assert (set r | r in s) == set r | r in rows && Selectable(r, tenant, a);
  }

  lemma BatchIsSet(a: Account, rows: seq<UsageRow>, tenant: nat)
    requires DistinctIds(rows)
    ensures |set r | r in Batch(rows, tenant, a)| == Min(Backlog(a, rows, tenant), BATCH)
    ensures (set r | r in Batch(rows, tenant, a)) <= set r | r in rows && Selectable(r, tenant, a)
  {
    BatchSelected(rows, tenant, a);
    SortedSize(Batch(rows, tenant, a));
  }

  /** Each call shortens the backlog by one full batch, or empties it; zero-unit rows count like any other. */
  lemma DrainsOneBatch(a: Account, rows: seq<UsageRow>, tenant: nat, now: nat)
    requires Billing.ShortfallsFollowDebits(a.ledger) && DistinctIds(rows)
    ensures Backlog(Reconcile(a, rows, tenant, now), rows, tenant) == Max(0, Backlog(a, rows, tenant) - BATCH)
  {
    var b := Reconcile(a, rows, tenant, now);
    var before, after := set r | r in rows && Selectable(r, tenant, a), set r | r in rows && Selectable(r, tenant, b);
    BacklogIsSet(a, rows, tenant);
    BacklogIsSet(b, rows, tenant);
    BatchIsSet(a, rows, tenant);
    forall r | r in rows
      ensures Selectable(r, tenant, b) <==> Selectable(r, tenant, a) && r !in Batch(rows, tenant, a)
    {
      SelectableAfter(a, rows, tenant, now, r);
    }
    assert after == before - set r | r in Batch(rows, tenant, a);
  }

  ghost predicate CallAt(trail: seq<Account>, rows: seq<UsageRow>, tenant: nat, times: seq<nat>, k: nat)
    requires |trail| == |times| + 1 && k < |times|
  {
    trail[k + 1] == Reconcile(trail[k], rows, tenant, times[k])
  }

  /** `trail` is what repeated calls at `times` make of an account: the rows before each call, and at the end. */
  ghost predicate Calls(trail: seq<Account>, rows: seq<UsageRow>, tenant: nat, times: seq<nat>) {
    |trail| == |times| + 1 && forall k :: 0 <= k < |times| ==> CallAt(trail, rows, tenant, times, k)
  }

  lemma CallSound(trail: seq<Account>, rows: seq<UsageRow>, tenant: nat, times: seq<nat>, k: nat)
    requires Calls(trail, rows, tenant, times) && k < |times| && Billing.ShortfallsFollowDebits(trail[k].ledger)
    ensures Billing.ShortfallsFollowDebits(trail[k + 1].ledger)
  {
    assert CallAt(trail, rows, tenant, times, k);
    ReconcileSound(trail[k], rows, tenant, times[k]);
  }

  lemma {:induction false} CallsSound(trail: seq<Account>, rows: seq<UsageRow>, tenant: nat, times: seq<nat>, k: nat)
    requires Calls(trail, rows, tenant, times) && k <= |times|
    requires Billing.ShortfallsFollowDebits(trail[0].ledger)
    ensures Billing.ShortfallsFollowDebits(trail[k].ledger)
  {
    if k > 0 {
      CallsSound(trail, rows, tenant, times, k - 1);
      CallSound(trail, rows, tenant, times, k - 1);
    }
  }

  lemma CallDrains(trail: seq<Account>, rows: seq<UsageRow>, tenant: nat, times: seq<nat>, k: nat)
    requires Calls(trail, rows, tenant, times) && k < |times|
    requires Billing.ShortfallsFollowDebits(trail[0].ledger) && DistinctIds(rows)
    ensures Backlog(trail[k + 1], rows, tenant) == Max(0, Backlog(trail[k], rows, tenant) - BATCH)
  {
    CallsSound(trail, rows, tenant, times, k);
    assert CallAt(trail, rows, tenant, times, k);
    DrainsOneBatch(trail[k], rows, tenant, times[k]);
  }

  /** Repeated calls drain the backlog, one batch at a time. */
  lemma {:induction false} BacklogDrains(trail: seq<Account>, rows: seq<UsageRow>, tenant: nat, times: seq<nat>, k: nat)
    requires Calls(trail, rows, tenant, times) && k <= |times|
    requires Billing.ShortfallsFollowDebits(trail[0].ledger) && DistinctIds(rows)
    ensures Backlog(trail[k], rows, tenant) == Max(0, Backlog(trail[0], rows, tenant) - BATCH * k)
  {
    if k > 0 {
      BacklogDrains(trail, rows, tenant, times, k - 1);
      CallDrains(trail, rows, tenant, times, k - 1);
    }
  }

  // ---- Runs: metering, billing and reconciliation interleaved ----

  datatype World = World(rows: seq<UsageRow>, account: Account)

  datatype Move =
    | Meter(op: Budget.Op)
    | Bill(billing: Billing.Op)
    | Pull(now: nat)

  function Next(w: World, l: Limits, tenant: nat, m: Move): World {
    match m
    case Meter(op) => w.(rows := Budget.Step(w.rows, l, op))
    case Bill(op) => w.(account := Billing.Step(w.account, op))
    case Pull(now) => w.(account := Reconcile(w.account, w.rows, tenant, now))
  }

  function Play(w: World, l: Limits, tenant: nat, moves: seq<Move>): World {
    if moves == [] then w
    else Next(Play(w, l, tenant, moves[..|moves| - 1]), l, tenant, moves[|moves| - 1])
  }

  /** Charges come only from reconciliation; nothing else writes usage rows to the ledger. */
  ghost predicate Proper(m: Move) { m.Bill? ==> !m.billing.Usage? && Billing.Admissible(m.billing) }

  /** The settlement, if it is one, lands before the cursor has passed its row. */
  ghost predicate Timely(w: World, tenant: nat, m: Move) {
    m.Meter? && m.op.DoSettle? ==>
      forall r :: r in w.rows && r.tenant == tenant && Selects(r, m.op.id, m.op.tenant) ==>
        r.createdAt >= w.account.lastUsageAt
  }

  ghost predicate AllTimely(w: World, l: Limits, tenant: nat, moves: seq<Move>) {
    moves != [] ==>
      AllTimely(w, l, tenant, moves[..|moves| - 1])
      && Timely(Play(w, l, tenant, moves[..|moves| - 1]), tenant, moves[|moves| - 1])
  }

  ghost predicate Sound(w: World) { DistinctIds(w.rows) && Billing.ShortfallsFollowDebits(w.account.ledger) }

  /** No settled row is both unbilled and out of the selection's reach. */
  ghost predicate NothingMissed(w: World, tenant: nat) {
    forall r :: r in w.rows && r.tenant == tenant && r.state == Settled && !Billed(w.account, r.id) ==>
      r.createdAt >= w.account.lastUsageAt
  }

  /** Usage rows of the ledger are untouched by everything but charges. */
  ghost predicate UsageUntouched(l: seq<Entry>, m: seq<Entry>) {
    && |l| <= |m|
    && (forall i :: 0 <= i < |l| ==> m[i].source == l[i].source && m[i].reference == l[i].reference)
    && (forall i :: |l| <= i < |m| ==> m[i].source != FromUsage)
  }

  lemma UntouchedKeeps(l: seq<Entry>, m: seq<Entry>, id: nat)
    requires UsageUntouched(l, m)
    ensures HasKey(m, FromUsage, Plain(id)) <==> HasKey(l, FromUsage, Plain(id))
    ensures Billing.ShortfallsFollowDebits(l) ==> Billing.ShortfallsFollowDebits(m)
  {
    if HasKey(l, FromUsage, Plain(id)) {
      var i :| 0 <= i < |l| && l[i].source == FromUsage && l[i].reference == Plain(id);
      assert m[i].source == FromUsage;
    }
    if Billing.ShortfallsFollowDebits(l) {
      forall i | 0 <= i < |m| && m[i].source == FromUsage && m[i].reference.Unfunded?
        ensures HasKey(m, FromUsage, Plain(m[i].reference.id))
      {
        assert l[i].reference == m[i].reference;
        var k :| 0 <= k < |l| && l[k].source == FromUsage && l[k].reference == Plain(m[i].reference.id);
        assert m[k].source == FromUsage;
      }
    }
  }

  lemma RecordUntouched(l: seq<Entry>, m: seq<Entry>, e: Entry)
    requires UsageUntouched(l, m) && e.source != FromUsage
    ensures UsageUntouched(l, Record(m, e))
  {
  }

  lemma StampUntouched(l: seq<Entry>, m: seq<Entry>, source: Source, reference: Reference, cents: nat)
    requires UsageUntouched(l, m)
    ensures UsageUntouched(l, StampCents(m, source, reference, cents))
  {
  }

  lemma SettleUntouched(a: Account, p: nat, scope: bool, s: Snapshot, now: nat)
    ensures var r := SettlePaymentSnapshot(a, p, scope, s, now);
            r.Ok? ==> UsageUntouched(a.ledger, r.value.account.ledger) && r.value.account.lastUsageAt == a.lastUsageAt
  {
    forall m, e: Entry | UsageUntouched(a.ledger, m) && e.source != FromUsage
      ensures UsageUntouched(a.ledger, Record(m, e))
    {
      RecordUntouched(a.ledger, m, e);
    }
    forall m, source, reference, cents | UsageUntouched(a.ledger, m)
      ensures UsageUntouched(a.ledger, StampCents(m, source, reference, cents))
    {
      StampUntouched(a.ledger, m, source, reference, cents);
    }
    assert UsageUntouched(a.ledger, a.ledger);
  }

  lemma BillingUntouched(a: Account, op: Billing.Op)
    requires !op.Usage? && Billing.Admissible(op)
    ensures UsageUntouched(a.ledger, Billing.Step(a, op).ledger)
    ensures Billing.Step(a, op).lastUsageAt == a.lastUsageAt
  {
    if op.Settle? {
      SettleUntouched(a, op.paymentId, op.inScope, op.snapshot, op.now);
    }
  }

  predicate SettlesInto(x: UsageRow, op: Budget.Op, r: UsageRow)
    requires op.DoSettle?
  {
    Selects(x, op.id, op.tenant) && x.id == r.id && x.tenant == r.tenant && x.createdAt == r.createdAt
  }

  lemma MeterRows(rows: seq<UsageRow>, l: Limits, op: Budget.Op, r: UsageRow)
    requires r in Budget.Step(rows, l, op)
    ensures r in rows || r.state != Settled || (op.DoSettle? && exists x :: x in rows && SettlesInto(x, op, r))
  {
    var after := Budget.Step(rows, l, op);
    var i :| 0 <= i < |after| && after[i] == r;
    if i < |rows| {
      assert rows[i] in rows;
    }
  }

  lemma NextSound(w: World, l: Limits, tenant: nat, m: Move)
    requires Sound(w) && Proper(m)
    ensures Sound(Next(w, l, tenant, m))
  {
    match m
    case Meter(op) => StepKeepsIds(w.rows, l, op);
    case Bill(op) =>
      BillingUntouched(w.account, op);
      UntouchedKeeps(w.account.ledger, Billing.Step(w.account, op).ledger, 0);
    case Pull(now) => ReconcileSound(w.account, w.rows, tenant, now);
  }

  lemma NextMissesNothing(w: World, l: Limits, tenant: nat, m: Move)
    requires Sound(w) && Proper(m) && Timely(w, tenant, m) && NothingMissed(w, tenant)
    ensures NothingMissed(Next(w, l, tenant, m), tenant)
  {
    var v := Next(w, l, tenant, m);
    forall r | r in v.rows && r.tenant == tenant && r.state == Settled && !Billed(v.account, r.id)
      ensures r.createdAt >= v.account.lastUsageAt
    {
      match m
      case Meter(op) => MeterRows(w.rows, l, op, r);
      case Bill(op) =>
        BillingUntouched(w.account, op);
        UntouchedKeeps(w.account.ledger, v.account.ledger, r.id);
      case Pull(now) => SkipFree(w.account, w.rows, tenant, now, r);
    }
  }

  /** If every settlement lands before the cursor passes its row, no run ever puts a settled row out of reach. */
  lemma {:induction false} TimelyRunsMissNothing(w: World, l: Limits, tenant: nat, moves: seq<Move>)
    requires Sound(w) && NothingMissed(w, tenant)
    requires (forall i :: 0 <= i < |moves| ==> Proper(moves[i])) && AllTimely(w, l, tenant, moves)
    ensures Sound(Play(w, l, tenant, moves)) && NothingMissed(Play(w, l, tenant, moves), tenant)
  {
    if moves != [] {
      var prefix, m := moves[..|moves| - 1], moves[|moves| - 1];
      TimelyRunsMissNothing(w, l, tenant, prefix);
      NextSound(Play(w, l, tenant, prefix), l, tenant, m);
      NextMissesNothing(Play(w, l, tenant, prefix), l, tenant, m);
    }
  }

  /** Otherwise it is lost: a settled row behind the cursor stays unbilled through every later run. */
  lemma {:induction false} LateRowNeverBilled(w: World, l: Limits, tenant: nat, moves: seq<Move>, i: nat)
    requires Sound(w) && forall k :: 0 <= k < |moves| ==> Proper(moves[k])
    requires i < |w.rows| && w.rows[i].state == Settled
    requires w.rows[i].createdAt < w.account.lastUsageAt && !Billed(w.account, w.rows[i].id)
    ensures var v := Play(w, l, tenant, moves);
            && Sound(v) && v.account.lastUsageAt >= w.account.lastUsageAt
            && i < |v.rows| && v.rows[i] == w.rows[i] && !Billed(v.account, w.rows[i].id)
  {
    if moves != [] {
      var prefix, m := moves[..|moves| - 1], moves[|moves| - 1];
      LateRowNeverBilled(w, l, tenant, prefix, i);
      var v := Play(w, l, tenant, prefix);
      NextSound(v, l, tenant, m);
      assert v.rows[i] in v.rows;
      match m
      case Meter(op) =>
      case Bill(op) =>
        BillingUntouched(v.account, op);
        UntouchedKeeps(v.account.ledger, Billing.Step(v.account, op).ledger, w.rows[i].id);
      case Pull(now) =>
        BatchSelected(v.rows, tenant, v.account);
        SkipFree(v.account, v.rows, tenant, now, v.rows[i]);
    }
  }

  // ---- Exactly when nothing is missed ----

  ghost predicate SettledRow(rows: seq<UsageRow>, id: nat) {
    exists i :: 0 <= i < |rows| && rows[i].id == id && rows[i].state == Settled
  }

  /** Every charged usage id names a settled row. */
  ghost predicate BilledSettled(w: World) {
    forall id: nat :: Billed(w.account, id) ==> SettledRow(w.rows, id)
  }

  lemma MeterKeepsSettled(rows: seq<UsageRow>, l: Limits, op: Budget.Op, id: nat)
    requires SettledRow(rows, id)
    ensures SettledRow(Budget.Step(rows, l, op), id)
  {
    var i :| 0 <= i < |rows| && rows[i].id == id && rows[i].state == Settled;
    assert Budget.Step(rows, l, op)[i] == rows[i];
  }

  lemma PullBillsSettled(a: Account, rows: seq<UsageRow>, tenant: nat, now: nat, id: nat)
    requires Billing.ShortfallsFollowDebits(a.ledger) && DistinctIds(rows)
    requires Billed(Reconcile(a, rows, tenant, now), id) && !Billed(a, id)
    ensures SettledRow(rows, id)
  {
    var batch := Batch(rows, tenant, a);
    BatchSelected(rows, tenant, a);
    BatchBills(a, batch, now, id);
    var i :| 0 <= i < |batch| && batch[i].id == id;
    assert batch[i] in batch;
    var k :| 0 <= k < |rows| && rows[k] == batch[i];
  }

  lemma NextBilledSettled(w: World, l: Limits, tenant: nat, m: Move)
    requires Sound(w) && Proper(m) && BilledSettled(w)
    ensures BilledSettled(Next(w, l, tenant, m))
  {
    var v := Next(w, l, tenant, m);
    forall id: nat | Billed(v.account, id) ensures SettledRow(v.rows, id) {
      match m
      case Meter(op) => MeterKeepsSettled(w.rows, l, op, id);
      case Bill(op) =>
        BillingUntouched(w.account, op);
        UntouchedKeeps(w.account.ledger, v.account.ledger, id);
      case Pull(now) =>
        if !Billed(w.account, id) {
          PullBillsSettled(w.account, w.rows, tenant, now, id);
        }
    }
  }

  lemma {:induction false} RunSound(w: World, l: Limits, tenant: nat, moves: seq<Move>)
    requires Sound(w) && BilledSettled(w) && forall i :: 0 <= i < |moves| ==> Proper(moves[i])
    ensures Sound(Play(w, l, tenant, moves)) && BilledSettled(Play(w, l, tenant, moves))
  {
    if moves != [] {
      var prefix, m := moves[..|moves| - 1], moves[|moves| - 1];
      RunSound(w, l, tenant, prefix);
      NextSound(Play(w, l, tenant, prefix), l, tenant, m);
      NextBilledSettled(Play(w, l, tenant, prefix), l, tenant, m);
    }
  }

  /** What is out of reach stays there. */
  lemma MissedStays(w: World, l: Limits, tenant: nat, m: Move)
    requires Sound(w) && Proper(m) && !NothingMissed(w, tenant)
    ensures !NothingMissed(Next(w, l, tenant, m), tenant)
  {
    var r :| r in w.rows && r.tenant == tenant && r.state == Settled && !Billed(w.account, r.id)
             && r.createdAt < w.account.lastUsageAt;
    var i :| 0 <= i < |w.rows| && w.rows[i] == r;
    LateRowNeverBilled(w, l, tenant, [m], i);
    assert [m][..0] == [];
    assert Play(w, l, tenant, [m]) == Next(w, l, tenant, m);
    assert Next(w, l, tenant, m).rows[i] == r;
  }

  /** A settlement behind the cursor puts its row out of reach at once. */
  lemma UntimelyMisses(w: World, l: Limits, tenant: nat, m: Move)
    requires Sound(w) && BilledSettled(w) && !Timely(w, tenant, m)
    ensures !NothingMissed(Next(w, l, tenant, m), tenant)
  {
    var r :| r in w.rows && r.tenant == tenant && Selects(r, m.op.id, m.op.tenant)
             && r.createdAt < w.account.lastUsageAt;
    var i :| 0 <= i < |w.rows| && w.rows[i] == r;
    assert !SettledRow(w.rows, r.id);
    var late := Next(w, l, tenant, m).rows[i];
    assert late.state == Settled && late.tenant == tenant && late.id == r.id && late.createdAt == r.createdAt;
    assert late in Next(w, l, tenant, m).rows;
  }

  /**
   * Over every run, no settled row ends up unbilled and out of reach if and only if every settlement
   * came before the cursor had passed its row.
   */
  lemma {:induction false} MissesNothingExactly(w: World, l: Limits, tenant: nat, moves: seq<Move>)
    requires Sound(w) && BilledSettled(w) && NothingMissed(w, tenant)
    requires forall i :: 0 <= i < |moves| ==> Proper(moves[i])
    ensures NothingMissed(Play(w, l, tenant, moves), tenant) <==> AllTimely(w, l, tenant, moves)
  {
    if moves != [] {
      var prefix, m := moves[..|moves| - 1], moves[|moves| - 1];
      var v := Play(w, l, tenant, prefix);
      RunSound(w, l, tenant, prefix);
      MissesNothingExactly(w, l, tenant, prefix);
      NextMissesExactly(v, l, tenant, m);
    }
  }

  lemma NextMissesExactly(w: World, l: Limits, tenant: nat, m: Move)
    requires Sound(w) && BilledSettled(w) && Proper(m)
    ensures NothingMissed(Next(w, l, tenant, m), tenant) <==> NothingMissed(w, tenant) && Timely(w, tenant, m)
  {
    if !NothingMissed(w, tenant) {
      MissedStays(w, l, tenant, m);
    } else if !Timely(w, tenant, m) {
      UntimelyMisses(w, l, tenant, m);
    } else {
      NextMissesNothing(w, l, tenant, m);
    }
  }

  /** A world with no usage yet is a sound start with nothing missed. */
  lemma FreshWorld(a: Account, tenant: nat)
    requires a.ledger == []
    ensures var w := World([], a); Sound(w) && BilledSettled(w) && NothingMissed(w, tenant)
  {
  }

  lemma NewerRowOnly(a: Account, rows: seq<UsageRow>, early: UsageRow, newer: UsageRow) returns (batch: seq<UsageRow>)
    requires rows == [early, newer] && a.ledger == [] && a.lastUsageAt < newer.createdAt
    requires early.state == Reserved && newer.state == Settled && early.id != newer.id
    ensures batch == Batch(rows, newer.tenant, a) && newer in batch && forall r :: r in batch ==> r == newer
  {
    assert rows[0] == early && rows[1] == newer;
    batch := Batch(rows, newer.tenant, a);
    BatchSelected(rows, newer.tenant, a);
    BatchIsOldest(rows, newer.tenant, a, newer);
    if |batch| == BATCH {
      assert batch[0] in batch && batch[1] in batch;
    }
  }

  /** With one early reservation and one newer settled row, the call bills the newer and moves past both. */
  lemma NewerRowMovesCursor(a: Account, rows: seq<UsageRow>, early: UsageRow, newer: UsageRow, now: nat)
    requires rows == [early, newer] && a.ledger == [] && a.lastUsageAt < newer.createdAt
    requires early.state == Reserved && newer.state == Settled && early.id != newer.id
    ensures var b := Reconcile(a, rows, newer.tenant, now);
            b.lastUsageAt == newer.createdAt && !Billed(b, early.id)
  {
    assert rows[0] == early && rows[1] == newer;
    var batch := NewerRowOnly(a, rows, early, newer);
    SkipFree(a, rows, newer.tenant, now, early);
    WatermarkBounds(a.lastUsageAt, batch);
  }

  /** Reserved early, settled after a newer row moved the cursor: settled usage out of reach for good. */
  lemma LateSettlementMissed(a: Account)
    requires a.ledger == [] && a.lastUsageAt == 0
    ensures var rows := [UsageRow(1, 7, 5, Reserved, 0, 10), UsageRow(2, 7, 3, Settled, 0, 20)];
            var b := Reconcile(a, rows, 7, 30);
            var late := Settle(rows, 1, 7, 5);
            late[0].state == Settled && late[0].createdAt < b.lastUsageAt && !Billed(b, 1)
  {
    var early, newer := UsageRow(1, 7, 5, Reserved, 0, 10), UsageRow(2, 7, 3, Settled, 0, 20);
    NewerRowMovesCursor(a, [early, newer], early, newer, 30);
  }
}
