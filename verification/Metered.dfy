// What reconciliation bills is what was metered (src/billing/service.ts:687-709 and 917-958): over every run, a
// usage id in the ledger names one settled row of the tenant, and its entries add up to that row's units.

module Metered {
  import opened Base
  import opened Accounts
  import opened Budget
  import opened Reconciliation
  import opened Charges
  import Billing = Conservation

  /** The tokens the ledger books for one usage id, funded or not. */
  function Booked(ledger: seq<Entry>, id: nat): int {
    if ledger == [] then 0
    else
      var e := ledger[|ledger| - 1];
      Booked(ledger[..|ledger| - 1], id) + if e.source == FromUsage && e.reference.id == id then e.tokens else 0
  }

  lemma BookedAppend(ledger: seq<Entry>, more: seq<Entry>, e: Entry, id: nat)
    requires more == ledger + [e]
    ensures Booked(more, id)
            == Booked(ledger, id) + if e.source == FromUsage && e.reference.id == id then e.tokens else 0
  {
    assert more[..|ledger|] == ledger;
  }

  /** What the rows of one charge book in all. */
  function Tokens(rows: seq<Entry>): int {
    if |rows| == 2 then rows[0].tokens + rows[1].tokens else if |rows| == 1 then rows[0].tokens else 0
  }

  lemma RowsBook(ledger: seq<Entry>, rows: seq<Entry>, id: nat, other: nat)
    requires Billing.IsCharge(rows, id)
    ensures Booked(ledger + rows, other) == Booked(ledger, other) + if other == id then Tokens(rows) else 0
  {
    var first := ledger + [rows[0]];
    BookedAppend(ledger, first, rows[0], other);
    if |rows| == 2 {
      assert ledger + rows == first + [rows[1]];
      BookedAppend(first, ledger + rows, rows[1], other);
    } else {
      assert ledger + rows == first;
    }
  }

  /** The entries of one charge add up to its units. */
  lemma EntriesAddUp(a: Account, units: nat, id: nat, now: nat, f: Funding)
    requires f == Waterfall(a, units, now)
    ensures Tokens(Billing.ChargeRows(a, units, id, now)) == 0 - units
  {
    RowsOfCharge(a, units, id, now, f, a.tokens - f.wallet, a.cents - f.spentCents);
    if units == 0 {
      Billing.ZeroCharge(a, now);
    }
  }

  /** One charge books its units under its id. */
  lemma ChargeBooks(a: Account, units: nat, id: nat, now: nat, other: nat)
    requires Billing.ShortfallsFollowDebits(a.ledger) && !Billed(a, id)
    ensures Booked(ApplyUsage(a, units, id, now).ledger, other)
            == Booked(a.ledger, other) - if other == id then units else 0
  {
    var rows := Billing.ChargeRows(a, units, id, now);
    Billing.ChargeLedger(a, units, id, now);
    Billing.ChargeRowsShape(a, units, id, now);
    EntriesAddUp(a, units, id, now, Waterfall(a, units, now));
    RowsBook(a.ledger, rows, id, other);
  }

  function UnitsOf(batch: seq<UsageRow>, id: nat): nat {
    if batch == [] then 0
    else
      var last := batch[|batch| - 1];
      UnitsOf(batch[..|batch| - 1], id) + if last.id == id then last.units else 0
  }

  lemma {:induction false} UnitsOfNone(batch: seq<UsageRow>, id: nat)
    requires forall r :: r in batch ==> r.id != id
    ensures UnitsOf(batch, id) == 0
  {
    if batch != [] {
      var prefix, last := batch[..|batch| - 1], batch[|batch| - 1];
      assert batch == prefix + [last];
      UnitsOfNone(prefix, id);
    }
  }

  lemma {:induction false} UnitsOfRow(batch: seq<UsageRow>, r: UsageRow)
    requires DistinctIds(batch) && r in batch
    ensures UnitsOf(batch, r.id) == r.units
  {
    var prefix, last := batch[..|batch| - 1], batch[|batch| - 1];
    assert batch == prefix + [last];
    if r == last {
      forall x | x in prefix ensures x.id != r.id {
        var i :| 0 <= i < |prefix| && prefix[i] == x;
        assert batch[i] == x && batch[|batch| - 1] == r;
      }
      UnitsOfNone(prefix, r.id);
    } else {
      var i :| 0 <= i < |prefix| && prefix[i] == r;
      assert batch[i] == r;
      UnitsOfRow(prefix, r);
    }
  }

  lemma {:induction false} BatchBooks(a: Account, batch: seq<UsageRow>, now: nat, id: nat)
    requires Billing.ShortfallsFollowDebits(a.ledger) && DistinctIds(batch)
    requires forall r :: r in batch ==> !Billed(a, r.id)
    ensures Booked(BillAll(a, batch, now).ledger, id) == Booked(a.ledger, id) - UnitsOf(batch, id)
  {
    if batch != [] {
      var prefix, last := batch[..|batch| - 1], batch[|batch| - 1];
      assert batch == prefix + [last];
      BatchBooks(a, prefix, now, id);
      BatchBills(a, prefix, now, last.id);
      assert forall i :: 0 <= i < |prefix| ==> prefix[i] == batch[i] && prefix[i].id != last.id;
      ChargeBooks(BillAll(a, prefix, now), last.units, last.id, now, id);
    }
  }

  // ---- Everything but charges leaves the usage entries alone ----

  lemma RecordKeepsBooked(ledger: seq<Entry>, e: Entry, id: nat)
    requires e.source != FromUsage
    ensures Booked(Record(ledger, e), id) == Booked(ledger, id)
  {
    BookedAppend(ledger, ledger + [e], e, id);
  }

  lemma {:induction false} StampKeepsBooked(ledger: seq<Entry>, more: seq<Entry>, id: nat)
    requires |ledger| == |more|
    requires forall i :: 0 <= i < |ledger| ==>
               more[i].source == ledger[i].source && more[i].reference == ledger[i].reference
               && more[i].tokens == ledger[i].tokens
    ensures Booked(more, id) == Booked(ledger, id)
  {
    if ledger != [] {
      StampKeepsBooked(ledger[..|ledger| - 1], more[..|more| - 1], id);
    }
  }

  lemma SettleKeepsBooked(a: Account, p: nat, scope: bool, s: Snapshot, now: nat, id: nat)
    ensures var r := SettlePaymentSnapshot(a, p, scope, s, now);
            r.Ok? ==> Booked(r.value.account.ledger, id) == Booked(a.ledger, id)
  {
    forall ledger: seq<Entry>, e: Entry | e.source != FromUsage
      ensures Booked(Record(ledger, e), id) == Booked(ledger, id)
    {
      RecordKeepsBooked(ledger, e, id);
    }
    forall ledger: seq<Entry>, source, reference, cents
      ensures Booked(StampCents(ledger, source, reference, cents), id) == Booked(ledger, id)
    {
      StampKeepsBooked(ledger, StampCents(ledger, source, reference, cents), id);
    }
  }

  lemma BillingKeepsBooked(a: Account, op: Billing.Op, id: nat)
    requires !op.Usage? && Billing.Admissible(op)
    ensures Booked(Billing.Step(a, op).ledger, id) == Booked(a.ledger, id)
  {
    if op.Settle? {
      SettleKeepsBooked(a, op.paymentId, op.inScope, op.snapshot, op.now, id);
    } else {
      forall e: Entry | e.source != FromUsage ensures Booked(Record(a.ledger, e), id) == Booked(a.ledger, id) {
        RecordKeepsBooked(a.ledger, e, id);
      }
    }
  }

  // ---- Over every run ----

  /** A settled row of the tenant with this id, metered at `units`. */
  ghost predicate MeteredAt(rows: seq<UsageRow>, tenant: nat, id: nat, units: int) {
    exists i :: 0 <= i < |rows| && rows[i].id == id && rows[i].tenant == tenant && rows[i].state == Settled
                && rows[i].units == units
  }

  /** The ledger books a usage id for what one settled row of the tenant was metered at, or not at all. */
  ghost predicate BooksAsMetered(w: World, tenant: nat) {
    forall id: nat ::
      if Billed(w.account, id) then MeteredAt(w.rows, tenant, id, -Booked(w.account.ledger, id))
      else Booked(w.account.ledger, id) == 0
  }

  lemma MeterKeepsMetered(rows: seq<UsageRow>, l: Limits, op: Budget.Op, tenant: nat, id: nat, units: int)
    requires MeteredAt(rows, tenant, id, units)
    ensures MeteredAt(Budget.Step(rows, l, op), tenant, id, units)
  {
    var i :| 0 <= i < |rows| && rows[i].id == id && rows[i].tenant == tenant && rows[i].state == Settled
             && rows[i].units == units;
    assert Budget.Step(rows, l, op)[i] == rows[i];
  }

  lemma PullBooks(a: Account, rows: seq<UsageRow>, tenant: nat, now: nat, id: nat)
    requires Billing.ShortfallsFollowDebits(a.ledger) && DistinctIds(rows)
    ensures var b, batch := Reconcile(a, rows, tenant, now), Batch(rows, tenant, a);
            && Booked(b.ledger, id) == Booked(a.ledger, id) - UnitsOf(batch, id)
            && (Billed(b, id) <==> Billed(a, id) || Names(batch, id))
            && (Billed(a, id) || !Names(batch, id) ==> UnitsOf(batch, id) == 0)
            && (Names(batch, id) ==> MeteredAt(rows, tenant, id, UnitsOf(batch, id)))
  {
    var batch := Batch(rows, tenant, a);
    BatchSelected(rows, tenant, a);
    BatchDistinct(rows, batch);
    BatchBooks(a, batch, now, id);
    BatchBills(a, batch, now, id);
    if Names(batch, id) {
      var i :| 0 <= i < |batch| && batch[i].id == id;
      assert batch[i] in batch;
      UnitsOfRow(batch, batch[i]);
      var k :| 0 <= k < |rows| && rows[k] == batch[i];
    } else {
      UnitsOfNone(batch, id);
    }
  }

  lemma BatchDistinct(rows: seq<UsageRow>, batch: seq<UsageRow>)
    requires DistinctIds(rows) && Sorted(batch) && forall r :: r in batch ==> r in rows
    ensures DistinctIds(batch)
  {
    forall i, j | 0 <= i < j < |batch| ensures batch[i].id != batch[j].id {
      assert Precedes(batch[i], batch[j]) && batch[i] in batch && batch[j] in batch;
      var m :| 0 <= m < |rows| && rows[m] == batch[i];
      var n :| 0 <= n < |rows| && rows[n] == batch[j];
    }
  }

  lemma NextBooks(w: World, l: Limits, tenant: nat, m: Move)
    requires Sound(w) && Proper(m) && BooksAsMetered(w, tenant)
    ensures BooksAsMetered(Next(w, l, tenant, m), tenant)
  {
    var v := Next(w, l, tenant, m);
    forall id: nat
      ensures if Billed(v.account, id) then MeteredAt(v.rows, tenant, id, -Booked(v.account.ledger, id))
              else Booked(v.account.ledger, id) == 0
    {
      match m
      case Meter(op) =>
        if Billed(w.account, id) {
          MeterKeepsMetered(w.rows, l, op, tenant, id, -Booked(w.account.ledger, id));
        }
      case Bill(op) =>
        BillingUntouched(w.account, op);
        UntouchedKeeps(w.account.ledger, v.account.ledger, id);
        BillingKeepsBooked(w.account, op, id);
      case Pull(now) => PullBooks(w.account, w.rows, tenant, now, id);
    }
  }

  /**
   * Over every interleaving of metering, billing and reconciliation, the tenant is billed for exactly the
   * settled units of its own rows, each row once.
   */
  lemma {:induction false} BilledAsMetered(w: World, l: Limits, tenant: nat, moves: seq<Move>)
    requires Sound(w) && BooksAsMetered(w, tenant) && forall i :: 0 <= i < |moves| ==> Proper(moves[i])
    ensures Sound(Play(w, l, tenant, moves)) && BooksAsMetered(Play(w, l, tenant, moves), tenant)
  {
    if moves != [] {
      var prefix, m := moves[..|moves| - 1], moves[|moves| - 1];
      BilledAsMetered(w, l, tenant, prefix);
      NextSound(Play(w, l, tenant, prefix), l, tenant, m);
      NextBooks(Play(w, l, tenant, prefix), l, tenant, m);
    }
  }

  /** It holds from the start. */
  lemma FreshBooks(a: Account, tenant: nat)
    requires a.ledger == []
    ensures BooksAsMetered(World([], a), tenant)
  {
  }
}
