// The daily token budget (src/persistence/database.ts:145-222): usage rows are reserved, then
// settled with the actual usage or released.

module Budget {
  import opened Base

  datatype UsageState = Reserved | Settled | Released

  datatype UsageRow = UsageRow(id: nat, tenant: nat, units: nat, state: UsageState, day: nat, createdAt: nat)

  /** The tenant's own limit, when it has one, and the deployment's. */
  datatype Limits = Limits(daily: nat, tenants: map<nat, nat>)

  datatype Report = Report(limit: nat, remaining: nat, overshoot: nat)

  const DAY_MS: nat := 86_400_000

  function DayOf(now: nat): nat { now / DAY_MS }

  function EffectiveLimit(l: Limits, tenant: nat): nat {
    if tenant in l.tenants then Min(l.daily, l.tenants[tenant]) else l.daily
  }

  predicate HasRow(rows: seq<UsageRow>, id: nat) { exists i :: 0 <= i < |rows| && rows[i].id == id }

  ghost predicate DistinctIds(rows: seq<UsageRow>) {
    forall i, j :: 0 <= i < j < |rows| ==> rows[i].id != rows[j].id
  }

  predicate Counts(r: UsageRow, tenant: nat, day: nat) {
    r.tenant == tenant && r.day == day && r.state != Released
  }

  /** SUM(units) over the tenant's reserved and settled rows of the day. */
  function Used(rows: seq<UsageRow>, tenant: nat, day: nat): nat {
    if rows == [] then 0
    else
      var r := rows[|rows| - 1];
      Used(rows[..|rows| - 1], tenant, day) + (if Counts(r, tenant, day) then r.units else 0)
  }

  /** The same sum without row `id`. */
  function UsedByOthers(rows: seq<UsageRow>, tenant: nat, day: nat, id: nat): nat {
    if rows == [] then 0
    else
      var r := rows[|rows| - 1];
      UsedByOthers(rows[..|rows| - 1], tenant, day, id) + (if Counts(r, tenant, day) && r.id != id then r.units else 0)
  }

  /** `None` is the thrown `daily_budget_exceeded`, or an id the primary key refuses. */
  function Reserve(rows: seq<UsageRow>, l: Limits, id: nat, tenant: nat, units: nat, now: nat): Option<seq<UsageRow>> {
    if Used(rows, tenant, DayOf(now)) + units > EffectiveLimit(l, tenant) || HasRow(rows, id) then None
    else Some(rows + [UsageRow(id, tenant, units, Reserved, DayOf(now), now)])
  }

  /** UPDATE ... WHERE id = ? AND tenant_id = ? AND state = 'reserved'. */
  predicate Selects(r: UsageRow, id: nat, tenant: nat) { r.id == id && r.tenant == tenant && r.state == Reserved }

  function Settle(rows: seq<UsageRow>, id: nat, tenant: nat, actual: nat): (r: seq<UsageRow>)
    ensures |r| == |rows|
  {
    seq(|rows|, i requires 0 <= i < |rows| =>
      if Selects(rows[i], id, tenant) then rows[i].(units := actual, state := Settled) else rows[i])
  }

  function SettleReport(rows: seq<UsageRow>, l: Limits, id: nat, tenant: nat, actual: nat, now: nat): Report {
    var limit := EffectiveLimit(l, tenant);
    var remaining := Max(0, limit - UsedByOthers(rows, tenant, DayOf(now), id));
    Report(limit, remaining, Max(0, actual - remaining))
  }

  function Release(rows: seq<UsageRow>, id: nat, tenant: nat): (r: seq<UsageRow>)
    ensures |r| == |rows|
  {
    seq(|rows|, i requires 0 <= i < |rows| =>
      if Selects(rows[i], id, tenant) then rows[i].(units := 0, state := Released) else rows[i])
  }

  /** The table the methods update in place. */
  class UsageTable {
    var usageEvents: seq<UsageRow>
    const limits: Limits

    ghost predicate Valid() reads this { DistinctIds(usageEvents) }

    constructor (limits: Limits)
      ensures Valid() && usageEvents == [] && this.limits == limits
    {
      this.limits := limits;
      usageEvents := [];
    }

    method ReserveBudget(id: nat, tenant: nat, units: nat, now: nat) returns (reserved: bool)
      requires Valid()
      modifies this`usageEvents
      ensures Valid()
      ensures reserved <==> Reserve(old(usageEvents), limits, id, tenant, units, now).Some?
      ensures usageEvents == if reserved then Reserve(old(usageEvents), limits, id, tenant, units, now).value
                             else old(usageEvents)
    {
      var day := DayOf(now);
      var used := Used(usageEvents, tenant, day);
      if used + units > EffectiveLimit(limits, tenant) || HasRow(usageEvents, id) {
        return false;
      }
      usageEvents := usageEvents + [UsageRow(id, tenant, units, Reserved, day, now)];
      return true;
    }

    /** Only the tenant's own reserved row is settled; the report measures it against the rest of today. */
    method SettleBudget(id: nat, tenant: nat, actual: nat, now: nat) returns (report: Report)
      requires Valid()
      modifies this`usageEvents
      ensures Valid() && usageEvents == Settle(old(usageEvents), id, tenant, actual)
      ensures |usageEvents| == |old(usageEvents)|
      ensures forall i :: 0 <= i < |usageEvents| ==>
                var r := old(usageEvents)[i];
                usageEvents[i] == if r.id == id && r.tenant == tenant && r.state == Reserved
                                  then UsageRow(id, tenant, actual, Settled, r.day, r.createdAt) else r
      ensures report == SettleReport(old(usageEvents), limits, id, tenant, actual, now)
      ensures Used(usageEvents, tenant, DayOf(now))
              <= Max(report.limit, Used(old(usageEvents), tenant, DayOf(now))) + report.overshoot
    {
      var rows := usageEvents;
      var limit: int := EffectiveLimit(limits, tenant);
      var used: int := UsedByOthers(rows, tenant, DayOf(now), id);
      var remaining := Max(0, limit - used);
      usageEvents := seq(|rows|, i requires 0 <= i < |rows| =>
        if rows[i].id == id && rows[i].tenant == tenant && rows[i].state == Reserved
        then rows[i].(units := actual, state := Settled) else rows[i]);
      report := Report(limit, remaining, Max(0, actual - remaining));
      assert usageEvents == Settle(rows, id, tenant, actual);
      OvershootCovers(rows, limits, id, tenant, actual, now);
    }

    /** Only the tenant's own reserved row is released, and no day of any tenant gets fuller. */
    method ReleaseBudget(id: nat, tenant: nat)
      requires Valid()
      modifies this`usageEvents
      ensures Valid() && usageEvents == Release(old(usageEvents), id, tenant)
      ensures |usageEvents| == |old(usageEvents)|
      ensures forall i :: 0 <= i < |usageEvents| ==>
                var r := old(usageEvents)[i];
                usageEvents[i] == if r.id == id && r.tenant == tenant && r.state == Reserved
                                  then UsageRow(id, tenant, 0, Released, r.day, r.createdAt) else r
      ensures forall t: nat, day: nat :: Used(usageEvents, t, day) <= Used(old(usageEvents), t, day)
    {
      var rows := usageEvents;
      usageEvents := seq(|rows|, i requires 0 <= i < |rows| =>
        if rows[i].id == id && rows[i].tenant == tenant && rows[i].state == Reserved
        then rows[i].(units := 0, state := Released) else rows[i]);
      assert usageEvents == Release(rows, id, tenant);
      forall t: nat, day: nat ensures Used(usageEvents, t, day) <= Used(rows, t, day) {
        ReleaseLowers(rows, id, tenant, t, day);
      }
    }
  }

  // ---- Runs ----

  datatype Op =
    | DoReserve(id: nat, tenant: nat, units: nat, now: nat)
    | DoSettle(id: nat, tenant: nat, actual: nat, now: nat)
    | DoRelease(id: nat, tenant: nat)

  function Step(rows: seq<UsageRow>, l: Limits, op: Op): seq<UsageRow> {
    match op
    case DoReserve(id, tenant, units, now) =>
      var r := Reserve(rows, l, id, tenant, units, now);
      if r.Some? then r.value else rows
    case DoSettle(id, tenant, actual, now) => Settle(rows, id, tenant, actual)
    case DoRelease(id, tenant) => Release(rows, id, tenant)
  }

  function Run(rows: seq<UsageRow>, l: Limits, ops: seq<Op>): seq<UsageRow> {
    if ops == [] then rows else Step(Run(rows, l, ops[..|ops| - 1]), l, ops[|ops| - 1])
  }

  /** Overshoot reported to the tenant on `day` over the whole run. */
  function Overshoots(rows: seq<UsageRow>, l: Limits, ops: seq<Op>, tenant: nat, day: nat): nat {
    if ops == [] then 0
    else
      var before := Run(rows, l, ops[..|ops| - 1]);
      var op := ops[|ops| - 1];
      Overshoots(rows, l, ops[..|ops| - 1], tenant, day)
      + (if op.DoSettle? && op.tenant == tenant && DayOf(op.now) == day
         then SettleReport(before, l, op.id, op.tenant, op.actual, op.now).overshoot else 0)
  }

  /** What settling the row adds to `day`, when the row counts there: the actual units beyond the reserved ones. */
  function Growth(rows: seq<UsageRow>, id: nat, tenant: nat, actual: nat, day: nat): nat {
    if rows == [] then 0
    else
      var r := rows[|rows| - 1];
      Growth(rows[..|rows| - 1], id, tenant, actual, day)
      + (if Selects(r, id, tenant) && r.day == day then Max(0, actual - r.units) else 0)
  }

  /** What the tenant's settlements on other days add to `day` over the whole run. */
  function Carried(rows: seq<UsageRow>, l: Limits, ops: seq<Op>, tenant: nat, day: nat): nat {
    if ops == [] then 0
    else
      var before := Run(rows, l, ops[..|ops| - 1]);
      var op := ops[|ops| - 1];
      Carried(rows, l, ops[..|ops| - 1], tenant, day)
      + (if op.DoSettle? && op.tenant == tenant && DayOf(op.now) != day
         then Growth(before, op.id, tenant, op.actual, day) else 0)
  }

  /** Every settlement falls on the day its row was reserved. */
  ghost predicate SameDay(rows: seq<UsageRow>, l: Limits, ops: seq<Op>) {
    ops != [] ==>
      && SameDay(rows, l, ops[..|ops| - 1])
      && (var op := ops[|ops| - 1];
          op.DoSettle? ==>
            forall r :: r in Run(rows, l, ops[..|ops| - 1]) && Selects(r, op.id, op.tenant) ==> r.day == DayOf(op.now))
  }

  // ---- One update ----

  lemma {:induction false} OthersExact(rows: seq<UsageRow>, tenant: nat, day: nat, id: nat)
    requires !HasRow(rows, id)
    ensures UsedByOthers(rows, tenant, day, id) == Used(rows, tenant, day)
  {
    if rows != [] {
      assert forall i :: 0 <= i < |rows| - 1 ==> rows[..|rows| - 1][i] == rows[i];
      OthersExact(rows[..|rows| - 1], tenant, day, id);
    }
  }

  lemma {:induction false} OthersWithin(rows: seq<UsageRow>, tenant: nat, day: nat, id: nat)
    ensures UsedByOthers(rows, tenant, day, id) <= Used(rows, tenant, day)
  {
    if rows != [] {
      OthersWithin(rows[..|rows| - 1], tenant, day, id);
    }
  }

  lemma SettlePrefix(rows: seq<UsageRow>, id: nat, tenant: nat, actual: nat)
    requires rows != []
    ensures Settle(rows, id, tenant, actual)[..|rows| - 1] == Settle(rows[..|rows| - 1], id, tenant, actual)
  {
  }

  lemma ReleasePrefix(rows: seq<UsageRow>, id: nat, tenant: nat)
    requires rows != []
    ensures Release(rows, id, tenant)[..|rows| - 1] == Release(rows[..|rows| - 1], id, tenant)
  {
  }

  /** A settlement changes the day's total only by replacing its own row's units. */
  lemma {:induction false} SettleUsed(rows: seq<UsageRow>, id: nat, tenant: nat, actual: nat, t: nat, day: nat)
    requires DistinctIds(rows)
    requires forall r :: r in rows && Selects(r, id, tenant) ==> r.day == day || t != tenant
    ensures var after := Used(Settle(rows, id, tenant, actual), t, day);
            && (t != tenant ==> after == Used(rows, t, day))
            && (after == Used(rows, t, day) || after == UsedByOthers(rows, t, day, id) + actual)
  {
    if rows != [] {
      var prefix, last := rows[..|rows| - 1], rows[|rows| - 1];
      SettlePrefix(rows, id, tenant, actual);
      assert forall r :: r in prefix ==> r in rows;
      assert last in rows;
      if last.id == id {
        NoRowNoSettle(prefix, id, tenant, actual);
        OthersExact(prefix, t, day, id);
      } else {
        SettleUsed(prefix, id, tenant, actual, t, day);
      }
    }
  }

  lemma NoRowNoSettle(rows: seq<UsageRow>, id: nat, tenant: nat, actual: nat)
    requires !HasRow(rows, id)
    ensures Settle(rows, id, tenant, actual) == rows
    ensures Release(rows, id, tenant) == rows
  {
  }

  lemma {:induction false} SettleOtherDay(rows: seq<UsageRow>, id: nat, tenant: nat, actual: nat, t: nat, day: nat)
    requires forall r :: r in rows && Selects(r, id, tenant) ==> r.day != day
    ensures Used(Settle(rows, id, tenant, actual), t, day) == Used(rows, t, day)
  {
    if rows != [] {
      SettlePrefix(rows, id, tenant, actual);
      assert forall r :: r in rows[..|rows| - 1] ==> r in rows;
      assert rows[|rows| - 1] in rows;
      SettleOtherDay(rows[..|rows| - 1], id, tenant, actual, t, day);
    }
  }

  lemma {:induction false} ReleaseLowers(rows: seq<UsageRow>, id: nat, tenant: nat, t: nat, day: nat)
    ensures Used(Release(rows, id, tenant), t, day) <= Used(rows, t, day)
  {
    if rows != [] {
      ReleasePrefix(rows, id, tenant);
      ReleaseLowers(rows[..|rows| - 1], id, tenant, t, day);
    }
  }

  /** Settling a row of the day puts the actual units in the place of the reserved ones. */
  lemma {:induction false} SettleExact(rows: seq<UsageRow>, id: nat, tenant: nat, actual: nat, i: nat)
    requires DistinctIds(rows) && i < |rows| && Selects(rows[i], id, tenant)
    ensures Used(Settle(rows, id, tenant, actual), tenant, rows[i].day)
            == UsedByOthers(rows, tenant, rows[i].day, id) + actual
  {
    var prefix, last := rows[..|rows| - 1], rows[|rows| - 1];
    SettlePrefix(rows, id, tenant, actual);
    if i == |rows| - 1 {
      NoRowNoSettle(prefix, id, tenant, actual);
      OthersExact(prefix, tenant, rows[i].day, id);
    } else {
      assert prefix[i] == rows[i];
      SettleExact(prefix, id, tenant, actual, i);
    }
  }

  /** For a row reserved today the reported overshoot is exactly what the day now has above its limit. */
  lemma OvershootIsExcess(rows: seq<UsageRow>, l: Limits, id: nat, tenant: nat, actual: nat, now: nat, i: nat)
    requires DistinctIds(rows) && i < |rows| && Selects(rows[i], id, tenant) && rows[i].day == DayOf(now)
    requires Used(rows, tenant, DayOf(now)) <= EffectiveLimit(l, tenant)
    ensures SettleReport(rows, l, id, tenant, actual, now).overshoot
            == Max(0, Used(Settle(rows, id, tenant, actual), tenant, DayOf(now)) - EffectiveLimit(l, tenant))
  {
    SettleExact(rows, id, tenant, actual, i);
    OthersWithin(rows, tenant, DayOf(now), id);
  }

  /** Whatever row is settled, today's total grows past the limit by at most the reported overshoot. */
  lemma OvershootCovers(rows: seq<UsageRow>, l: Limits, id: nat, tenant: nat, actual: nat, now: nat)
    requires DistinctIds(rows)
    ensures var report := SettleReport(rows, l, id, tenant, actual, now);
            Used(Settle(rows, id, tenant, actual), tenant, DayOf(now))
            <= Max(report.limit, Used(rows, tenant, DayOf(now))) + report.overshoot
  {
    var day := DayOf(now);
    OthersWithin(rows, tenant, day, id);
    if r :| r in rows && Selects(r, id, tenant) && r.day == day {
      var i :| 0 <= i < |rows| && rows[i] == r;
      SettleExact(rows, id, tenant, actual, i);
    } else {
      SettleOtherDay(rows, id, tenant, actual, tenant, day);
    }
  }

  // ---- The limits and the sum, over the rows ----

  /** The limit that applies is the smaller of the deployment's and the tenant's own. */
  ghost predicate Applies(l: Limits, tenant: nat, limit: nat) {
    if tenant in l.tenants && l.tenants[tenant] < l.daily then limit == l.tenants[tenant] else limit == l.daily
  }

  /** A reservation is made exactly when its id is new and the day stays within both limits with it. */
  lemma ReservedWithinBoth(rows: seq<UsageRow>, l: Limits, id: nat, tenant: nat, units: nat, now: nat)
    ensures var r, day := Reserve(rows, l, id, tenant, units, now), now / 86_400_000;
            && (r.Some? <==>
                  && Used(rows, tenant, day) + units <= l.daily
                  && (tenant in l.tenants ==> Used(rows, tenant, day) + units <= l.tenants[tenant])
                  && forall i :: 0 <= i < |rows| ==> rows[i].id != id)
            && (r.Some? ==> r.value == rows + [UsageRow(id, tenant, units, Reserved, day, now)])
  {
  }

  /** A new reservation counts towards its tenant's day at once, and towards no other. */
  lemma ReservedCounts(rows: seq<UsageRow>, row: UsageRow, tenant: nat, day: nat)
    requires row.state == Reserved
    ensures Used(rows + [row], tenant, day)
            == Used(rows, tenant, day) + if row.tenant == tenant && row.day == day then row.units else 0
  {
    assert (rows + [row])[..|rows|] == rows;
  }

  lemma {:induction false} UsedSplit(rows: seq<UsageRow>, i: nat)
    requires DistinctIds(rows) && i < |rows| && rows[i].state != Released
    ensures Used(rows, rows[i].tenant, rows[i].day)
            == UsedByOthers(rows, rows[i].tenant, rows[i].day, rows[i].id) + rows[i].units
  {
    var prefix := rows[..|rows| - 1];
    if i == |rows| - 1 {
      OthersExact(prefix, rows[i].tenant, rows[i].day, rows[i].id);
    } else {
      assert prefix[i] == rows[i];
      UsedSplit(prefix, i);
    }
  }

  lemma {:induction false} ReleaseExact(rows: seq<UsageRow>, id: nat, tenant: nat, i: nat)
    requires DistinctIds(rows) && i < |rows| && Selects(rows[i], id, tenant)
    ensures Used(Release(rows, id, tenant), tenant, rows[i].day) == UsedByOthers(rows, tenant, rows[i].day, id)
  {
    var prefix, last := rows[..|rows| - 1], rows[|rows| - 1];
    ReleasePrefix(rows, id, tenant);
    if i == |rows| - 1 {
      NoRowNoSettle(prefix, id, tenant, 0);
      OthersExact(prefix, tenant, rows[i].day, id);
    } else {
      assert prefix[i] == rows[i];
      ReleaseExact(prefix, id, tenant, i);
    }
  }

  /** Releasing a reservation gives its day back exactly the reserved units. */
  lemma ReleaseGivesBack(rows: seq<UsageRow>, i: nat)
    requires DistinctIds(rows) && i < |rows| && rows[i].state == Reserved
    ensures var r := rows[i];
            Used(Release(rows, r.id, r.tenant), r.tenant, r.day) == Used(rows, r.tenant, r.day) - r.units
  {
    UsedSplit(rows, i);
    ReleaseExact(rows, rows[i].id, rows[i].tenant, i);
  }

  /** For a row of today the report's `remaining` is what the day leaves under the limit without that row. */
  lemma ReportIsRest(rows: seq<UsageRow>, l: Limits, actual: nat, now: nat, i: nat)
    requires DistinctIds(rows) && i < |rows| && rows[i].state == Reserved && rows[i].day == now / 86_400_000
    ensures var r := rows[i];
            var report, rest: int := SettleReport(rows, l, r.id, r.tenant, actual, now),
                                     Used(rows, r.tenant, r.day) - r.units;
            && Applies(l, r.tenant, report.limit)
            && report.remaining == (if rest <= report.limit then report.limit - rest else 0)
            && report.overshoot == if actual <= report.remaining then 0 else actual - report.remaining
  {
    UsedSplit(rows, i);
  }

  lemma StepKeepsIds(rows: seq<UsageRow>, l: Limits, op: Op)
    requires DistinctIds(rows)
    ensures DistinctIds(Step(rows, l, op))
  {
  }

  /** Settling a row of another day makes that day fuller by at most its growth. */
  lemma {:induction false} SettleGrows(rows: seq<UsageRow>, id: nat, tenant: nat, actual: nat, day: nat)
    ensures Used(Settle(rows, id, tenant, actual), tenant, day)
            <= Used(rows, tenant, day) + Growth(rows, id, tenant, actual, day)
  {
    if rows != [] {
      SettlePrefix(rows, id, tenant, actual);
      SettleGrows(rows[..|rows| - 1], id, tenant, actual, day);
    }
  }

  lemma {:induction false} NoGrowth(rows: seq<UsageRow>, id: nat, tenant: nat, actual: nat, day: nat)
    requires forall r :: r in rows && Selects(r, id, tenant) ==> r.day != day
    ensures Growth(rows, id, tenant, actual, day) == 0
  {
    if rows != [] {
      assert forall r :: r in rows[..|rows| - 1] ==> r in rows;
      assert rows[|rows| - 1] in rows;
      NoGrowth(rows[..|rows| - 1], id, tenant, actual, day);
    }
  }

  lemma BoundStep(rows: seq<UsageRow>, l: Limits, op: Op, t: nat, day: nat, slack: nat)
    requires DistinctIds(rows) && Used(rows, t, day) <= EffectiveLimit(l, t) + slack
    ensures Used(Step(rows, l, op), t, day)
            <= EffectiveLimit(l, t) + slack
               + (if !op.DoSettle? || op.tenant != t then 0
                  else if DayOf(op.now) == day then SettleReport(rows, l, op.id, op.tenant, op.actual, op.now).overshoot
                  else Growth(rows, op.id, t, op.actual, day))
  {
    match op
    case DoReserve(id, tenant, units, now) =>
      var row := UsageRow(id, tenant, units, Reserved, DayOf(now), now);
      assert (rows + [row])[..|rows|] == rows;
    case DoSettle(id, tenant, actual, now) =>
      if tenant != t {
        SettleUsed(rows, id, tenant, actual, t, day);
      } else if DayOf(now) == day {
        OvershootCovers(rows, l, id, tenant, actual, now);
      } else {
        SettleGrows(rows, id, tenant, actual, day);
      }
    case DoRelease(id, tenant) => ReleaseLowers(rows, id, tenant, t, day);
  }

  /**
   * Under fixed limits, after any run a tenant's reserved and settled units of a day exceed its limit
   * by no more than the overshoots reported to it that day and the growth of the rows it settled later.
   */
  lemma {:induction false} DayBudgetBound(rows: seq<UsageRow>, l: Limits, ops: seq<Op>, t: nat, day: nat)
    requires DistinctIds(rows) && Used(rows, t, day) <= EffectiveLimit(l, t)
    ensures DistinctIds(Run(rows, l, ops))
    ensures Used(Run(rows, l, ops), t, day)
            <= EffectiveLimit(l, t) + Overshoots(rows, l, ops, t, day) + Carried(rows, l, ops, t, day)
  {
    if ops != [] {
      var prefix, op := ops[..|ops| - 1], ops[|ops| - 1];
      DayBudgetBound(rows, l, prefix, t, day);
      var before := Run(rows, l, prefix);
      BoundStep(before, l, op, t, day, Overshoots(rows, l, prefix, t, day) + Carried(rows, l, prefix, t, day));
      StepKeepsIds(before, l, op);
    }
  }

  /** With every settlement on its row's own day nothing is carried: the reported overshoots alone bound the day. */
  lemma {:induction false} SameDayCarriesNothing(rows: seq<UsageRow>, l: Limits, ops: seq<Op>, t: nat, day: nat)
    requires SameDay(rows, l, ops)
    ensures Carried(rows, l, ops, t, day) == 0
  {
    if ops != [] {
      var prefix, op := ops[..|ops| - 1], ops[|ops| - 1];
      SameDayCarriesNothing(rows, l, prefix, t, day);
      if op.DoSettle? && op.tenant == t && DayOf(op.now) != day {
        NoGrowth(Run(rows, l, prefix), op.id, t, op.actual, day);
      }
    }
  }

  /** A settled or released row is final: no later reserve, settle or release changes it. */
  lemma {:induction false} FinalRowsStay(rows: seq<UsageRow>, l: Limits, ops: seq<Op>, i: nat)
    requires i < |rows| && rows[i].state != Reserved
    ensures i < |Run(rows, l, ops)| && Run(rows, l, ops)[i] == rows[i]
  {
    if ops != [] {
      FinalRowsStay(rows, l, ops[..|ops| - 1], i);
    }
  }

  /** Settling the next day escapes both days: the reserving day grows past its limit and nothing is reported. */
  lemma NextDaySettlementUnreported()
    ensures var l := Limits(10, map[]);
            var rows := [UsageRow(1, 7, 5, Reserved, 0, 0), UsageRow(2, 7, 5, Reserved, 0, 0)];
            && Used(rows, 7, 0) == EffectiveLimit(l, 7)
            && SettleReport(rows, l, 1, 7, 10, DAY_MS) == Report(10, 10, 0)
            && Used(Settle(rows, 1, 7, 10), 7, 0) == 15 && Growth(rows, 1, 7, 10, 0) == 5
  {
    var first, second := UsageRow(1, 7, 5, Reserved, 0, 0), UsageRow(2, 7, 5, Reserved, 0, 0);
    var rows := [first, second];
    assert rows[..1] == [first] && [first][..0] == [];
    assert Used([first], 7, 0) == 5;
    assert UsedByOthers([first], 7, 1, 1) == 0 && Growth([first], 1, 7, 10, 0) == 5;
    var after := Settle(rows, 1, 7, 10);
    var settled := UsageRow(1, 7, 10, Settled, 0, 0);
    assert after[..1] == [settled] && [settled][..0] == [];
    assert Used([settled], 7, 0) == 10;
  }
}
