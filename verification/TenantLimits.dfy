// The per-tenant limiter registry (src/policy/tenant-limits.ts:12-60): one token bucket per tenant,
// the least recently used tenant dropped when a new one finds no room.

module TenantLimits {
  import opened Base
  import opened RateLimit

  datatype Limits = Limits(maxTenants: nat, burstCeiling: nat)

  /** A tenant's limiter as a value: its rate and the rows of its own table. */
  datatype Entry = Entry(rpm: nat, table: Table)

  datatype Registry = Registry(limiters: map<Key, Entry>, order: seq<Key>)

  const NO_ROWS := Table(map[], [])

  /** What the constructor enforces. */
  predicate ProperLimits(l: Limits) { l.maxTenants > 0 && l.burstCeiling > 0 }

  /** The limiter a tenant with this rate gets: room for one key, since only the tenant itself uses it. */
  function Own(l: Limits, rpm: nat): (c: Config)
    requires ProperLimits(l) && rpm > 0
    ensures Proper(c)
  {
    Config(rpm, Max(1, Min(l.burstCeiling, rpm)), 1, 120_000)
  }

  predicate Holds(r: Registry, tenant: Key, rpm: nat) { tenant in r.limiters && r.limiters[tenant].rpm == rpm }

  function Rest(r: Registry, tenant: Key): Registry { Registry(r.limiters - {tenant}, Without(r.order, tenant)) }

  /** Least recently used tenants go until there is room for one more. */
  function Trimmed(l: Limits, r: Registry): Registry
    requires ProperLimits(l)
    decreases |r.order|
  {
    if |r.order| < l.maxTenants then r else Trimmed(l, Registry(r.limiters - {r.order[0]}, r.order[1..]))
  }

  function Added(r: Registry, tenant: Key, e: Entry): Registry {
    Registry(r.limiters[tenant := e], r.order + [tenant])
  }

  /** The limiter the call is charged to, before the charge. */
  function TableFor(r: Registry, tenant: Key, rpm: nat): Table {
    if Holds(r, tenant, rpm) then r.limiters[tenant].table else NO_ROWS
  }

  function RateOf(ratePerMinute: int): nat { Max(1, ratePerMinute) }

  function Serve(l: Limits, r: Registry, tenant: Key, ratePerMinute: int, now: nat): (Registry, Decision)
    requires ProperLimits(l)
  {
    var rpm := RateOf(ratePerMinute);
    var room := if Holds(r, tenant, rpm) then Rest(r, tenant) else Trimmed(l, Rest(r, tenant));
    var (t, d) := Consume(Own(l, rpm), TableFor(r, tenant, rpm), tenant, now);
    (Added(room, tenant, Entry(rpm, t)), d)
  }

  /** Each tenant once, no more tenants than allowed, and nothing but its own bucket in a tenant's limiter. */
  ghost predicate Bounded(l: Limits, r: Registry) {
    && NoRepeats(r.order) && |r.order| <= l.maxTenants
    && (forall k :: k in r.order <==> k in r.limiters)
    && (forall k :: k in r.limiters ==> r.limiters[k].rpm > 0 && OwnTable(r.limiters[k].table, k))
  }

  ghost predicate OwnTable(t: Table, tenant: Key) { t.order == [tenant] && t.buckets.Keys == {tenant} }

  // ---- The registry itself ----

  class TenantRateLimiterRegistry {
    const limits: Limits
    var limiters: map<Key, Entry>
    var order: seq<Key>

    ghost function State(): Registry reads this { Registry(limiters, order) }

    constructor (limits: Limits)
      requires ProperLimits(limits)
      ensures this.limits == limits && State() == Registry(map[], [])
    {
      this.limits := limits;
      limiters, order := map[], [];
    }

    method Delete(tenant: Key)
      modifies this`limiters, this`order
      ensures State() == Rest(old(State()), tenant)
    {
      limiters, order := limiters - {tenant}, Without(order, tenant);
    }

    method MakeRoom()
      requires ProperLimits(limits)
      modifies this`limiters, this`order
      ensures State() == Trimmed(limits, old(State()))
    {
      while |order| >= limits.maxTenants
        invariant Trimmed(limits, State()) == Trimmed(limits, old(State()))
        decreases |order|
      {
        limiters, order := limiters - {order[0]}, order[1..];
      }
    }

    method ConsumeFor(tenant: Key, ratePerMinute: int, now: nat) returns (d: Decision)
      requires ProperLimits(limits) && Bounded(limits, State())
      modifies this`limiters, this`order
      ensures Bounded(limits, State())
      ensures (State(), d) == Serve(limits, old(State()), tenant, ratePerMinute, now)
    {
      ghost var start := State();
      var rpm := RateOf(ratePerMinute);
      var table := NO_ROWS;
      if tenant in limiters && limiters[tenant].rpm != rpm {
        Delete(tenant);
      }
      if tenant in limiters {
        table := limiters[tenant].table;
        Delete(tenant);
      } else {
        RestTwice(start, tenant);
        MakeRoom();
      }
      var (t, decision) := Consume(Own(limits, rpm), table, tenant, now);
      limiters, order := limiters[tenant := Entry(rpm, t)], order + [tenant];
      d := decision;
      ServeKeeps(limits, start, tenant, ratePerMinute, now);
    }
  }

  // ---- What every call keeps ----

  /** Nothing is left to delete the second time; a tenant without an entry has nothing to delete. */
  lemma RestTwice(r: Registry, tenant: Key)
    requires forall k :: k in r.order <==> k in r.limiters
    ensures Rest(Rest(r, tenant), tenant) == Rest(r, tenant)
    ensures tenant !in r.limiters ==> Rest(r, tenant) == r
  {
    WithoutAbsent(Without(r.order, tenant), tenant);
    if tenant !in r.limiters {
      WithoutAbsent(r.order, tenant);
    }
  }

  lemma RestKeeps(l: Limits, r: Registry, tenant: Key)
    requires Bounded(l, r)
    ensures Bounded(l, Rest(r, tenant)) && tenant !in Rest(r, tenant).order
    ensures tenant in r.order ==> |Rest(r, tenant).order| < |r.order|
  {
    WithoutNoRepeats(r.order, tenant);
    if tenant in r.order {
      WithoutShorter(r.order, tenant);
    }
  }

  lemma {:induction false} WithoutShorter(order: seq<Key>, key: Key)
    requires key in order
    ensures |Without(order, key)| < |order|
  {
    var prefix, last := order[..|order| - 1], order[|order| - 1];
    if last != key {
      assert order == prefix + [last];
      WithoutShorter(prefix, key);
    }
  }

  lemma {:induction false} TrimKeeps(l: Limits, r: Registry)
    requires ProperLimits(l) && Bounded(l, r)
    ensures var t := Trimmed(l, r);
            && Bounded(l, t) && |t.order| < l.maxTenants
            && (forall k :: k in t.order ==> k in r.order)
            && (forall k :: k in t.limiters ==> k in r.limiters && t.limiters[k] == r.limiters[k])
    decreases |r.order|
  {
    if |r.order| >= l.maxTenants {
      TailNoRepeats(r.order);
      TrimKeeps(l, Registry(r.limiters - {r.order[0]}, r.order[1..]));
    }
  }

  lemma AddKeeps(l: Limits, r: Registry, tenant: Key, e: Entry)
    requires Bounded(l, r) && tenant !in r.order && |r.order| < l.maxTenants
    requires e.rpm > 0 && OwnTable(e.table, tenant)
    ensures Bounded(l, Added(r, tenant, e))
  {
    assert (r.order + [tenant])[..|r.order|] == r.order;
  }

  /** Only the tenant's own bucket is ever in its limiter, so the limiter never lacks room. */
  lemma OwnStep(c: Config, t: Table, tenant: Key, now: nat)
    requires Proper(c) && c.maxEntries == 1 && (t == NO_ROWS || OwnTable(t, tenant))
    ensures !CapacityRefused(c, t, tenant, now)
    ensures OwnTable(Consume(c, t, tenant, now).0, tenant)
    ensures Consume(c, t, tenant, now).1 == Plain(c, t.buckets, tenant, now).1
    ensures Consume(c, t, tenant, now).0.buckets == Plain(c, t.buckets, tenant, now).0
  {
    var e := EvictIdle(c, t, now);
    if t == NO_ROWS {
      assert e == NO_ROWS;
    } else {
      assert t.order[..0] == [];
      assert Without(t.order, tenant) == [];
    }
  }

  /** Every call keeps the registry bounded, and no tenant is turned away for want of room. */
  lemma ServeKeeps(l: Limits, r: Registry, tenant: Key, ratePerMinute: int, now: nat)
    requires ProperLimits(l) && Bounded(l, r)
    ensures Bounded(l, Serve(l, r, tenant, ratePerMinute, now).0)
    ensures !CapacityRefused(Own(l, RateOf(ratePerMinute)), TableFor(r, tenant, RateOf(ratePerMinute)), tenant, now)
  {
    var rpm := RateOf(ratePerMinute);
    RestKeeps(l, r, tenant);
    TrimKeeps(l, Rest(r, tenant));
    OwnStep(Own(l, rpm), TableFor(r, tenant, rpm), tenant, now);
    var room := if Holds(r, tenant, rpm) then Rest(r, tenant) else Trimmed(l, Rest(r, tenant));
    AddKeeps(l, room, tenant, Entry(rpm, Consume(Own(l, rpm), TableFor(r, tenant, rpm), tenant, now).0));
  }

  // ---- Runs ----

  datatype Visit = Visit(tenant: Key, ratePerMinute: int, now: nat)

  function ServeAll(l: Limits, r: Registry, visits: seq<Visit>): Registry
    requires ProperLimits(l)
  {
    if visits == [] then r
    else
      var v := visits[|visits| - 1];
      Serve(l, ServeAll(l, r, visits[..|visits| - 1]), v.tenant, v.ratePerMinute, v.now).0
  }

  ghost function Visitors(visits: seq<Visit>): set<Key> { set v | v in visits :: v.tenant }

  /** Every run keeps the registry bounded. */
  lemma {:induction false} RunBounded(l: Limits, r: Registry, visits: seq<Visit>)
    requires ProperLimits(l) && Bounded(l, r)
    ensures Bounded(l, ServeAll(l, r, visits))
  {
    if visits != [] {
      var v := visits[|visits| - 1];
      RunBounded(l, r, visits[..|visits| - 1]);
      ServeKeeps(l, ServeAll(l, r, visits[..|visits| - 1]), v.tenant, v.ratePerMinute, v.now);
    }
  }

  // ---- Least recently used ----

  /** The tenants served since `tenant` was. */
  function Since(order: seq<Key>, tenant: Key): seq<Key> {
    if order == [] || order[|order| - 1] == tenant then []
    else Since(order[..|order| - 1], tenant) + [order[|order| - 1]]
  }

  /** Only tenants of `others` have been served since `tenant` was. */
  ghost predicate SinceWithin(r: Registry, tenant: Key, others: set<Key>) {
    tenant in r.order && forall k :: k in Since(r.order, tenant) ==> k in others
  }

  lemma {:induction false} SinceIn(order: seq<Key>, tenant: Key)
    ensures forall k :: k in Since(order, tenant) ==> k in order
  {
    if order != [] && order[|order| - 1] != tenant {
      assert order == order[..|order| - 1] + [order[|order| - 1]];
      SinceIn(order[..|order| - 1], tenant);
    }
  }

  lemma {:induction false} SinceWithout(order: seq<Key>, tenant: Key, key: Key)
    requires key != tenant
    ensures Since(Without(order, key), tenant) == Without(Since(order, tenant), key)
  {
    if order != [] {
      var prefix, last := order[..|order| - 1], order[|order| - 1];
      SinceWithout(prefix, tenant, key);
      var rest := Without(prefix, key);
      if last != key {
        assert (rest + [last])[..|rest|] == rest;
      }
      if last != tenant {
        var since := Since(prefix, tenant);
        assert (since + [last])[..|since|] == since;
      }
    }
  }

  lemma {:induction false} SinceTail(order: seq<Key>, tenant: Key)
    requires tenant in order && NoRepeats(order)
    ensures Since(order, tenant) == if order[0] == tenant then order[1..] else Since(order[1..], tenant)
  {
    var prefix, last := order[..|order| - 1], order[|order| - 1];
    assert order == prefix + [last];
    if last != tenant {
      SinceTail(prefix, tenant);
      assert order[1..] == prefix[1..] + [last];
      assert order[1..][..|order| - 2] == prefix[1..];
    } else if |order| > 1 {
      assert order[0] in prefix;
      assert order[1..][|order| - 2] == tenant;
    }
  }

  lemma {:induction false} SizeOfOrder(order: seq<Key>, s: set<Key>)
    requires NoRepeats(order) && forall k :: k in order ==> k in s
    ensures |order| <= |s|
  {
    if order != [] {
      var last := order[|order| - 1];
      SizeOfOrder(order[..|order| - 1], s - {last});
    }
  }

  /** Making room never drops a tenant with few others served since. */
  lemma {:induction false} TrimSpares(l: Limits, r: Registry, tenant: Key, others: set<Key>)
    requires ProperLimits(l) && Bounded(l, r) && SinceWithin(r, tenant, others) && |others| + 1 < l.maxTenants
    ensures SinceWithin(Trimmed(l, r), tenant, others)
    ensures tenant in Trimmed(l, r).limiters && Trimmed(l, r).limiters[tenant] == r.limiters[tenant]
    decreases |r.order|
  {
    TrimKeeps(l, r);
    if |r.order| >= l.maxTenants {
      TailNoRepeats(r.order);
      SinceTail(r.order, tenant);
      if r.order[0] == tenant {
        SizeOfOrder(r.order[1..], others);
        assert false;
      } else {
        TrimSpares(l, Registry(r.limiters - {r.order[0]}, r.order[1..]), tenant, others);
      }
    }
  }

  lemma RestSpares(l: Limits, r: Registry, tenant: Key, others: set<Key>, visitor: Key)
    requires Bounded(l, r) && SinceWithin(r, tenant, others) && visitor != tenant
    ensures Bounded(l, Rest(r, visitor)) && SinceWithin(Rest(r, visitor), tenant, others - {visitor})
    ensures Rest(r, visitor).limiters[tenant] == r.limiters[tenant]
  {
    RestKeeps(l, r, visitor);
    SinceWithout(r.order, tenant, visitor);
  }

  lemma SinceAdded(r: Registry, tenant: Key, others: set<Key>, visitor: Key, e: Entry)
    requires SinceWithin(r, tenant, others - {visitor}) && visitor in others && visitor != tenant
    ensures SinceWithin(Added(r, visitor, e), tenant, others)
  {
    assert (r.order + [visitor])[..|r.order|] == r.order;
  }

  /** One visit by another tenant leaves the limiter alone, while there are fewer others than places. */
  lemma VisitSpares(l: Limits, r: Registry, tenant: Key, others: set<Key>, v: Visit)
    requires ProperLimits(l) && Bounded(l, r) && SinceWithin(r, tenant, others) && |others| < l.maxTenants
    requires v.tenant in others && v.tenant != tenant
    ensures var s := Serve(l, r, v.tenant, v.ratePerMinute, v.now).0;
            SinceWithin(s, tenant, others) && tenant in s.limiters && s.limiters[tenant] == r.limiters[tenant]
  {
    var rpm := RateOf(v.ratePerMinute);
    var rest := Rest(r, v.tenant);
    RestSpares(l, r, tenant, others, v.tenant);
    if !Holds(r, v.tenant, rpm) {
      TrimSpares(l, rest, tenant, others - {v.tenant});
      TrimKeeps(l, rest);
    }
    var room := if Holds(r, v.tenant, rpm) then rest else Trimmed(l, rest);
    SinceAdded(room, tenant, others, v.tenant,
               Entry(rpm, Consume(Own(l, rpm), TableFor(r, v.tenant, rpm), v.tenant, v.now).0));
  }

  lemma {:induction false} RunSpares(l: Limits, r: Registry, tenant: Key, others: set<Key>, visits: seq<Visit>)
    requires ProperLimits(l) && Bounded(l, r) && SinceWithin(r, tenant, others) && |others| < l.maxTenants
    requires forall i :: 0 <= i < |visits| ==> visits[i].tenant in others && visits[i].tenant != tenant
    ensures var s := ServeAll(l, r, visits);
            SinceWithin(s, tenant, others) && tenant in s.limiters && s.limiters[tenant] == r.limiters[tenant]
  {
    if visits != [] {
      var prefix := visits[..|visits| - 1];
      RunSpares(l, r, tenant, others, prefix);
      RunBounded(l, r, prefix);
      VisitSpares(l, ServeAll(l, r, prefix), tenant, others, visits[|visits| - 1]);
    }
  }

  /**
   * Least recently used: a tenant's limiter is untouched until as many other tenants as there are
   * places have been served since the tenant itself was.
   */
  lemma RecentTenantKept(l: Limits, r: Registry, mine: Visit, visits: seq<Visit>)
    requires ProperLimits(l) && Bounded(l, r)
    requires mine.tenant !in Visitors(visits) && |Visitors(visits)| < l.maxTenants
    ensures var s := Serve(l, r, mine.tenant, mine.ratePerMinute, mine.now).0;
            var e := ServeAll(l, s, visits);
            mine.tenant in s.limiters && mine.tenant in e.limiters && e.limiters[mine.tenant] == s.limiters[mine.tenant]
  {
    var s := Serve(l, r, mine.tenant, mine.ratePerMinute, mine.now).0;
    ServeKeeps(l, r, mine.tenant, mine.ratePerMinute, mine.now);
    forall i | 0 <= i < |visits| ensures visits[i].tenant in Visitors(visits) { assert visits[i] in visits; }
    RunSpares(l, s, mine.tenant, Visitors(visits), visits);
  }

  /** Once `tenant` is in the order, everyone in `seen` has been served since it was. */
  ghost predicate SeenSince(r: Registry, tenant: Key, seen: set<Key>) {
    tenant in r.order ==> forall k :: k in seen ==> k in Since(r.order, tenant)
  }

  lemma {:induction false} TrimSince(l: Limits, r: Registry, tenant: Key)
    requires ProperLimits(l) && Bounded(l, r) && tenant in Trimmed(l, r).order
    ensures tenant in r.order && Since(Trimmed(l, r).order, tenant) == Since(r.order, tenant)
    decreases |r.order|
  {
    if |r.order| >= l.maxTenants {
      var rest := Registry(r.limiters - {r.order[0]}, r.order[1..]);
      TailNoRepeats(r.order);
      TrimSince(l, rest, tenant);
      SinceTail(r.order, tenant);
    }
  }

  lemma AddedSeen(r: Registry, tenant: Key, seen: set<Key>, visitor: Key, e: Entry)
    requires SeenSince(r, tenant, seen - {visitor}) && visitor != tenant
    ensures SeenSince(Added(r, visitor, e), tenant, seen + {visitor})
  {
    assert (r.order + [visitor])[..|r.order|] == r.order;
  }

  lemma VisitSeen(l: Limits, r: Registry, tenant: Key, seen: set<Key>, v: Visit)
    requires ProperLimits(l) && Bounded(l, r) && SeenSince(r, tenant, seen) && v.tenant != tenant
    ensures SeenSince(Serve(l, r, v.tenant, v.ratePerMinute, v.now).0, tenant, seen + {v.tenant})
  {
    var rpm, rest := RateOf(v.ratePerMinute), Rest(r, v.tenant);
    RestKeeps(l, r, v.tenant);
    SinceWithout(r.order, tenant, v.tenant);
    assert SeenSince(rest, tenant, seen - {v.tenant});
    var room := if Holds(r, v.tenant, rpm) then rest else Trimmed(l, rest);
    if tenant in room.order && !Holds(r, v.tenant, rpm) {
      TrimSince(l, rest, tenant);
    }
    AddedSeen(room, tenant, seen, v.tenant,
              Entry(rpm, Consume(Own(l, rpm), TableFor(r, v.tenant, rpm), v.tenant, v.now).0));
  }

  lemma {:induction false} RunSeen(l: Limits, r: Registry, tenant: Key, visits: seq<Visit>)
    requires ProperLimits(l) && Bounded(l, r) && tenant !in Visitors(visits)
    ensures SeenSince(ServeAll(l, r, visits), tenant, Visitors(visits))
  {
    if visits != [] {
      var prefix, v := visits[..|visits| - 1], visits[|visits| - 1];
      assert visits == prefix + [v];
      assert Visitors(visits) == Visitors(prefix) + {v.tenant};
      RunSeen(l, r, tenant, prefix);
      RunBounded(l, r, prefix);
      VisitSeen(l, ServeAll(l, r, prefix), tenant, Visitors(prefix), v);
    }
  }

  lemma {:induction false} OrderSize(order: seq<Key>, s: set<Key>)
    requires forall k :: k in s ==> k in order
    ensures |s| <= |order|
  {
    if order != [] {
      var prefix, last := order[..|order| - 1], order[|order| - 1];
      assert order == prefix + [last];
      OrderSize(prefix, s - {last});
      assert s <= s - {last} + {last};
    } else {
      assert s == {};
    }
  }

  lemma CrowdedOut(l: Limits, r: Registry, tenant: Key, visits: seq<Visit>)
    requires ProperLimits(l) && Bounded(l, r) && tenant !in Visitors(visits) && |Visitors(visits)| >= l.maxTenants
    ensures tenant !in ServeAll(l, r, visits).limiters
  {
    var e := ServeAll(l, r, visits);
    RunSeen(l, r, tenant, visits);
    RunBounded(l, r, visits);
    if tenant in e.order {
      SinceIn(e.order, tenant);
      OrderSize(e.order, Visitors(visits) + {tenant});
    }
  }

  /**
   * Least recently used, exactly: a tenant still has its limiter, untouched, if and only if fewer other
   * tenants than there are places have been served since it was.
   */
  lemma TenantKeptExactly(l: Limits, r: Registry, mine: Visit, visits: seq<Visit>)
    requires ProperLimits(l) && Bounded(l, r) && mine.tenant !in Visitors(visits)
    ensures var s := Serve(l, r, mine.tenant, mine.ratePerMinute, mine.now).0;
            var e := ServeAll(l, s, visits);
            && (mine.tenant in e.limiters <==> |Visitors(visits)| < l.maxTenants)
            && (mine.tenant in e.limiters ==>
                  mine.tenant in s.limiters && e.limiters[mine.tenant] == s.limiters[mine.tenant])
  {
    ServeKeeps(l, r, mine.tenant, mine.ratePerMinute, mine.now);
    if |Visitors(visits)| < l.maxTenants {
      RecentTenantKept(l, r, mine, visits);
    } else {
      CrowdedOut(l, Serve(l, r, mine.tenant, mine.ratePerMinute, mine.now).0, mine.tenant, visits);
    }
  }

  // ---- A tenant's own limits ----

  /**
   * A tenant's rate is what it asks for, at least one a minute; its burst is the whole rate or the ceiling,
   * whichever is smaller, and a bucket of its own lasts two idle minutes.
   */
  lemma OwnLimits(l: Limits, ratePerMinute: int)
    requires ProperLimits(l)
    ensures var c := Own(l, RateOf(ratePerMinute));
            && c.rpm == (if ratePerMinute >= 1 then ratePerMinute else 1)
            && 1 <= c.burst <= l.burstCeiling && c.burst <= c.rpm && (c.burst == l.burstCeiling || c.burst == c.rpm)
            && c.maxEntries == 1 && c.idleMs == 2 * 60_000
  {
  }

  /** The tenant is served last, by a limiter of the rate it asks for. */
  lemma ServedAtItsRate(l: Limits, r: Registry, tenant: Key, ratePerMinute: int, now: nat)
    requires ProperLimits(l)
    ensures var (s, d) := Serve(l, r, tenant, ratePerMinute, now);
            && tenant in s.limiters && s.limiters[tenant].rpm == (if ratePerMinute >= 1 then ratePerMinute else 1)
            && |s.order| > 0 && s.order[|s.order| - 1] == tenant
  {
  }

  /** A tenant whose rate has changed starts over with a whole burst; one whose rate has not goes on from its bucket. */
  lemma RateChangeStartsOver(l: Limits, r: Registry, tenant: Key, rpm: nat, now: nat)
    requires ProperLimits(l) && rpm >= 1 && tenant in r.limiters
    ensures var (s, d) := Serve(l, r, tenant, rpm, now);
            tenant in s.limiters
            && if r.limiters[tenant].rpm != rpm then
                 d.allowed && s.limiters[tenant].table
                              == Table(map[tenant := Bucket(60_000 * (Own(l, rpm).burst - 1), now)], [tenant])
               else (s.limiters[tenant].table, d) == Consume(Own(l, rpm), r.limiters[tenant].table, tenant, now)
  {
    FirstCall(Own(l, rpm), tenant, now);
  }

  lemma FirstCall(c: Config, tenant: Key, now: nat)
    requires Proper(c)
    ensures Consume(c, NO_ROWS, tenant, now)
            == (Table(map[tenant := Bucket(60_000 * (c.burst - 1), now)], [tenant]), Decision(true, 0))
  {
    assert EvictIdle(c, NO_ROWS, now) == NO_ROWS && Full(c) == 60_000 * c.burst;
    assert Without(NO_ROWS.order, tenant) + [tenant] == [tenant];
    assert NO_ROWS.buckets[tenant := Spend(Full(c), now)] == map[tenant := Bucket(60_000 * (c.burst - 1), now)];
  }

  // ---- With room for everyone, each tenant has a limiter of its own ----

  /** A limiter that only ever sees this tenant's visits, and never forgets. */
  function OwnRun(c: Config, visits: seq<Visit>, tenant: Key): map<Key, Bucket>
    requires Proper(c)
  {
    if visits == [] then map[]
    else
      var v := visits[|visits| - 1];
      var m := OwnRun(c, visits[..|visits| - 1], tenant);
      if v.tenant == tenant then Plain(c, m, tenant, v.now).0 else m
  }

  /** The registry holds for `tenant` exactly the buckets `m`, and only `others` were served since. */
  ghost predicate Mirrors(r: Registry, tenant: Key, rpm: nat, m: map<Key, Bucket>, others: set<Key>) {
    if tenant in r.limiters then
      r.limiters[tenant].rpm == rpm && r.limiters[tenant].table.buckets == m && SinceWithin(r, tenant, others)
    else m == map[]
  }

  lemma OwnVisit(l: Limits, r: Registry, tenant: Key, rate: int, m: map<Key, Bucket>, others: set<Key>, now: nat)
    requires ProperLimits(l) && Bounded(l, r) && Mirrors(r, tenant, RateOf(rate), m, others)
    ensures Serve(l, r, tenant, rate, now).1 == Plain(Own(l, RateOf(rate)), m, tenant, now).1
    ensures Mirrors(Serve(l, r, tenant, rate, now).0, tenant, RateOf(rate),
                    Plain(Own(l, RateOf(rate)), m, tenant, now).0, others)
  {
    OwnStep(Own(l, RateOf(rate)), TableFor(r, tenant, RateOf(rate)), tenant, now);
  }

  lemma OtherVisit(l: Limits, r: Registry, tenant: Key, rpm: nat, m: map<Key, Bucket>, others: set<Key>, v: Visit)
    requires ProperLimits(l) && Bounded(l, r) && Mirrors(r, tenant, rpm, m, others) && |others| < l.maxTenants
    requires v.tenant in others && v.tenant != tenant
    ensures Mirrors(Serve(l, r, v.tenant, v.ratePerMinute, v.now).0, tenant, rpm, m, others)
  {
    if tenant in r.limiters {
      VisitSpares(l, r, tenant, others, v);
    } else {
      RestKeeps(l, r, v.tenant);
      TrimKeeps(l, Rest(r, v.tenant));
    }
  }

  /** Each of its visits asks for the same rate. */
  ghost predicate Steady(visits: seq<Visit>, tenant: Key, rate: int) {
    forall i :: 0 <= i < |visits| && visits[i].tenant == tenant ==> visits[i].ratePerMinute == rate
  }

  lemma {:induction false} RunMirrors(l: Limits, start: Registry, visits: seq<Visit>, tenant: Key, rate: int,
                                      others: set<Key>)
    requires ProperLimits(l) && Bounded(l, start) && tenant !in start.limiters
    requires Steady(visits, tenant, rate) && |others| < l.maxTenants
    requires forall i :: 0 <= i < |visits| ==> visits[i].tenant == tenant || visits[i].tenant in others
    ensures var r := ServeAll(l, start, visits);
            Bounded(l, r) && Mirrors(r, tenant, RateOf(rate), OwnRun(Own(l, RateOf(rate)), visits, tenant), others)
  {
    RunBounded(l, start, visits);
    if visits != [] {
      var prefix, v := visits[..|visits| - 1], visits[|visits| - 1];
      var r, m := ServeAll(l, start, prefix), OwnRun(Own(l, RateOf(rate)), prefix, tenant);
      RunMirrors(l, start, prefix, tenant, rate, others);
      if v.tenant == tenant {
        OwnVisit(l, r, tenant, rate, m, others, v.now);
      } else {
        OtherVisit(l, r, tenant, RateOf(rate), m, others, v);
      }
    }
  }

  /**
   * While no more tenants call than there are places, a tenant with a steady rate is answered as by
   * an unbounded limiter of its own, whatever the others do.
   */
  lemma TenantsAreIsolated(l: Limits, visits: seq<Visit>, tenant: Key, rate: int, now: nat)
    requires ProperLimits(l) && Steady(visits, tenant, rate)
    requires |Visitors(visits) + {tenant}| <= l.maxTenants
    ensures Serve(l, ServeAll(l, Registry(map[], []), visits), tenant, rate, now).1
            == Plain(Own(l, RateOf(rate)), OwnRun(Own(l, RateOf(rate)), visits, tenant), tenant, now).1
  {
    var others := Visitors(visits) - {tenant};
    assert Visitors(visits) + {tenant} == others + {tenant};
    forall i | 0 <= i < |visits| ensures visits[i].tenant == tenant || visits[i].tenant in others {
      assert visits[i] in visits;
    }
    RunMirrors(l, Registry(map[], []), visits, tenant, rate, others);
    OwnVisit(l, ServeAll(l, Registry(map[], []), visits), tenant, rate,
             OwnRun(Own(l, RateOf(rate)), visits, tenant), others, now);
  }

  lemma ServeLast(l: Limits, r: Registry, visits: seq<Visit>, more: seq<Visit>, v: Visit)
    requires ProperLimits(l) && more == visits + [v]
    ensures ServeAll(l, r, more) == Serve(l, ServeAll(l, r, visits), v.tenant, v.ratePerMinute, v.now).0
  {
    assert more[..|visits|] == visits;
  }

  lemma {:induction false} ServeConcat(l: Limits, r: Registry, s: seq<Visit>, t: seq<Visit>)
    requires ProperLimits(l)
    ensures ServeAll(l, r, s + t) == ServeAll(l, ServeAll(l, r, s), t)
  {
    if t == [] {
      assert s + t == s;
    } else {
      var prefix, v := t[..|t| - 1], t[|t| - 1];
      ServeConcat(l, r, s, prefix);
      SplitLast(s, t);
      SameLast(l, r, ServeAll(l, r, s), s + prefix, prefix, s + t, t, v);
    }
  }

  lemma SplitLast(s: seq<Visit>, t: seq<Visit>)
    requires t != []
    ensures t == t[..|t| - 1] + [t[|t| - 1]] && s + t == (s + t[..|t| - 1]) + [t[|t| - 1]]
  {
  }

  lemma SameLast(l: Limits, r: Registry, s: Registry, long: seq<Visit>, short: seq<Visit>,
                 longer: seq<Visit>, shorter: seq<Visit>, v: Visit)
    requires ProperLimits(l) && ServeAll(l, r, long) == ServeAll(l, s, short)
    requires longer == long + [v] && shorter == short + [v]
    ensures ServeAll(l, r, longer) == ServeAll(l, s, shorter)
  {
    ServeLast(l, r, long, longer, v);
    ServeLast(l, s, short, shorter, v);
  }

  lemma {:induction false} OwnIgnores(c: Config, s: seq<Visit>, visits: seq<Visit>, tenant: Key)
    requires Proper(c) && tenant !in Visitors(visits)
    ensures OwnRun(c, s + visits, tenant) == OwnRun(c, s, tenant)
  {
    if visits == [] {
      assert s + visits == s;
    } else {
      SplitLast(s, visits);
      assert visits[|visits| - 1] in visits;
      assert (s + visits)[..|s + visits| - 1] == s + visits[..|visits| - 1];
      OwnIgnores(c, s, visits[..|visits| - 1], tenant);
    }
  }

  /** The same visit `n` times. */
  function Repeated(v: Visit, n: nat): seq<Visit> { seq(n, _ => v) }

  /** A limiter of its own gives a burst away one token at a time. */
  lemma {:induction false} OwnBurst(c: Config, v: Visit, n: nat)
    requires Proper(c) && n <= c.burst
    ensures OwnRun(c, Repeated(v, n), v.tenant)
            == if n == 0 then map[] else map[v.tenant := Bucket(Full(c) - Tokens(n), v.now)]
  {
    if n > 0 {
      OwnBurst(c, v, n - 1);
      assert Repeated(v, n)[..|Repeated(v, n)| - 1] == Repeated(v, n - 1);
      OwnNext(c, v, n - 1);
    }
  }

  lemma OwnNext(c: Config, v: Visit, n: nat)
    requires Proper(c) && n < c.burst
    ensures var m := if n == 0 then map[] else map[v.tenant := Bucket(Full(c) - Tokens(n), v.now)];
            && Plain(c, m, v.tenant, v.now).0 == map[v.tenant := Bucket(Full(c) - Tokens(n + 1), v.now)]
            && Plain(c, m, v.tenant, v.now).1.allowed
  {
  }

  lemma OwnSpent(c: Config, v: Visit)
    requires Proper(c)
    ensures !Plain(c, OwnRun(c, Repeated(v, c.burst), v.tenant), v.tenant, v.now).1.allowed
  {
    OwnBurst(c, v, c.burst);
  }

  /** A tenant without an entry is served a whole burst. */
  lemma FreshBurst(l: Limits, r: Registry, v: Visit, n: nat)
    requires ProperLimits(l) && Bounded(l, r) && v.tenant !in r.limiters
    requires n < Own(l, RateOf(v.ratePerMinute)).burst
    ensures Serve(l, ServeAll(l, r, Repeated(v, n)), v.tenant, v.ratePerMinute, v.now).1.allowed
  {
    var c, s := Own(l, RateOf(v.ratePerMinute)), ServeAll(l, r, Repeated(v, n));
    RunMirrors(l, r, Repeated(v, n), v.tenant, v.ratePerMinute, {});
    OwnVisit(l, s, v.tenant, v.ratePerMinute, OwnRun(c, Repeated(v, n), v.tenant), {}, v.now);
    OwnBurst(c, v, n);
    OwnNext(c, v, n);
  }

  /**
   * Beyond that the tenant starts afresh: it spends its burst, as many others as there are places are
   * served, and in the same instant it is given another whole burst, of which a limiter of its own would
   * refuse the first call.
   */
  lemma CrowdingResets(l: Limits, v: Visit, visits: seq<Visit>, n: nat)
    requires ProperLimits(l) && v.tenant !in Visitors(visits) && |Visitors(visits)| >= l.maxTenants
    requires n < Own(l, RateOf(v.ratePerMinute)).burst
    ensures var c := Own(l, RateOf(v.ratePerMinute));
            var crowded := Repeated(v, c.burst) + visits;
            && Serve(l, ServeAll(l, Registry(map[], []), crowded + Repeated(v, n)),
                     v.tenant, v.ratePerMinute, v.now).1.allowed
            && !Plain(c, OwnRun(c, crowded, v.tenant), v.tenant, v.now).1.allowed
  {
    var c, none := Own(l, RateOf(v.ratePerMinute)), Registry(map[], []);
    var first := Repeated(v, c.burst);
    ServeConcat(l, none, first, visits);
    ServeConcat(l, none, first + visits, Repeated(v, n));
    RunBounded(l, none, first);
    RunBounded(l, none, first + visits);
    CrowdedOut(l, ServeAll(l, none, first), v.tenant, visits);
    FreshBurst(l, ServeAll(l, none, first + visits), v, n);
    OwnIgnores(c, first, visits, v.tenant);
    OwnSpent(c, v);
  }

  /** Such a crowd exists for every size. */
  function OneEach(n: nat, first: Key, now: nat): seq<Visit> {
    if n == 0 then [] else OneEach(n - 1, first, now) + [Visit(first + n - 1, 1, now)]
  }

  lemma {:induction false} OneEachVisitors(n: nat, first: Key, now: nat)
    ensures |Visitors(OneEach(n, first, now))| == n
    ensures forall k :: k in Visitors(OneEach(n, first, now)) ==> first <= k < first + n
  {
    if n > 0 {
      var rest, last := OneEach(n - 1, first, now), Visit(first + n - 1, 1, now);
      OneEachVisitors(n - 1, first, now);
      assert Visitors(rest + [last]) == Visitors(rest) + {last.tenant};
    }
  }

  lemma {:induction false} WithoutNoRepeats(order: seq<Key>, key: Key)
    requires NoRepeats(order)
    ensures NoRepeats(Without(order, key))
  {
    if order != [] {
      WithoutNoRepeats(order[..|order| - 1], key);
      var rest := Without(order[..|order| - 1], key);
      if order[|order| - 1] != key {
        assert (rest + [order[|order| - 1]])[..|rest|] == rest;
      }
    }
  }

  lemma {:induction false} TailNoRepeats(order: seq<Key>)
    requires NoRepeats(order) && order != []
    ensures NoRepeats(order[1..]) && order[0] !in order[1..]
    ensures forall k :: k in order[1..] <==> k in order && k != order[0]
  {
    if |order| > 1 {
      var prefix, last := order[..|order| - 1], order[|order| - 1];
      TailNoRepeats(prefix);
      assert order[1..] == prefix[1..] + [last];
      assert order[1..][..|order| - 2] == prefix[1..];
    }
  }
}
