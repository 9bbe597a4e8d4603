// Bounded in-flight work: the upstream semaphore (src/policy/semaphore.ts), the per-tenant
// registry (src/policy/tenant-limits.ts:68-95) and the permit a wrapped response body holds
// (src/upstream.ts:24-42). A release closure is an object with its own `released` flag.

module Permits {
  import opened Base

  // ---- The tenant map as a value ----

  function InUse(active: map<nat, nat>, tenant: nat): nat { if tenant in active then active[tenant] else 0 }

  function Ceiling(limit: int): nat { Max(1, limit) }

  /** The map with one more slot taken, unless the tenant or the registry is full. */
  function Acquired(active: map<nat, nat>, maxTenants: nat, tenant: nat, limit: int): Option<map<nat, nat>> {
    if InUse(active, tenant) >= Ceiling(limit) then None
    else if InUse(active, tenant) == 0 && |active| >= maxTenants then None
    else Some(active[tenant := InUse(active, tenant) + 1])
  }

  /** The map with one slot given back; a tenant at zero leaves the map. */
  function GivenBack(active: map<nat, nat>, tenant: nat): map<nat, nat> {
    var next := (if tenant in active then active[tenant] as int else 1) - 1;
    if next <= 0 then active - {tenant} else active[tenant := next]
  }

  // ---- Objects ----

  class Closure {
    const tenant: nat
    var released: bool

    constructor (tenant: nat)
      ensures this.tenant == tenant && !released
    {
      this.tenant := tenant;
      released := false;
    }
  }

  class BoundedSemaphore {
    var active: nat
    const limit: nat
    /** Every closure handed out, and those not yet run. */
    ghost var issued: set<Closure>
    ghost var holders: set<Closure>

    /** The counter is the number of permits not given back. */
    ghost predicate Valid()
      reads this, issued
    {
      && holders <= issued
      && (forall r :: r in issued ==> (r in holders <==> !r.released))
      && active == |holders| <= limit
    }

    constructor (limit: nat)
      ensures Valid() && this.limit == limit && active == 0 && issued == {}
    {
      this.limit := limit;
      active := 0;
      issued, holders := {}, {};
    }

    /** `null` is the thrown overload error. */
    method Acquire() returns (permit: Closure?)
      requires Valid()
      modifies this
      ensures Valid()
      ensures permit == null <==> old(active) >= limit
      ensures permit == null ==> issued == old(issued) && active == old(active)
      ensures permit != null ==> fresh(permit) && !permit.released && issued == old(issued) + {permit}
                                 && active == old(active) + 1
    {
      if active >= limit {
        return null;
      }
      active := active + 1;
      permit := new Closure(0);
      issued, holders := issued + {permit}, holders + {permit};
    }

    /** Running a release closure: only its first call counts. */
    method Free(permit: Closure)
      requires Valid() && permit in issued
      modifies this`active, this`holders, permit
      ensures Valid() && permit.released
      ensures active == old(active) - (if old(permit.released) then 0 else 1)
    {
      if !permit.released {
        permit.released := true;
        active := active - 1;
        holders := holders - {permit};
      }
    }
  }

  datatype BodyEvent = Chunk | End | Error | Cancel

  predicate Closing(events: seq<BodyEvent>) { exists i :: 0 <= i < |events| && events[i] != Chunk }

  /** The wrapped body over any sequence of reads and cancels: the permit is given back once, at its first close. */
  method DriveBody(semaphore: BoundedSemaphore, permit: Closure, events: seq<BodyEvent>)
    requires semaphore.Valid() && permit in semaphore.issued && !permit.released
    modifies semaphore`active, semaphore`holders, permit
    ensures semaphore.Valid()
    ensures permit.released <==> Closing(events)
    ensures semaphore.active == old(semaphore.active) - (if Closing(events) then 1 else 0)
  {
    for i := 0 to |events|
      invariant semaphore.Valid() && permit in semaphore.issued
      invariant permit.released <==> Closing(events[..i])
      invariant semaphore.active == old(semaphore.active) - (if permit.released then 1 else 0)
    {
      assert Closing(events[..i + 1]) <==> Closing(events[..i]) || events[i] != Chunk by {
        assert events[..i + 1] == events[..i] + [events[i]];
        assert events[i] != Chunk ==> events[..i + 1][i] != Chunk;
        if Closing(events[..i]) {
          var k :| 0 <= k < i && events[..i][k] != Chunk;
          assert events[..i + 1][k] != Chunk;
        }
      }
      if events[i] != Chunk {
        semaphore.Free(permit);
      }
    }
    assert events[..|events|] == events;
  }

  ghost function HeldBy(holders: set<Closure>, tenant: nat): set<Closure> {
    set r | r in holders && r.tenant == tenant
  }

  /** Every count is the number of slots its tenant holds; idle tenants hold no entry. */
  ghost predicate Counted(active: map<nat, nat>, holders: set<Closure>) {
    && (forall t :: t in active ==> active[t] > 0)
    && forall t: nat :: InUse(active, t) == |HeldBy(holders, t)|
  }

  lemma CountOneMore(active: map<nat, nat>, holders: set<Closure>, slot: Closure)
    requires Counted(active, holders) && slot !in holders
    ensures Counted(active[slot.tenant := InUse(active, slot.tenant) + 1], holders + {slot})
  {
    assert HeldBy(holders + {slot}, slot.tenant) == HeldBy(holders, slot.tenant) + {slot};
    forall t: nat | t != slot.tenant ensures HeldBy(holders + {slot}, t) == HeldBy(holders, t) {
    }
  }

  lemma CountOneLess(active: map<nat, nat>, holders: set<Closure>, slot: Closure)
    requires Counted(active, holders) && slot in holders
    ensures Counted(GivenBack(active, slot.tenant), holders - {slot})
    ensures |GivenBack(active, slot.tenant)| <= |active|
  {
    assert slot in HeldBy(holders, slot.tenant);
    assert HeldBy(holders - {slot}, slot.tenant) == HeldBy(holders, slot.tenant) - {slot};
    forall t: nat | t != slot.tenant ensures HeldBy(holders - {slot}, t) == HeldBy(holders, t) {
    }
    GivenBackSize(active, slot.tenant);
  }

  lemma GivenBackSize(active: map<nat, nat>, tenant: nat)
    requires tenant in active
    ensures |GivenBack(active, tenant)| <= |active|
  {
    var r := GivenBack(active, tenant);
    assert active.Keys == r.Keys + (active.Keys - r.Keys);
    assert |active| == |active.Keys| && |r| == |r.Keys|;
  }

  lemma OneMoreKey(active: map<nat, nat>, tenant: nat, n: nat)
    ensures |active[tenant := n]| == |active| + if tenant in active then 0 else 1
  {
    var r := active[tenant := n];
    assert r.Keys == active.Keys + {tenant};
    assert |r| == |r.Keys| && |active| == |active.Keys|;
  }

  lemma AcquiredSize(active: map<nat, nat>, maxTenants: nat, tenant: nat, limit: int)
    requires |active| <= maxTenants && Acquired(active, maxTenants, tenant, limit).Some?
    requires tenant in active ==> active[tenant] > 0
    ensures |Acquired(active, maxTenants, tenant, limit).value| <= maxTenants
  {
    OneMoreKey(active, tenant, InUse(active, tenant) + 1);
  }

  class TenantConcurrencyRegistry {
    var active: map<nat, nat>
    const maxTenants: nat
    ghost var issued: set<Closure>
    ghost var holders: set<Closure>

    ghost predicate Valid()
      reads this, issued
    {
      && holders <= issued
      && (forall r :: r in issued ==> (r in holders <==> !r.released))
      && |active| <= maxTenants
      && Counted(active, holders)
    }

    constructor (maxTenants: nat)
      requires maxTenants > 0
      ensures Valid() && this.maxTenants == maxTenants && active == map[] && issued == {}
    {
      this.maxTenants := maxTenants;
      active := map[];
      issued, holders := {}, {};
    }

    /** `null` when the tenant is at its ceiling or the registry has no room for another tenant. */
    method TryAcquire(tenant: nat, limit: int) returns (slot: Closure?)
      requires Valid()
      modifies this
      ensures Valid()
      ensures slot != null <==> Acquired(old(active), maxTenants, tenant, limit).Some?
      ensures active == if slot != null then Acquired(old(active), maxTenants, tenant, limit).value else old(active)
      ensures slot == null ==> issued == old(issued)
      ensures slot != null ==> fresh(slot) && slot.tenant == tenant && !slot.released && issued == old(issued) + {slot}
      ensures slot != null ==> InUse(active, tenant) <= Ceiling(limit)
    {
      var ceiling := Max(1, limit);
      var current := if tenant in active then active[tenant] else 0;
      if current >= ceiling {
        return null;
      }
      if current == 0 && |active| >= maxTenants {
        return null;
      }
      AcquiredSize(active, maxTenants, tenant, limit);
      slot := new Closure(tenant);
      CountOneMore(active, holders, slot);
      active := active[tenant := current + 1];
      issued, holders := issued + {slot}, holders + {slot};
    }

    method Free(slot: Closure)
      requires Valid() && slot in issued
      modifies this`active, this`holders, slot
      ensures Valid() && slot.released
      ensures active == if old(slot.released) then old(active) else GivenBack(old(active), slot.tenant)
    {
      if slot.released {
        return;
      }
      CountOneLess(active, holders, slot);
      slot.released := true;
      var next := (if slot.tenant in active then active[slot.tenant] as int else 1) - 1;
      if next <= 0 {
        active := active - {slot.tenant};
      } else {
        active := active[slot.tenant := next];
      }
      holders := holders - {slot};
    }
  }
}
