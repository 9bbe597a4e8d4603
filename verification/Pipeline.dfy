// The request executor itself (src/http/pipeline.ts:36-257): its callbacks update the shared tables
// in place, each guarded by its own flag, and each proved to take exactly one step of Admission.dfy.

module Pipeline {
  import opened Base
  import Budget
  import Idempotency
  import opened Permits
  import opened Admission

  class Executor {
    const config: Config
    const db: Budget.UsageTable
    const keys: Idempotency.IdempotencyTable
    var active: map<nat, nat>
    var permits: int
    var streams: set<nat>
    var requests: map<nat, Request>

    ghost predicate Valid()
      reads this, db
    {
      db.Valid() && db.limits == config.limits
    }

    ghost function State(): Gateway
      reads this, db, keys
    {
      Gateway(keys.keys, db.usageEvents, active, permits, streams, requests)
    }

    constructor (config: Config)
      ensures Valid() && fresh(db) && fresh(keys) && this.config == config
      ensures State() == Gateway(map[], [], map[], 0, {}, map[])
    {
      this.config := config;
      db := new Budget.UsageTable(config.limits);
      keys := new Idempotency.IdempotencyTable();
      active, permits, streams, requests := map[], 0, {}, map[];
    }

    /** The tenant slot's release closure: only its first call counts. */
    method ReleaseTenantSlot(id: nat)
      requires id in requests
      modifies this`active, this`requests
      ensures State() == DropSlot(old(State()), id)
    {
      var r := requests[id];
      if r.slotHeld {
        requests := requests[id := r.(slotHeld := false)];
        active := GivenBack(active, r.call.tenant);
      }
    }

    /** The upstream permit's release closure. */
    method ReleasePermit(id: nat)
      requires id in requests
      modifies this`permits, this`requests
      ensures State() == DropPermit(old(State()), id)
    {
      var r := requests[id];
      if r.permitHeld {
        requests := requests[id := r.(permitHeld := false)];
        permits := permits - 1;
      }
    }

    method AbandonKey(c: Call)
      modifies keys
      ensures keys.keys == Dropped(old(keys.keys), c)
    {
      if c.key.Some? {
        keys.AbandonKey(KeyOf(c), c.hash);
      }
    }

    /** The common start of both finalisers, after the `streamFinalized` guard. */
    method LeaveStream(id: nat)
      requires id in requests
      modifies this`active, this`requests, this`streams
      ensures State() == Finalize(old(State()), id, db.usageEvents)
    {
      streams := streams - {id};
      ReleaseTenantSlot(id);
      requests := requests[id := requests[id].(finalized := true)];
    }

    method FinalizeFailure(id: nat)
      requires Valid()
      modifies this`active, this`requests, this`streams, db`usageEvents
      ensures Valid() && State() == BreakStream(old(State()), id)
    {
      if id !in requests || !OpenStream(requests[id]) {
        return;
      }
      var c := requests[id].call;
      LeaveStream(id);
      db.ReleaseBudget(id, c.tenant);
    }

    method FinalizeSuccess(id: nat, reported: Option<nat>, now: nat)
      requires Valid()
      modifies this`active, this`requests, this`streams, db`usageEvents
      ensures Valid() && State() == EndStream(old(State()), id, reported)
    {
      if id !in requests || !OpenStream(requests[id]) {
        return;
      }
      var c := requests[id].call;
      LeaveStream(id);
      var actual := if reported.Some? then reported.value else c.estimate;
      var settled := db.SettleBudget(id, c.tenant, actual, now);
    }

    /** Shutdown: closes a copy of the registry, each close taking its own entry out. */
    method CloseActiveStreams() returns (ghost order: seq<nat>)
      requires Valid()
      modifies this`active, this`requests, this`streams, db`usageEvents
      ensures Valid() && State() == Step(config, old(State()), Shutdown(order))
      ensures forall id :: id in order <==> id in old(streams)
    {
      var copy := streams;
      order := [];
      while copy != {}
        invariant Valid() && State() == BreakAll(old(State()), order)
        invariant forall id :: id in order || id in copy <==> id in old(streams)
        decreases copy
      {
        var id :| id in copy;
        copy := copy - {id};
        FinalizeFailure(id);
        assert (order + [id])[..|order|] == order;
        order := order + [id];
      }
    }

    /** Release, abandon, give back: the failing exits and the `finally`. */
    method FailRequest(id: nat)
      requires Valid() && id in requests
      modifies this`active, this`permits, this`requests, db`usageEvents, keys
      ensures Valid() && State() == Fail(old(State()), id)
    {
      var c := requests[id].call;
      ReleasePermit(id);
      db.ReleaseBudget(id, c.tenant);
      AbandonKey(c);
      ReleaseTenantSlot(id);
      requests := requests[id := requests[id].(phase := Finished)];
    }

    /** A buffered success: settle, complete, and the `finally`. */
    method SucceedRequest(id: nat, response: Idempotency.Response, reported: Option<nat>, now: nat)
      requires Valid() && id in requests
      modifies this`active, this`permits, this`requests, db`usageEvents, keys
      ensures Valid() && State() == Succeed(old(State()), id, response, reported)
    {
      var c := requests[id].call;
      ReleasePermit(id);
      var actual := if reported.Some? then reported.value else c.estimate;
      var settled := db.SettleBudget(id, c.tenant, actual, now);
      if c.key.Some? {
        keys.CompleteKey(KeyOf(c), c.hash, response);
      }
      ReleaseTenantSlot(id);
      requests := requests[id := requests[id].(phase := Finished)];
    }

    /** After the key is owned: reserve, take a slot, start the upstream call; undo on refusal. */
    method Proceed(id: nat, c: Call, now: nat) returns (reply: Reply)
      requires Valid()
      modifies this`active, this`permits, this`requests, db`usageEvents, keys
      ensures Valid() && (State(), reply) == Admit(config, old(State()), id, c, now)
    {
      var reserved := db.ReserveBudget(id, c.tenant, c.estimate, now);
      if !reserved {
        AbandonKey(c);
        return BudgetExceeded;
      }
      var slots := Acquired(active, config.maxTenants, c.tenant, SlotLimit(config, c.tenant));
      if slots.None? {
        db.ReleaseBudget(id, c.tenant);
        AbandonKey(c);
        requests := requests[id := TurnedAway(c)];
        return TenantOverloaded;
      }
      active := slots.value;
      var free := permits < config.concurrency;
      if free {
        permits := permits + 1;
      }
      requests := requests[id := Joining(c, free)];
      return Admitted;
    }

    method Execute(id: nat, c: Call, now: nat) returns (reply: Reply)
      requires Valid()
      modifies this`active, this`permits, this`requests, db`usageEvents, keys
      ensures Valid() && (State(), reply) == Arrive(config, old(State()), id, c, now)
    {
      if c.key.Some? && !c.keyValid {
        return BadRequest;
      }
      if c.key.Some? && c.stream {
        return BadRequest;
      }
      if c.key.Some? {
        var claimed := keys.ClaimKey(KeyOf(c), c.hash, now);
        match claimed {
          case Cached(r) => return Replay(r);
          case Conflict => return KeyConflict;
          case InProgress => return KeyInProgress;
          case Owner =>
        }
      }
      reply := Proceed(id, c, now);
    }
  }
}
