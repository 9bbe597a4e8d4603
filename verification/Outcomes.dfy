// How each request is answered and what it leaves behind, over its own row, key and flags
// (src/http/pipeline.ts:57-100 and 111-254).

module Outcomes {
  import opened Base
  import opened Budget
  import opened Idempotency
  import opened Permits
  import opened Admission

  // ---- Arrival ----

  /** The client's key, when it sent one, is taken and has not expired. */
  ghost predicate Taken(g: Gateway, c: Call, now: nat) {
    c.key.Some? && (c.tenant, c.key.value) in g.idem && g.idem[(c.tenant, c.key.value)].expiresAt > now
  }

  /** The day's units leave no room for the estimate, under the deployment's limit or the tenant's own. */
  ghost predicate OverBudget(cfg: Config, g: Gateway, c: Call, now: nat) {
    var units := Used(g.rows, c.tenant, now / 86_400_000) + c.estimate;
    units > cfg.limits.daily || (c.tenant in cfg.limits.tenants && units > cfg.limits.tenants[c.tenant])
  }

  /** The tenant has as many slots as it may hold, one at least, or a new tenant finds the registry full. */
  ghost predicate NoSlot(cfg: Config, g: Gateway, tenant: nat) {
    if tenant in g.slots && g.slots[tenant] > 0 then
      g.slots[tenant] >= if tenant in cfg.tenantMax then cfg.tenantMax[tenant] else cfg.defaultMax
    else |g.slots| >= cfg.maxTenants
  }

  /** The answer of an arrival, by what it finds. */
  ghost function Answer(cfg: Config, g: Gateway, c: Call, now: nat): Reply {
    if c.key.Some? && (!c.keyValid || c.stream) then BadRequest
    else if Taken(g, c, now) then
      var row := g.idem[(c.tenant, c.key.value)];
      if row.hash != c.hash then KeyConflict
      else if row.response.Some? then Replay(row.response.value) else KeyInProgress
    else if OverBudget(cfg, g, c, now) then BudgetExceeded
    else if NoSlot(cfg, g, c.tenant) then TenantOverloaded else Admitted
  }

  /** The keys once the call has dropped, or taken, its own. */
  ghost function WithoutKey(g: Gateway, c: Call): map<Slot, Row> {
    if c.key.Some? then g.idem - {(c.tenant, c.key.value)} else g.idem
  }

  ghost function WithKey(g: Gateway, c: Call, now: nat): map<Slot, Row> {
    if c.key.Some? then g.idem[(c.tenant, c.key.value) := Row(c.hash, None, now + 86_400_000)] else g.idem
  }

  /** What an arrival leaves: a row, a slot and a permit when admitted, nothing of its own when refused. */
  ghost predicate Leaves(cfg: Config, g: Gateway, id: nat, c: Call, now: nat, h: Gateway) {
    var held := if c.tenant in g.slots then g.slots[c.tenant] else 0;
    var free := g.permits < cfg.concurrency;
    match Answer(cfg, g, c, now)
    case Admitted =>
      h == Gateway(WithKey(g, c, now),
                   g.rows + [UsageRow(id, c.tenant, c.estimate, Reserved, now / 86_400_000, now)],
                   g.slots[c.tenant := held + 1],
                   if free then g.permits + 1 else g.permits,
                   g.streams,
                   g.requests[id := Request(c, if free then Fetching else Overloaded, true, free, false)])
    case TenantOverloaded =>
      h == g.(idem := WithoutKey(g, c),
              rows := g.rows + [UsageRow(id, c.tenant, 0, Released, now / 86_400_000, now)],
              requests := g.requests[id := Request(c, Finished, false, false, false)])
    case BudgetExceeded => h == g.(idem := WithoutKey(g, c))
    case _ => h == g
  }

  lemma FreshId(cfg: Config, g: Gateway, id: nat)
    requires Accounted(cfg, g) && id !in g.requests
    ensures !HasRow(g.rows, id)
  {
  }

  /** The claimed table, for a key that is free or has expired. */
  lemma Claims(g: Gateway, c: Call, now: nat)
    requires c.key.Some? && !Taken(g, c, now)
    ensures Claim(g.idem, KeyOf(c), c.hash, now) == (WithKey(g, c, now), Owner)
    ensures Dropped(WithKey(g, c, now), c) == WithoutKey(g, c)
  {
    var k := (c.tenant, c.key.value);
    assert (g.idem - {k})[k := Row(c.hash, None, now + 86_400_000)] == WithKey(g, c, now);
  }

  lemma Refused(g: Gateway, c: Call, now: nat)
    requires Taken(g, c, now)
    ensures Unexpired(g.idem, KeyOf(c), now) == g.idem
  {
  }

  lemma ReservedThenReleased(rows: seq<UsageRow>, row: UsageRow)
    requires !HasRow(rows, row.id) && row.state == Reserved
    ensures Release(rows + [row], row.id, row.tenant) == rows + [row.(units := 0, state := Released)]
  {
  }

  /** The row a reservation would write. */
  lemma ReserveIs(cfg: Config, g: Gateway, id: nat, c: Call, now: nat)
    requires !HasRow(g.rows, id)
    ensures Reserve(g.rows, cfg.limits, id, c.tenant, c.estimate, now)
            == if OverBudget(cfg, g, c, now) then None
               else Some(g.rows + [UsageRow(id, c.tenant, c.estimate, Reserved, now / 86_400_000, now)])
  {
  }

  lemma SlotIs(cfg: Config, g: Gateway, tenant: nat)
    ensures Acquired(g.slots, cfg.maxTenants, tenant, SlotLimit(cfg, tenant))
            == if NoSlot(cfg, g, tenant) then None
               else Some(g.slots[tenant := (if tenant in g.slots then g.slots[tenant] else 0) + 1])
  {
  }

  lemma AdmitLeaves(cfg: Config, g: Gateway, k: Gateway, id: nat, c: Call, now: nat)
    requires !HasRow(g.rows, id) && !(c.key.Some? && (!c.keyValid || c.stream)) && !Taken(g, c, now)
    requires k == g.(idem := WithKey(g, c, now)) && Dropped(k.idem, c) == WithoutKey(g, c)
    ensures var (h, reply) := Admit(cfg, k, id, c, now);
            reply == Answer(cfg, g, c, now) && Leaves(cfg, g, id, c, now, h)
  {
    ReserveIs(cfg, k, id, c, now);
    SlotIs(cfg, k, c.tenant);
    ReservedThenReleased(g.rows, UsageRow(id, c.tenant, c.estimate, Reserved, now / 86_400_000, now));
  }

  /** Every arrival is answered by what it finds and leaves exactly what its answer says. */
  lemma ArrivalOutcome(cfg: Config, g: Gateway, id: nat, c: Call, now: nat)
    requires Accounted(cfg, g) && id !in g.requests
    ensures var (h, reply) := Arrive(cfg, g, id, c, now);
            reply == Answer(cfg, g, c, now) && Leaves(cfg, g, id, c, now, h)
  {
    FreshId(cfg, g, id);
    if !(c.key.Some? && (!c.keyValid || c.stream)) {
      if Taken(g, c, now) {
        Refused(g, c, now);
      } else {
        if c.key.Some? {
          Claims(g, c, now);
        }
        AdmitLeaves(cfg, g, g.(idem := WithKey(g, c, now)), id, c, now);
      }
    }
  }

  // ---- The upstream's answer ----

  /** A stream with a body opens and is registered, any other answer to a stream is discarded, the rest is read. */
  lemma AnswerOpens(cfg: Config, g: Gateway, id: nat, status: nat, ok: bool, hasBody: bool)
    requires id in g.requests && g.requests[id].phase == Fetching
    ensures var h, r := Admission.Step(cfg, g, Responds(id, status, ok, hasBody)), g.requests[id];
            && h.rows == g.rows && h.idem == g.idem && h.slots == g.slots
            && h.streams == (if r.call.stream && ok && hasBody then g.streams + {id} else g.streams)
            && h.permits == (if r.permitHeld && !hasBody then g.permits - 1 else g.permits)
            && h.requests == g.requests[id := r.(phase := if !r.call.stream then Reading(status, ok)
                                                          else if ok && hasBody then Streaming else Cancelling,
                                                 permitHeld := r.permitHeld && hasBody)]
  {
  }

  /** A body that closes, in whatever way, frees its permit once; nothing else changes. */
  lemma BodyFreesPermit(cfg: Config, g: Gateway, id: nat)
    requires id in g.requests && g.requests[id].phase != Fetching
    ensures var h := Admission.Step(cfg, g, BodyCloses(id));
            if g.requests[id].permitHeld then
              h == g.(permits := g.permits - 1, requests := g.requests[id := g.requests[id].(permitHeld := false)])
            else h == g
  {
  }

  // ---- The end of a buffered request ----

  /** Row `i` is the request's reservation. */
  ghost predicate ReservedAt(g: Gateway, id: nat, i: nat) {
    && id in g.requests && i < |g.rows|
    && g.rows[i].id == id && g.rows[i].tenant == g.requests[id].call.tenant && g.rows[i].state == Reserved
  }

  /** A request at work has exactly one. */
  lemma WorkingReserves(cfg: Config, g: Gateway, id: nat) returns (i: nat)
    requires Accounted(cfg, g) && id in g.requests && Working(g.requests[id])
    ensures ReservedAt(g, id, i) && forall j :: 0 <= j < |g.rows| && j != i ==> g.rows[j].id != id
  {
    i :| 0 <= i < |g.rows| && g.rows[i].id == id && g.rows[i].state == Reserved;
  }

  /** The request's key row is still open. */
  ghost predicate KeyOpen(g: Gateway, c: Call) {
    c.key.Some? && (c.tenant, c.key.value) in g.idem
    && g.idem[(c.tenant, c.key.value)].hash == c.hash && g.idem[(c.tenant, c.key.value)].response == None
  }

  /** The request is over: its closures have run, and nothing of other requests or streams has changed. */
  ghost predicate Over(g: Gateway, id: nat, h: Gateway)
    requires id in g.requests
  {
    && h.requests == g.requests[id := Request(g.requests[id].call, Finished, false, false, g.requests[id].finalized)]
    && h.streams == g.streams
  }

  /** It gave up: its reservation is released at no units, and its open key is free again. */
  ghost predicate GaveUp(g: Gateway, id: nat, i: nat, h: Gateway)
    requires ReservedAt(g, id, i)
  {
    var c := g.requests[id].call;
    && Over(g, id, h) && h.rows == g.rows[i := g.rows[i].(units := 0, state := Released)]
    && h.idem == if KeyOpen(g, c) then g.idem - {(c.tenant, c.key.value)} else g.idem
  }

  /** It succeeded: its reservation is settled at `units`, and its open key stores the response. */
  ghost predicate Delivered(g: Gateway, id: nat, i: nat, units: nat, status: nat, body: nat, h: Gateway)
    requires ReservedAt(g, id, i)
  {
    var c := g.requests[id].call;
    && Over(g, id, h) && h.rows == g.rows[i := g.rows[i].(units := units, state := Settled)]
    && h.idem == if KeyOpen(g, c)
                 then g.idem[(c.tenant, c.key.value) := g.idem[(c.tenant, c.key.value)].(
                               response := Some(Response(status, body)))]
                 else g.idem
  }

  lemma FailGivesUp(g: Gateway, id: nat, i: nat)
    requires ReservedAt(g, id, i) && forall j :: 0 <= j < |g.rows| && j != i ==> g.rows[j].id != id
    ensures GaveUp(g, id, i, Fail(g, id))
  {
    var c := g.requests[id].call;
    assert Release(g.rows, id, c.tenant) == g.rows[i := g.rows[i].(units := 0, state := Released)];
  }

  lemma SucceedDelivers(g: Gateway, id: nat, i: nat, response: Response, reported: Option<nat>)
    requires ReservedAt(g, id, i) && forall j :: 0 <= j < |g.rows| && j != i ==> g.rows[j].id != id
    ensures var units := if reported.Some? then reported.value else g.requests[id].call.estimate;
            Delivered(g, id, i, units, response.status, response.body, Succeed(g, id, response, reported))
  {
    var c := g.requests[id].call;
    var units := if reported.Some? then reported.value else c.estimate;
    assert Settle(g.rows, id, c.tenant, units) == g.rows[i := g.rows[i].(units := units, state := Settled)];
  }

  /**
   * A buffered answer that is readable and good settles the reported units, or the estimate when none were
   * reported, and stores its status and body under the key; any other answer gives everything up.
   */
  lemma ParsedOutcome(cfg: Config, g: Gateway, id: nat, status: nat, ok: bool, body: Option<nat>, reported: Option<nat>)
    returns (i: nat)
    requires Accounted(cfg, g) && id in g.requests && g.requests[id].phase == Reading(status, ok)
    ensures ReservedAt(g, id, i)
    ensures var h := Admission.Step(cfg, g, Parsed(id, body, reported));
            if body.Some? && ok then
              Delivered(g, id, i, if reported.Some? then reported.value else g.requests[id].call.estimate,
                        status, body.value, h)
            else GaveUp(g, id, i, h)
  {
    i := WorkingReserves(cfg, g, id);
    FailGivesUp(g, id, i);
    if body.Some? {
      SucceedDelivers(g, id, i, Response(status, body.value), reported);
    }
  }

  /** So do a missing permit, an upstream that fails, and a discarded stream. */
  lemma FailureOutcome(cfg: Config, g: Gateway, id: nat, e: Event) returns (i: nat)
    requires Accounted(cfg, g) && id in g.requests
    requires || (e == OverloadCaught(id) && g.requests[id].phase == Overloaded)
             || (e == UpstreamFails(id) && g.requests[id].phase == Fetching)
             || (e == Cancelled(id) && g.requests[id].phase == Cancelling)
    ensures ReservedAt(g, id, i) && GaveUp(g, id, i, Admission.Step(cfg, g, e))
  {
    i := WorkingReserves(cfg, g, id);
    FailGivesUp(g, id, i);
  }
}
