// Many requests in flight at once (src/http/pipeline.ts:36-257): each claims an idempotency key,
// reserves budget, takes a tenant slot and an upstream permit, and gives everything back whatever
// order the upstream, the client, the timers and the shutdown report in.
//
// Each step is what the process runs without yielding; between two steps of one request any other
// may run. A request's reservation row carries the request's id.

module Admission {
  import opened Base
  import opened Budget
  import opened Idempotency
  import opened Permits

  datatype Config = Config(limits: Limits, maxTenants: nat, concurrency: nat, tenantMax: map<nat, int>, defaultMax: int)

  datatype Call = Call(tenant: nat, key: Option<nat>, keyValid: bool, hash: nat, stream: bool, estimate: nat)

  datatype Phase =
    | Overloaded
    | Fetching
    | Reading(status: nat, ok: bool)
    | Cancelling
    | Streaming
    | Finished

  /** `slotHeld` and `permitHeld` are the unset `released` flags of its two release closures. */
  datatype Request = Request(call: Call, phase: Phase, slotHeld: bool, permitHeld: bool, finalized: bool)

  datatype Gateway = Gateway(
    idem: map<Slot, Row>,
    rows: seq<UsageRow>,
    slots: map<nat, nat>,
    permits: int,
    streams: set<nat>,
    requests: map<nat, Request>)

  datatype Reply =
    | BadRequest | Replay(response: Response) | KeyConflict | KeyInProgress
    | BudgetExceeded | TenantOverloaded | Admitted

  datatype Event =
    | Arrives(id: nat, call: Call, now: nat)
    | OverloadCaught(id: nat)
    | UpstreamFails(id: nat)
    | Responds(id: nat, status: nat, ok: bool, hasBody: bool)
    | BodyCloses(id: nat)
    | Parsed(id: nat, body: Option<nat>, reported: Option<nat>)
    | Cancelled(id: nat)
    | StreamEnds(id: nat, reported: Option<nat>)
    | StreamBreaks(id: nat)
    | Shutdown(order: seq<nat>)

  function SlotLimit(cfg: Config, tenant: nat): int {
    if tenant in cfg.tenantMax then cfg.tenantMax[tenant] else cfg.defaultMax
  }

  function KeyOf(c: Call): Slot
    requires c.key.Some?
  {
    (c.tenant, c.key.value)
  }

  function Dropped(idem: map<Slot, Row>, c: Call): map<Slot, Row> {
    if c.key.Some? then Abandon(idem, KeyOf(c), c.hash) else idem
  }

  function Joining(c: Call, free: bool): Request {
    Request(c, if free then Fetching else Overloaded, true, free, false)
  }

  function TurnedAway(c: Call): Request { Request(c, Finished, false, false, false) }

  /** Once the key, if any, is owned: reserve, take a slot, start the upstream call; each refusal undoes the rest. */
  function Admit(cfg: Config, g: Gateway, id: nat, c: Call, now: nat): (Gateway, Reply) {
    var reserved := Reserve(g.rows, cfg.limits, id, c.tenant, c.estimate, now);
    if reserved.None? then (g.(idem := Dropped(g.idem, c)), BudgetExceeded)
    else
      var slots := Acquired(g.slots, cfg.maxTenants, c.tenant, SlotLimit(cfg, c.tenant));
      if slots.None? then
        (g.(idem := Dropped(g.idem, c), rows := Release(reserved.value, id, c.tenant),
            requests := g.requests[id := TurnedAway(c)]), TenantOverloaded)
      else
        var free := g.permits < cfg.concurrency;
        (g.(rows := reserved.value, slots := slots.value, permits := if free then g.permits + 1 else g.permits,
            requests := g.requests[id := Joining(c, free)]), Admitted)
  }

  /** From the first claim to the upstream call, without yielding. */
  function Arrive(cfg: Config, g: Gateway, id: nat, c: Call, now: nat): (Gateway, Reply) {
    if c.key.Some? && (!c.keyValid || c.stream) then (g, BadRequest)
    else
      var (idem, claimed) := if c.key.Some? then Claim(g.idem, KeyOf(c), c.hash, now) else (g.idem, Owner);
      match claimed
      case Cached(r) => (g.(idem := idem), Replay(r))
      case Conflict => (g.(idem := idem), KeyConflict)
      case InProgress => (g.(idem := idem), KeyInProgress)
      case Owner => Admit(cfg, g.(idem := idem), id, c, now)
  }

  function With(g: Gateway, id: nat, r: Request): Gateway { g.(requests := g.requests[id := r]) }

  /** Running the upstream permit's closure. */
  function DropPermit(g: Gateway, id: nat): Gateway
    requires id in g.requests
  {
    var r := g.requests[id];
    if r.permitHeld then With(g, id, r.(permitHeld := false)).(permits := g.permits - 1) else g
  }

  /** Running the tenant slot's closure. */
  function DropSlot(g: Gateway, id: nat): Gateway
    requires id in g.requests
  {
    var r := g.requests[id];
    if r.slotHeld then With(g, id, r.(slotHeld := false)).(slots := GivenBack(g.slots, r.call.tenant)) else g
  }

  /** The failing exits of a request that never became a stream: release, abandon, give back. */
  function Fail(g: Gateway, id: nat): Gateway
    requires id in g.requests
  {
    var c := g.requests[id].call;
    var h := DropSlot(DropPermit(g, id), id);
    With(h, id, h.requests[id].(phase := Finished)).(rows := Release(g.rows, id, c.tenant), idem := Dropped(g.idem, c))
  }

  function Actual(c: Call, reported: Option<nat>): nat { if reported.Some? then reported.value else c.estimate }

  /** The successful exit of a buffered request: settle, complete, give back. */
  function Succeed(g: Gateway, id: nat, response: Response, reported: Option<nat>): Gateway
    requires id in g.requests
  {
    var c := g.requests[id].call;
    var h := DropSlot(DropPermit(g, id), id);
    With(h, id, h.requests[id].(phase := Finished)).(
      rows := Settle(g.rows, id, c.tenant, Actual(c, reported)),
      idem := if c.key.Some? then Complete(g.idem, KeyOf(c), c.hash, response) else g.idem)
  }

  predicate OpenStream(r: Request) { r.phase.Streaming? && !r.finalized }

  /** finalizeSuccess and finalizeFailure: the first of them wins. */
  function Finalize(g: Gateway, id: nat, rows: seq<UsageRow>): Gateway
    requires id in g.requests
  {
    var h := DropSlot(g, id);
    With(h, id, h.requests[id].(finalized := true)).(streams := g.streams - {id}, rows := rows)
  }

  function EndStream(g: Gateway, id: nat, reported: Option<nat>): Gateway {
    if id in g.requests && OpenStream(g.requests[id]) then
      var c := g.requests[id].call;
      Finalize(g, id, Settle(g.rows, id, c.tenant, Actual(c, reported)))
    else g
  }

  function BreakStream(g: Gateway, id: nat): Gateway {
    if id in g.requests && OpenStream(g.requests[id])
    then Finalize(g, id, Release(g.rows, id, g.requests[id].call.tenant)) else g
  }

  function BreakAll(g: Gateway, order: seq<nat>): Gateway {
    if order == [] then g else BreakStream(BreakAll(g, order[..|order| - 1]), order[|order| - 1])
  }

  function Respond(g: Gateway, id: nat, status: nat, ok: bool, hasBody: bool): Gateway
    requires id in g.requests
  {
    var h := if hasBody then g else DropPermit(g, id);
    var r := h.requests[id];
    if !r.call.stream then With(h, id, r.(phase := Reading(status, ok)))
    else if !ok || !hasBody then With(h, id, r.(phase := Cancelling))
    else With(h, id, r.(phase := Streaming)).(streams := h.streams + {id})
  }

  function Step(cfg: Config, g: Gateway, e: Event): Gateway {
    match e
    case Arrives(id, c, now) => if id in g.requests then g else Arrive(cfg, g, id, c, now).0
    case OverloadCaught(id) => if id in g.requests && g.requests[id].phase.Overloaded? then Fail(g, id) else g
    case UpstreamFails(id) => if id in g.requests && g.requests[id].phase.Fetching? then Fail(g, id) else g
    case Responds(id, status, ok, hasBody) =>
      if id in g.requests && g.requests[id].phase.Fetching? then Respond(g, id, status, ok, hasBody) else g
    case BodyCloses(id) => if id in g.requests && !g.requests[id].phase.Fetching? then DropPermit(g, id) else g
    case Parsed(id, body, reported) =>
      if id in g.requests && g.requests[id].phase.Reading? then
        var p := g.requests[id].phase;
        if body.Some? && p.ok then Succeed(g, id, Response(p.status, body.value), reported) else Fail(g, id)
      else g
    case Cancelled(id) => if id in g.requests && g.requests[id].phase.Cancelling? then Fail(g, id) else g
    case StreamEnds(id, reported) => EndStream(g, id, reported)
    case StreamBreaks(id) => BreakStream(g, id)
    case Shutdown(order) => BreakAll(g, order)
  }

  function Run(cfg: Config, g: Gateway, events: seq<Event>): Gateway {
    if events == [] then g else Step(cfg, Run(cfg, g, events[..|events| - 1]), events[|events| - 1])
  }

  // ---- The invariant ----

  /** A request that has not given its reservation back. */
  predicate Working(r: Request) { !r.phase.Finished? && !(r.phase.Streaming? && r.finalized) }

  ghost function SlotHolders(requests: map<nat, Request>, tenant: nat): set<nat> {
    set id | id in requests && requests[id].slotHeld && requests[id].call.tenant == tenant
  }

  ghost function PermitHolders(requests: map<nat, Request>): set<nat> {
    set id | id in requests && requests[id].permitHeld
  }

  ghost predicate SlotsOk(cfg: Config, slots: map<nat, nat>, requests: map<nat, Request>) {
    && |slots| <= cfg.maxTenants
    && (forall t :: t in slots ==> slots[t] > 0)
    && forall t: nat :: InUse(slots, t) == |SlotHolders(requests, t)| <= Ceiling(SlotLimit(cfg, t))
  }

  ghost predicate PermitsOk(cfg: Config, permits: int, requests: map<nat, Request>) {
    permits == |PermitHolders(requests)| <= cfg.concurrency
  }

  ghost predicate StreamsOk(streams: set<nat>, requests: map<nat, Request>) {
    forall id :: id in streams <==> id in requests && OpenStream(requests[id])
  }

  ghost predicate FlagsOk(requests: map<nat, Request>) {
    forall id :: id in requests ==>
      var r := requests[id];
      && (r.slotHeld <==> Working(r))
      && (r.permitHeld ==> !r.phase.Finished? && !r.phase.Overloaded?)
      && (r.call.stream ==> r.call.key.None?)
      && (r.phase.Reading? ==> !r.call.stream)
      && (r.phase.Streaming? ==> r.call.stream)
      && (r.finalized ==> r.phase.Streaming?)
  }

  predicate IsReserved(rows: seq<UsageRow>, id: nat) {
    exists i :: 0 <= i < |rows| && rows[i].id == id && rows[i].state == Reserved
  }

  ghost predicate RowsOk(rows: seq<UsageRow>, requests: map<nat, Request>) {
    && DistinctIds(rows)
    && (forall i :: 0 <= i < |rows| ==> rows[i].id in requests && rows[i].tenant == requests[rows[i].id].call.tenant)
    && forall id :: id in requests ==> (Working(requests[id]) <==> IsReserved(rows, id))
  }

  predicate Owns(r: Request, k: Slot) { r.call.key.Some? && KeyOf(r.call) == k && !r.phase.Finished? }

  ghost predicate HasOwner(requests: map<nat, Request>, k: Slot) {
    exists id :: id in requests && Owns(requests[id], k)
  }

  /** An open row has exactly one running owner, and every running owner has its open row. */
  ghost predicate KeysOk(idem: map<Slot, Row>, requests: map<nat, Request>) {
    && (forall id, k :: id in requests && Owns(requests[id], k) ==>
          k in idem && idem[k].response.None? && idem[k].hash == requests[id].call.hash)
    && (forall i, j, k :: i in requests && j in requests && Owns(requests[i], k) && Owns(requests[j], k) ==> i == j)
    && (forall k :: k in idem && idem[k].response.None? ==> HasOwner(requests, k))
  }

  /**
   * Every counter, registry and reservation is accounted for by the requests. The idempotency keys have
   * a lifetime, so their law, `KeysOk`, stands apart.
   */
  ghost predicate Accounted(cfg: Config, g: Gateway) {
    && SlotsOk(cfg, g.slots, g.requests)
    && PermitsOk(cfg, g.permits, g.requests)
    && StreamsOk(g.streams, g.requests)
    && FlagsOk(g.requests)
    && RowsOk(g.rows, g.requests)
  }

  // ---- One request changes ----

  /** A change that keeps the call and both closures' flags. */
  lemma SameHolders(requests: map<nat, Request>, id: nat, r: Request)
    requires id in requests && r.call == requests[id].call
    ensures r.slotHeld == requests[id].slotHeld ==>
              forall t: nat :: SlotHolders(requests[id := r], t) == SlotHolders(requests, t)
    ensures r.permitHeld == requests[id].permitHeld ==> PermitHolders(requests[id := r]) == PermitHolders(requests)
  {
  }

  lemma SlotGivenBack(cfg: Config, g: Gateway, id: nat, r: Request)
    requires id in g.requests && SlotsOk(cfg, g.slots, g.requests)
    requires g.requests[id].slotHeld && !r.slotHeld && r.call == g.requests[id].call
    ensures SlotsOk(cfg, GivenBack(g.slots, r.call.tenant), g.requests[id := r])
  {
    var t0 := r.call.tenant;
    var after := g.requests[id := r];
    assert id in SlotHolders(g.requests, t0);
    assert SlotHolders(after, t0) == SlotHolders(g.requests, t0) - {id};
    forall t: nat | t != t0 ensures SlotHolders(after, t) == SlotHolders(g.requests, t) {
    }
    GivenBackSize(g.slots, t0);
  }

  lemma PermitGivenBack(cfg: Config, g: Gateway, id: nat, r: Request)
    requires id in g.requests && PermitsOk(cfg, g.permits, g.requests)
    requires g.requests[id].permitHeld && !r.permitHeld
    ensures g.permits > 0 && PermitsOk(cfg, g.permits - 1, g.requests[id := r])
  {
    assert id in PermitHolders(g.requests);
    assert PermitHolders(g.requests[id := r]) == PermitHolders(g.requests) - {id};
  }

  lemma DropPermitKeeps(cfg: Config, g: Gateway, id: nat)
    requires id in g.requests && SlotsOk(cfg, g.slots, g.requests) && PermitsOk(cfg, g.permits, g.requests)
    ensures var h := DropPermit(g, id);
            && SlotsOk(cfg, h.slots, h.requests) && PermitsOk(cfg, h.permits, h.requests)
            && h == g.(permits := h.permits, requests := h.requests)
            && h.requests == g.requests[id := g.requests[id].(permitHeld := false)]
  {
    var r := g.requests[id].(permitHeld := false);
    if g.requests[id].permitHeld {
      PermitGivenBack(cfg, g, id, r);
      SameHolders(g.requests, id, r);
    } else {
      assert g.requests[id := r] == g.requests;
    }
  }

  lemma DropSlotKeeps(cfg: Config, g: Gateway, id: nat)
    requires id in g.requests && SlotsOk(cfg, g.slots, g.requests) && PermitsOk(cfg, g.permits, g.requests)
    ensures var h := DropSlot(g, id);
            && SlotsOk(cfg, h.slots, h.requests) && PermitsOk(cfg, h.permits, h.requests)
            && h == g.(slots := h.slots, requests := h.requests)
            && h.requests == g.requests[id := g.requests[id].(slotHeld := false)]
  {
    var r := g.requests[id].(slotHeld := false);
    if g.requests[id].slotHeld {
      SlotGivenBack(cfg, g, id, r);
      SameHolders(g.requests, id, r);
    } else {
      assert g.requests[id := r] == g.requests;
    }
  }

  /** Counters after a request that only changed phase or finalisation. */
  lemma RelabelKeeps(cfg: Config, g: Gateway, id: nat, r: Request)
    requires id in g.requests && SlotsOk(cfg, g.slots, g.requests) && PermitsOk(cfg, g.permits, g.requests)
    requires r == g.requests[id].(phase := r.phase, finalized := r.finalized)
    ensures SlotsOk(cfg, g.slots, g.requests[id := r]) && PermitsOk(cfg, g.permits, g.requests[id := r])
  {
    SameHolders(g.requests, id, r);
  }

  // ---- Rows ----

  /** The request's own row leaves `reserved`; every other row stays as it is. */
  ghost predicate FreesOnly(rows: seq<UsageRow>, after: seq<UsageRow>, id: nat) {
    && |after| == |rows|
    && forall i :: 0 <= i < |rows| ==>
         after[i].id == rows[i].id && after[i].tenant == rows[i].tenant
           && (if rows[i].id == id then after[i].state != Reserved else after[i] == rows[i])
  }

  lemma FreedRows(rows: seq<UsageRow>, after: seq<UsageRow>, requests: map<nat, Request>, id: nat, r: Request)
    requires RowsOk(rows, requests) && id in requests && r.call == requests[id].call && !Working(r)
    requires FreesOnly(rows, after, id) && DistinctIds(after)
    ensures RowsOk(after, requests[id := r])
  {
    forall j | j in requests && j != id ensures IsReserved(after, j) <==> IsReserved(rows, j) {
      if IsReserved(rows, j) {
        var i :| 0 <= i < |rows| && rows[i].id == j && rows[i].state == Reserved;
        assert after[i] == rows[i];
      }
      if IsReserved(after, j) {
        var i :| 0 <= i < |rows| && after[i].id == j && after[i].state == Reserved;
        assert after[i] == rows[i];
      }
    }
  }

  lemma SettleFrees(rows: seq<UsageRow>, requests: map<nat, Request>, id: nat, r: Request, actual: nat)
    requires RowsOk(rows, requests) && id in requests && r.call == requests[id].call && !Working(r)
    ensures RowsOk(Settle(rows, id, r.call.tenant, actual), requests[id := r])
    ensures RowsOk(Release(rows, id, r.call.tenant), requests[id := r])
  {
    FreedRows(rows, Settle(rows, id, r.call.tenant, actual), requests, id, r);
    FreedRows(rows, Release(rows, id, r.call.tenant), requests, id, r);
  }

  lemma RelabelRows(rows: seq<UsageRow>, requests: map<nat, Request>, id: nat, r: Request)
    requires RowsOk(rows, requests) && id in requests && r.call == requests[id].call
    requires Working(r) == Working(requests[id])
    ensures RowsOk(rows, requests[id := r])
  {
  }

  // ---- Keys ----

  lemma RelabelKeys(idem: map<Slot, Row>, requests: map<nat, Request>, id: nat, r: Request)
    requires KeysOk(idem, requests) && id in requests && r.call == requests[id].call
    requires r.phase.Finished? <==> requests[id].phase.Finished?
    ensures KeysOk(idem, requests[id := r])
  {
    forall k | k in idem && idem[k].response.None? ensures HasOwner(requests[id := r], k) {
      var j :| j in requests && Owns(requests[j], k);
      assert Owns(requests[id := r][j], k);
    }
  }

  /** The call's own row is gone or answered; every other row is as before. */
  ghost predicate ClosesOnly(idem: map<Slot, Row>, after: map<Slot, Row>, call: Call) {
    && (forall k :: k in after ==> (call.key.Some? && k == KeyOf(call) && after[k].response.Some?)
                                   || (k in idem && after[k] == idem[k] && (call.key.Some? ==> k != KeyOf(call))))
    && (forall k :: k in idem && (call.key.Some? ==> k != KeyOf(call)) ==> k in after)
  }

  lemma OthersOwn(idem: map<Slot, Row>, after: map<Slot, Row>, requests: map<nat, Request>, id: nat, r: Request,
                  k: Slot)
    requires KeysOk(idem, requests) && id in requests && ClosesOnly(idem, after, r.call)
    requires r.call == requests[id].call && k in after && after[k].response.None?
    ensures HasOwner(requests[id := r], k)
  {
    var j :| j in requests && Owns(requests[j], k);
    assert j != id;
    assert Owns(requests[id := r][j], k);
  }

  lemma OwnerLeaves(idem: map<Slot, Row>, after: map<Slot, Row>, requests: map<nat, Request>, id: nat, r: Request)
    requires KeysOk(idem, requests) && id in requests && ClosesOnly(idem, after, r.call)
    requires r.call == requests[id].call && r.phase.Finished? && !requests[id].phase.Finished?
    ensures KeysOk(after, requests[id := r])
  {
    assert r.call.key.Some? ==> Owns(requests[id], KeyOf(r.call));
    forall k | k in after && after[k].response.None? ensures HasOwner(requests[id := r], k) {
      OthersOwn(idem, after, requests, id, r, k);
    }
  }

  /** An owner that finishes takes its open row with it, by completing or by abandoning it. */
  lemma OwnerFinishes(idem: map<Slot, Row>, requests: map<nat, Request>, id: nat, r: Request, response: Response)
    requires KeysOk(idem, requests) && id in requests
    requires r.call == requests[id].call && r.phase.Finished? && !requests[id].phase.Finished?
    ensures KeysOk(Dropped(idem, r.call), requests[id := r])
    ensures r.call.key.Some? ==>
              var done := Complete(idem, KeyOf(r.call), r.call.hash, response);
              && KeyOf(r.call) !in Dropped(idem, r.call)
              && KeysOk(done, requests[id := r])
              && KeyOf(r.call) in done && done[KeyOf(r.call)].response == Some(response)
    ensures r.call.key.None? ==> KeysOk(idem, requests[id := r])
  {
    if r.call.key.Some? {
      assert Owns(requests[id], KeyOf(r.call));
      OwnerLeaves(idem, Complete(idem, KeyOf(r.call), r.call.hash, response), requests, id, r);
    }
    OwnerLeaves(idem, Dropped(idem, r.call), requests, id, r);
  }

  // ---- Steps ----

  /** Both closures run and the request is finished. */
  function Ended(g: Gateway, id: nat): Gateway
    requires id in g.requests
  {
    var h := DropSlot(DropPermit(g, id), id);
    With(h, id, h.requests[id].(phase := Finished))
  }

  function EndedRequest(r: Request): Request { r.(phase := Finished, slotHeld := false, permitHeld := false) }

  lemma EndedCounts(cfg: Config, g: Gateway, id: nat)
    requires id in g.requests && SlotsOk(cfg, g.slots, g.requests) && PermitsOk(cfg, g.permits, g.requests)
    ensures var h := Ended(g, id);
            && SlotsOk(cfg, h.slots, h.requests) && PermitsOk(cfg, h.permits, h.requests)
            && h.requests == g.requests[id := EndedRequest(g.requests[id])]
            && h == g.(slots := h.slots, permits := h.permits, requests := h.requests)
  {
    var a := DropPermit(g, id);
    DropPermitKeeps(cfg, g, id);
    var b := DropSlot(a, id);
    DropSlotKeeps(cfg, a, id);
    var r := b.requests[id].(phase := Finished);
    RelabelKeeps(cfg, b, id, r);
    assert b.requests[id := r] == g.requests[id := r];
  }

  lemma EndedFlags(g: Gateway, id: nat)
    requires id in g.requests && StreamsOk(g.streams, g.requests) && FlagsOk(g.requests)
             && !g.requests[id].phase.Streaming?
    ensures var after := g.requests[id := EndedRequest(g.requests[id])];
            StreamsOk(g.streams, after) && FlagsOk(after)
  {
  }

  lemma FailKeeps(cfg: Config, g: Gateway, id: nat)
    requires Accounted(cfg, g) && id in g.requests && Working(g.requests[id]) && !g.requests[id].phase.Streaming?
    ensures Accounted(cfg, Fail(g, id)) && Fail(g, id).requests == g.requests[id := EndedRequest(g.requests[id])]
  {
    var r := EndedRequest(g.requests[id]);
    EndedCounts(cfg, g, id);
    EndedFlags(g, id);
    SettleFrees(g.rows, g.requests, id, r, 0);
    assert Fail(g, id) == Ended(g, id).(rows := Release(g.rows, id, r.call.tenant), idem := Dropped(g.idem, r.call));
  }

  lemma SucceedKeeps(cfg: Config, g: Gateway, id: nat, response: Response, reported: Option<nat>)
    requires Accounted(cfg, g) && id in g.requests && g.requests[id].phase.Reading?
    ensures Accounted(cfg, Succeed(g, id, response, reported))
    ensures Succeed(g, id, response, reported).requests == g.requests[id := EndedRequest(g.requests[id])]
  {
    var r := EndedRequest(g.requests[id]);
    EndedCounts(cfg, g, id);
    EndedFlags(g, id);
    SettleFrees(g.rows, g.requests, id, r, Actual(r.call, reported));
  }

  lemma FinalizeKeeps(cfg: Config, g: Gateway, id: nat, rows: seq<UsageRow>)
    requires Accounted(cfg, g) && id in g.requests && OpenStream(g.requests[id])
    requires RowsOk(rows, g.requests[id := g.requests[id].(slotHeld := false, finalized := true)])
    ensures Accounted(cfg, Finalize(g, id, rows))
  {
    var h := DropSlot(g, id);
    DropSlotKeeps(cfg, g, id);
    var r := h.requests[id].(finalized := true);
    RelabelKeeps(cfg, h, id, r);
    assert h.requests[id := r] == g.requests[id := r];
  }

  lemma EndKeeps(cfg: Config, g: Gateway, id: nat, reported: Option<nat>)
    requires Accounted(cfg, g)
    ensures Accounted(cfg, EndStream(g, id, reported))
  {
    if id in g.requests && OpenStream(g.requests[id]) {
      var c, r := g.requests[id].call, g.requests[id].(slotHeld := false, finalized := true);
      SettleFrees(g.rows, g.requests, id, r, Actual(c, reported));
      FinalizeKeeps(cfg, g, id, Settle(g.rows, id, c.tenant, Actual(c, reported)));
    }
  }

  lemma BreakKeeps(cfg: Config, g: Gateway, id: nat)
    requires Accounted(cfg, g)
    ensures Accounted(cfg, BreakStream(g, id)) && BreakStream(g, id).streams == g.streams - {id}
  {
    if id in g.requests && OpenStream(g.requests[id]) {
      var c, r := g.requests[id].call, g.requests[id].(slotHeld := false, finalized := true);
      SettleFrees(g.rows, g.requests, id, r, 0);
      FinalizeKeeps(cfg, g, id, Release(g.rows, id, c.tenant));
    }
  }

  lemma DropPermitAccounted(cfg: Config, g: Gateway, id: nat)
    requires Accounted(cfg, g) && id in g.requests
    ensures Accounted(cfg, DropPermit(g, id))
  {
    DropPermitKeeps(cfg, g, id);
    RelabelRows(g.rows, g.requests, id, g.requests[id].(permitHeld := false));
  }

  function Responded(r: Request, status: nat, ok: bool, hasBody: bool): Request {
    r.(phase := if !r.call.stream then Reading(status, ok) else if !ok || !hasBody then Cancelling else Streaming)
  }

  lemma RespondedKeeps(cfg: Config, h: Gateway, id: nat, r: Request)
    requires Accounted(cfg, h) && id in h.requests && h.requests[id].phase.Fetching?
    requires r == h.requests[id].(phase := r.phase) && (r.phase.Reading? || r.phase.Cancelling? || r.phase.Streaming?)
    requires !r.finalized && (r.phase.Reading? ==> !r.call.stream) && (r.phase.Streaming? ==> r.call.stream)
    ensures Accounted(cfg, With(h, id, r).(streams := if r.phase.Streaming? then h.streams + {id} else h.streams))
  {
    RelabelKeeps(cfg, h, id, r);
    RelabelRows(h.rows, h.requests, id, r);
  }

  lemma RespondKeeps(cfg: Config, g: Gateway, id: nat, status: nat, ok: bool, hasBody: bool)
    requires Accounted(cfg, g) && id in g.requests && g.requests[id].phase.Fetching?
    ensures Accounted(cfg, Respond(g, id, status, ok, hasBody))
  {
    DropPermitKeeps(cfg, g, id);
    DropPermitAccounted(cfg, g, id);
    var h := if hasBody then g else DropPermit(g, id);
    RespondedKeeps(cfg, h, id, Responded(h.requests[id], status, ok, hasBody));
  }

  lemma {:induction false} BreakAllKeeps(cfg: Config, g: Gateway, order: seq<nat>)
    requires Accounted(cfg, g)
    ensures var h := BreakAll(g, order);
            && Accounted(cfg, h)
            && (forall id :: id in h.streams <==> id in g.streams && id !in order)
  {
    if order != [] {
      var prefix, last := order[..|order| - 1], order[|order| - 1];
      BreakAllKeeps(cfg, g, prefix);
      BreakKeeps(cfg, BreakAll(g, prefix), last);
      assert order == prefix + [last];
    }
  }

  // ---- Arrivals ----

  lemma NewOwner(idem: map<Slot, Row>, requests: map<nat, Request>, id: nat, r: Request, row: Row)
    requires KeysOk(idem, requests) && id !in requests
    requires r.call.key.Some? && !r.phase.Finished? && KeyOf(r.call) !in idem
    requires row.hash == r.call.hash && row.response.None?
    ensures KeysOk(idem[KeyOf(r.call) := row], requests[id := r])
  {
    var k0, after := KeyOf(r.call), requests[id := r];
    var more := idem[k0 := row];
    forall k | k in more && more[k].response.None? ensures HasOwner(after, k) {
      if k == k0 {
        assert Owns(after[id], k);
      } else {
        var j :| j in requests && Owns(requests[j], k);
        assert Owns(after[j], k);
      }
    }
  }

  /** A request that owns nothing joins. */
  lemma NewBystander(idem: map<Slot, Row>, requests: map<nat, Request>, id: nat, r: Request)
    requires KeysOk(idem, requests) && id !in requests && (r.call.key.None? || r.phase.Finished?)
    ensures KeysOk(idem, requests[id := r])
  {
    forall k | k in idem && idem[k].response.None? ensures HasOwner(requests[id := r], k) {
      var j :| j in requests && Owns(requests[j], k);
      assert Owns(requests[id := r][j], k);
    }
  }

  lemma NewPermitHolder(cfg: Config, permits: int, requests: map<nat, Request>, id: nat, r: Request)
    requires PermitsOk(cfg, permits, requests) && id !in requests && (r.permitHeld ==> permits < cfg.concurrency)
    ensures PermitsOk(cfg, if r.permitHeld then permits + 1 else permits, requests[id := r])
  {
    if r.permitHeld {
      assert PermitHolders(requests[id := r]) == PermitHolders(requests) + {id};
    } else {
      assert PermitHolders(requests[id := r]) == PermitHolders(requests);
    }
  }

  lemma NewSlotHolder(cfg: Config, slots: map<nat, nat>, requests: map<nat, Request>, id: nat, r: Request)
    requires SlotsOk(cfg, slots, requests) && id !in requests && r.slotHeld
    requires Acquired(slots, cfg.maxTenants, r.call.tenant, SlotLimit(cfg, r.call.tenant)).Some?
    ensures SlotsOk(cfg, Acquired(slots, cfg.maxTenants, r.call.tenant, SlotLimit(cfg, r.call.tenant)).value,
                    requests[id := r])
  {
    var t0, after := r.call.tenant, requests[id := r];
    AcquiredSize(slots, cfg.maxTenants, t0, SlotLimit(cfg, t0));
    assert SlotHolders(after, t0) == SlotHolders(requests, t0) + {id};
    forall t: nat | t != t0 ensures SlotHolders(after, t) == SlotHolders(requests, t) {
    }
  }

  lemma NewNonHolder(cfg: Config, slots: map<nat, nat>, requests: map<nat, Request>, id: nat, r: Request)
    requires SlotsOk(cfg, slots, requests) && id !in requests && !r.slotHeld
    ensures SlotsOk(cfg, slots, requests[id := r])
  {
    forall t: nat ensures SlotHolders(requests[id := r], t) == SlotHolders(requests, t) {
    }
  }

  lemma NewRow(rows: seq<UsageRow>, requests: map<nat, Request>, id: nat, r: Request, row: UsageRow)
    requires RowsOk(rows, requests) && id !in requests && row.id == id && row.tenant == r.call.tenant
             && row.state == Reserved
    ensures Working(r) ==> RowsOk(rows + [row], requests[id := r])
    ensures !Working(r) ==> RowsOk(Release(rows + [row], id, r.call.tenant), requests[id := r])
  {
    var more, after := rows + [row], requests[id := r];
    assert more[|rows|] == row;
    forall j | j in requests ensures IsReserved(more, j) <==> IsReserved(rows, j) {
      if IsReserved(rows, j) {
        var i :| 0 <= i < |rows| && rows[i].id == j && rows[i].state == Reserved;
        assert more[i] == rows[i];
      }
    }
    assert IsReserved(more, id);
    var w := Request(r.call, Fetching, true, true, false);
    if !Working(r) {
      assert RowsOk(more, requests[id := w]);
      SettleFrees(more, requests[id := w], id, r, 0);
      assert requests[id := w][id := r] == after;
    }
  }

  lemma AdmittedKeeps(cfg: Config, g: Gateway, id: nat, c: Call, now: nat)
    requires Accounted(cfg, g) && id !in g.requests && (c.stream ==> c.key.None?)
    requires Reserve(g.rows, cfg.limits, id, c.tenant, c.estimate, now).Some?
    requires Acquired(g.slots, cfg.maxTenants, c.tenant, SlotLimit(cfg, c.tenant)).Some?
    ensures Accounted(cfg, Admit(cfg, g, id, c, now).0)
  {
    var r := Joining(c, g.permits < cfg.concurrency);
    NewPermitHolder(cfg, g.permits, g.requests, id, r);
    NewSlotHolder(cfg, g.slots, g.requests, id, r);
    NewRow(g.rows, g.requests, id, r, UsageRow(id, c.tenant, c.estimate, Reserved, DayOf(now), now));
  }

  lemma TurnedAwayKeeps(cfg: Config, g: Gateway, id: nat, c: Call, now: nat)
    requires Accounted(cfg, g) && id !in g.requests && (c.stream ==> c.key.None?)
    requires Reserve(g.rows, cfg.limits, id, c.tenant, c.estimate, now).Some?
    requires Acquired(g.slots, cfg.maxTenants, c.tenant, SlotLimit(cfg, c.tenant)).None?
    ensures Accounted(cfg, Admit(cfg, g, id, c, now).0)
  {
    var r := TurnedAway(c);
    NewPermitHolder(cfg, g.permits, g.requests, id, r);
    NewNonHolder(cfg, g.slots, g.requests, id, r);
    NewRow(g.rows, g.requests, id, r, UsageRow(id, c.tenant, c.estimate, Reserved, DayOf(now), now));
  }

  lemma AdmitKeeps(cfg: Config, g: Gateway, id: nat, c: Call, now: nat)
    requires Accounted(cfg, g) && id !in g.requests && (c.stream ==> c.key.None?)
    ensures Accounted(cfg, Admit(cfg, g, id, c, now).0)
  {
    if Reserve(g.rows, cfg.limits, id, c.tenant, c.estimate, now).Some? {
      if Acquired(g.slots, cfg.maxTenants, c.tenant, SlotLimit(cfg, c.tenant)).None? {
        TurnedAwayKeeps(cfg, g, id, c, now);
      } else {
        AdmittedKeeps(cfg, g, id, c, now);
      }
    }
  }

  lemma ArriveKeeps(cfg: Config, g: Gateway, id: nat, c: Call, now: nat)
    requires Accounted(cfg, g) && id !in g.requests
    ensures Accounted(cfg, Arrive(cfg, g, id, c, now).0)
  {
    if !(c.key.Some? && (!c.keyValid || c.stream)) {
      var (idem, claimed) := if c.key.Some? then Claim(g.idem, KeyOf(c), c.hash, now) else (g.idem, Owner);
      if claimed == Owner {
        AdmitKeeps(cfg, g.(idem := idem), id, c, now);
      }
    }
  }

  // ---- Every run ----

  lemma ExitKeeps(cfg: Config, g: Gateway, e: Event)
    requires Accounted(cfg, g) && (e.OverloadCaught? || e.UpstreamFails? || e.Cancelled? || e.Parsed?)
    ensures Accounted(cfg, Step(cfg, g, e))
  {
    if e.id in g.requests {
      var p := g.requests[e.id].phase;
      if e.Parsed? && p.Reading? && e.body.Some? && p.ok {
        SucceedKeeps(cfg, g, e.id, Response(p.status, e.body.value), e.reported);
      } else if p.Overloaded? || p.Fetching? || p.Cancelling? || p.Reading? {
        FailKeeps(cfg, g, e.id);
      }
    }
  }

  lemma AnswerKeeps(cfg: Config, g: Gateway, e: Event)
    requires Accounted(cfg, g) && (e.Responds? || e.BodyCloses?)
    ensures Accounted(cfg, Step(cfg, g, e))
  {
    match e
    case Responds(id, status, ok, hasBody) =>
      if id in g.requests && g.requests[id].phase.Fetching? {
        RespondKeeps(cfg, g, id, status, ok, hasBody);
      }
    case BodyCloses(id) =>
      if id in g.requests {
        DropPermitAccounted(cfg, g, id);
      }
  }

  lemma StreamKeeps(cfg: Config, g: Gateway, e: Event)
    requires Accounted(cfg, g) && (e.StreamEnds? || e.StreamBreaks? || e.Shutdown?)
    ensures Accounted(cfg, Step(cfg, g, e))
  {
    match e
    case StreamEnds(id, reported) => EndKeeps(cfg, g, id, reported);
    case StreamBreaks(id) => BreakKeeps(cfg, g, id);
    case Shutdown(order) => BreakAllKeeps(cfg, g, order);
  }

  lemma StepKeeps(cfg: Config, g: Gateway, e: Event)
    requires Accounted(cfg, g)
    ensures Accounted(cfg, Step(cfg, g, e))
  {
    if e.Arrives? {
      if e.id !in g.requests {
        ArriveKeeps(cfg, g, e.id, e.call, e.now);
      }
    } else if e.Responds? || e.BodyCloses? {
      AnswerKeeps(cfg, g, e);
    } else if e.StreamEnds? || e.StreamBreaks? || e.Shutdown? {
      StreamKeeps(cfg, g, e);
    } else {
      ExitKeeps(cfg, g, e);
    }
  }

  /**
   * Under every interleaving, for however long, slot and permit counters equal the closures not yet run
   * and stay within their limits, the registry holds exactly the open streams, and a reservation is open
   * exactly while its request works.
   */
  lemma {:induction false} RunKeeps(cfg: Config, g: Gateway, events: seq<Event>)
    requires Accounted(cfg, g)
    ensures Accounted(cfg, Run(cfg, g, events))
  {
    if events != [] {
      RunKeeps(cfg, g, events[..|events| - 1]);
      StepKeeps(cfg, Run(cfg, g, events[..|events| - 1]), events[|events| - 1]);
    }
  }

  /** A gateway with nothing in flight is accounted for, and no key is taken. */
  lemma IdleGateway(cfg: Config)
    ensures var g := Gateway(map[], [], map[], 0, {}, map[]);
            Accounted(cfg, g) && KeysOk(g.idem, g.requests)
  {
    forall t: nat ensures SlotHolders(map[], t) == {} {
    }
    assert PermitHolders(map[]) == {};
  }

  /**
   * When no request is working any more, no slot is held, no stream is registered and nothing is reserved;
   * once the bodies of finalised streams have closed, no permit is held either.
   */
  lemma QuietMeansReleased(cfg: Config, g: Gateway)
    requires Accounted(cfg, g) && forall id :: id in g.requests ==> !Working(g.requests[id])
    ensures g.slots == map[] && g.streams == {}
    ensures forall i :: 0 <= i < |g.rows| ==> g.rows[i].state != Reserved
    ensures (forall id :: id in g.requests && g.requests[id].phase.Streaming? ==> !g.requests[id].permitHeld) ==>
              g.permits == 0
  {
    if forall id :: id in g.requests && g.requests[id].phase.Streaming? ==> !g.requests[id].permitHeld {
      assert PermitHolders(g.requests) == {};
    }
    forall t: nat ensures t !in g.slots {
      assert SlotHolders(g.requests, t) == {};
    }
    forall i | 0 <= i < |g.rows| ensures g.rows[i].state != Reserved {
      if g.rows[i].state == Reserved {
        assert IsReserved(g.rows, g.rows[i].id);
      }
    }
  }

  /** Shutdown leaves no registered stream. */
  lemma ShutdownLeavesNone(cfg: Config, g: Gateway, order: seq<nat>)
    requires Accounted(cfg, g) && forall id :: id in g.streams ==> id in order
    ensures Step(cfg, g, Shutdown(order)).streams == {}
  {
    BreakAllKeeps(cfg, g, order);
  }

  // ---- Idempotency across requests ----

  /** The call claims a key whose owner is still running although the key's row has expired. */
  predicate Overtakes(g: Gateway, c: Call, now: nat) {
    && c.key.Some? && c.keyValid && !c.stream
    && KeyOf(c) in g.idem && g.idem[KeyOf(c)].response.None? && g.idem[KeyOf(c)].expiresAt <= now
  }

  ghost predicate KeysHeld(g: Gateway) { KeysOk(g.idem, g.requests) }

  /** Dropping a row nobody owns, because it is answered. */
  lemma ExpiredAnswered(idem: map<Slot, Row>, requests: map<nat, Request>, k: Slot)
    requires KeysOk(idem, requests) && k in idem && idem[k].response.Some?
    ensures KeysOk(idem - {k}, requests)
  {
    forall j | j in idem - {k} && (idem - {k})[j].response.None? ensures HasOwner(requests, j) {
    }
  }

  /** The keys and requests an admission can leave. */
  ghost predicate Leaves(h: Gateway, g: Gateway, id: nat, c: Call) {
    || (h.idem == Dropped(g.idem, c) && (h.requests == g.requests || h.requests == g.requests[id := TurnedAway(c)]))
    || (h.idem == g.idem && (|| h.requests == g.requests[id := Joining(c, true)]
                             || h.requests == g.requests[id := Joining(c, false)]))
  }

  lemma AdmitLeaves(cfg: Config, g: Gateway, id: nat, c: Call, now: nat)
    ensures Leaves(Admit(cfg, g, id, c, now).0, g, id, c)
  {
  }

  /** An admission keeps the law of keys whether it takes the claimed row or drops it. */
  lemma LeavesKeys(h: Gateway, g: Gateway, id: nat, c: Call, live: map<Slot, Row>, row: Row)
    requires KeysOk(live, g.requests) && id !in g.requests && Leaves(h, g, id, c)
    requires row.hash == c.hash && row.response.None?
    requires if c.key.None? then g.idem == live else KeyOf(c) !in live && g.idem == live[KeyOf(c) := row]
    ensures KeysHeld(h)
  {
    assert c.key.Some? ==> Dropped(g.idem, c) == live;
    NewBystander(live, g.requests, id, TurnedAway(c));
    if c.key.None? {
      NewBystander(live, g.requests, id, Joining(c, true));
      NewBystander(live, g.requests, id, Joining(c, false));
    } else {
      NewOwner(live, g.requests, id, Joining(c, true), row);
      NewOwner(live, g.requests, id, Joining(c, false), row);
    }
  }

  lemma ArriveKeepsKeys(cfg: Config, g: Gateway, id: nat, c: Call, now: nat)
    requires KeysHeld(g) && id !in g.requests && !Overtakes(g, c, now)
    ensures KeysHeld(Arrive(cfg, g, id, c, now).0)
  {
    if c.key.None? {
      AdmitLeaves(cfg, g, id, c, now);
      LeavesKeys(Admit(cfg, g, id, c, now).0, g, id, c, g.idem, Row(c.hash, None, now + LIFETIME));
    } else if c.keyValid && !c.stream {
      ClaimKeepsKeys(cfg, g, id, c, now);
    }
  }

  lemma ClaimKeepsKeys(cfg: Config, g: Gateway, id: nat, c: Call, now: nat)
    requires KeysHeld(g) && id !in g.requests && !Overtakes(g, c, now) && c.key.Some? && c.keyValid && !c.stream
    ensures KeysHeld(Arrive(cfg, g, id, c, now).0)
  {
    var k := KeyOf(c);
    var live := Unexpired(g.idem, k, now);
    if k in live {
      KeyTaken(cfg, g, id, c, now);
    } else {
      if k in g.idem {
        ExpiredAnswered(g.idem, g.requests, k);
      }
      var row := Row(c.hash, None, now + LIFETIME);
      var claimed := g.(idem := live[k := row]);
      AdmitLeaves(cfg, claimed, id, c, now);
      LeavesKeys(Admit(cfg, claimed, id, c, now).0, claimed, id, c, live, row);
      KeyFree(cfg, g, id, c, now, claimed);
    }
  }

  lemma KeyTaken(cfg: Config, g: Gateway, id: nat, c: Call, now: nat)
    requires c.key.Some? && KeyOf(c) in Unexpired(g.idem, KeyOf(c), now)
    ensures Arrive(cfg, g, id, c, now).0 == g
  {
  }

  lemma KeyFree(cfg: Config, g: Gateway, id: nat, c: Call, now: nat, claimed: Gateway)
    requires c.key.Some? && c.keyValid && !c.stream && KeyOf(c) !in Unexpired(g.idem, KeyOf(c), now)
    requires claimed == g.(idem := Unexpired(g.idem, KeyOf(c), now)[KeyOf(c) := Row(c.hash, None, now + LIFETIME)])
    ensures Arrive(cfg, g, id, c, now) == Admit(cfg, claimed, id, c, now)
  {
  }

  /** A claim that overtakes an expired owner leaves a key with two owners, or an owner without its row. */
  lemma OvertakingBreaks(cfg: Config, g: Gateway, id: nat, c: Call, now: nat)
    requires KeysHeld(g) && id !in g.requests && Overtakes(g, c, now)
    ensures !KeysHeld(Arrive(cfg, g, id, c, now).0)
  {
    var k := KeyOf(c);
    var claimed := g.(idem := Unexpired(g.idem, k, now)[k := Row(c.hash, None, now + LIFETIME)]);
    KeyFree(cfg, g, id, c, now, claimed);
    AdmitLeaves(cfg, claimed, id, c, now);
    var j :| j in g.requests && Owns(g.requests[j], k);
    TwoOwnersOrNone(Admit(cfg, claimed, id, c, now).0, claimed, id, c, j);
  }

  lemma TwoOwnersOrNone(h: Gateway, g: Gateway, id: nat, c: Call, j: nat)
    requires Leaves(h, g, id, c) && id !in g.requests && c.key.Some? && j in g.requests && Owns(g.requests[j], KeyOf(c))
    requires KeyOf(c) in g.idem && g.idem[KeyOf(c)].hash == c.hash && g.idem[KeyOf(c)].response.None?
    ensures !KeysHeld(h)
  {
    assert Owns(h.requests[j], KeyOf(c));
    if h.idem == Dropped(g.idem, c) {
      assert KeyOf(c) !in h.idem;
    } else {
      assert Owns(h.requests[id], KeyOf(c));
    }
  }

  /** An arrival keeps the law of keys exactly when it does not overtake an expired owner. */
  lemma ArrivalKeepsKeysExactly(cfg: Config, g: Gateway, id: nat, c: Call, now: nat)
    requires KeysHeld(g) && id !in g.requests
    ensures KeysHeld(Arrive(cfg, g, id, c, now).0) <==> !Overtakes(g, c, now)
  {
    if Overtakes(g, c, now) {
      OvertakingBreaks(cfg, g, id, c, now);
    } else {
      ArriveKeepsKeys(cfg, g, id, c, now);
    }
  }

  lemma EndKeepsKeys(g: Gateway, id: nat, response: Response, reported: Option<nat>)
    requires KeysHeld(g) && id in g.requests && !g.requests[id].phase.Finished?
    ensures KeysHeld(Fail(g, id)) && KeysHeld(Succeed(g, id, response, reported))
  {
    var r := Ended(g, id).requests[id];
    assert Ended(g, id).requests == g.requests[id := r];
    OwnerFinishes(g.idem, g.requests, id, r, response);
  }

  lemma ExitKeepsKeys(cfg: Config, g: Gateway, e: Event)
    requires KeysHeld(g) && (e.OverloadCaught? || e.UpstreamFails? || e.Cancelled? || e.Parsed?)
    ensures KeysHeld(Step(cfg, g, e))
  {
    if e.id in g.requests && !g.requests[e.id].phase.Finished? {
      if e.Parsed? && g.requests[e.id].phase.Reading? {
        EndKeepsKeys(g, e.id, Response(g.requests[e.id].phase.status, if e.body.Some? then e.body.value else 0),
                     e.reported);
      } else {
        EndKeepsKeys(g, e.id, Response(0, 0), None);
      }
    }
  }

  lemma {:induction false} BreakAllKeepsKeys(g: Gateway, order: seq<nat>)
    requires KeysHeld(g)
    ensures KeysHeld(BreakAll(g, order))
  {
    if order != [] {
      var prefix, last := order[..|order| - 1], order[|order| - 1];
      BreakAllKeepsKeys(g, prefix);
      BreakKeepsKeys(BreakAll(g, prefix), last, None);
    }
  }

  lemma BreakKeepsKeys(g: Gateway, id: nat, reported: Option<nat>)
    requires KeysHeld(g)
    ensures KeysHeld(BreakStream(g, id)) && KeysHeld(EndStream(g, id, reported))
  {
    if id in g.requests && OpenStream(g.requests[id]) {
      var r := g.requests[id].(slotHeld := false, finalized := true);
      RelabelKeys(g.idem, g.requests, id, r);
      assert BreakStream(g, id).requests == g.requests[id := r];
      assert EndStream(g, id, reported).requests == g.requests[id := r];
    }
  }

  lemma BodyKeepsKeys(g: Gateway, id: nat)
    requires KeysHeld(g) && id in g.requests
    ensures KeysHeld(DropPermit(g, id))
  {
    RelabelKeys(g.idem, g.requests, id, g.requests[id].(permitHeld := false));
    assert DropPermit(g, id).requests == g.requests[id := g.requests[id].(permitHeld := false)];
  }

  lemma RespondKeepsKeys(g: Gateway, id: nat, status: nat, ok: bool, hasBody: bool)
    requires KeysHeld(g) && id in g.requests && g.requests[id].phase.Fetching?
    ensures KeysHeld(Respond(g, id, status, ok, hasBody))
  {
    var h := if hasBody then g else DropPermit(g, id);
    BodyKeepsKeys(g, id);
    RelabelKeys(h.idem, h.requests, id, Responded(h.requests[id], status, ok, hasBody));
  }

  /** The event is no claim of a key whose owner has outlived the key's row. */
  predicate InTime(g: Gateway, e: Event) { e.Arrives? && e.id !in g.requests ==> !Overtakes(g, e.call, e.now) }

  lemma StepKeepsKeys(cfg: Config, g: Gateway, e: Event)
    requires KeysHeld(g) && InTime(g, e)
    ensures KeysHeld(Step(cfg, g, e))
  {
    match e
    case Arrives(id, c, now) =>
      if id !in g.requests {
        ArriveKeepsKeys(cfg, g, id, c, now);
      }
    case Responds(id, status, ok, hasBody) =>
      if id in g.requests && g.requests[id].phase.Fetching? {
        RespondKeepsKeys(g, id, status, ok, hasBody);
      }
    case BodyCloses(id) =>
      if id in g.requests {
        BodyKeepsKeys(g, id);
      }
    case StreamEnds(id, reported) => BreakKeepsKeys(g, id, reported);
    case StreamBreaks(id) => BreakKeepsKeys(g, id, None);
    case Shutdown(order) => BreakAllKeepsKeys(g, order);
    case _ => ExitKeepsKeys(cfg, g, e);
  }

  /** Every claim of the run finds the key's owner, if one still runs, within the row's lifetime. */
  ghost predicate AllInTime(cfg: Config, g: Gateway, events: seq<Event>) {
    events != [] ==>
      AllInTime(cfg, g, events[..|events| - 1])
      && InTime(Run(cfg, g, events[..|events| - 1]), events[|events| - 1])
  }

  /**
   * Over runs of any length in which no key is claimed while its owner outlives its row: an open row has
   * exactly one running owner, and every running owner has its open row.
   */
  lemma {:induction false} RunKeepsKeys(cfg: Config, g: Gateway, events: seq<Event>)
    requires KeysHeld(g) && AllInTime(cfg, g, events)
    ensures KeysHeld(Run(cfg, g, events))
  {
    if events != [] {
      RunKeepsKeys(cfg, g, events[..|events| - 1]);
      StepKeepsKeys(cfg, Run(cfg, g, events[..|events| - 1]), events[|events| - 1]);
    }
  }

  /** When every request has ended, no key is left in progress. */
  lemma QuietMeansAnswered(g: Gateway)
    requires KeysHeld(g) && forall id :: id in g.requests ==> g.requests[id].phase.Finished?
    ensures forall k :: k in g.idem ==> g.idem[k].response.Some?
  {
    forall k ensures !HasOwner(g.requests, k) {
    }
  }

  /** Until its row expires, a completed key replays or conflicts and touches nothing else. */
  lemma CompletedKeyReplays(cfg: Config, g: Gateway, id: nat, c: Call, now: nat)
    requires c.key.Some? && c.keyValid && !c.stream && KeyOf(c) in g.idem
    requires g.idem[KeyOf(c)].response.Some? && now < g.idem[KeyOf(c)].expiresAt
    ensures var (h, reply) := Arrive(cfg, g, id, c, now);
            h == g && reply == if g.idem[KeyOf(c)].hash == c.hash
                               then Replay(g.idem[KeyOf(c)].response.value) else KeyConflict
  {
  }

  /** Until its row expires, a key in progress admits nobody else. */
  lemma BusyKeyRefuses(cfg: Config, g: Gateway, owner: nat, id: nat, c: Call, now: nat)
    requires KeysHeld(g) && c.key.Some? && c.keyValid && !c.stream
    requires owner in g.requests && Owns(g.requests[owner], KeyOf(c)) && now < g.idem[KeyOf(c)].expiresAt
    ensures var (h, reply) := Arrive(cfg, g, id, c, now);
            h == g && reply == if g.requests[owner].call.hash == c.hash then KeyInProgress else KeyConflict
  {
  }

  /** The answered row of `k`, if it has one, is still there. */
  ghost predicate StillCompleted(before: map<Slot, Row>, after: map<Slot, Row>, k: Slot) {
    k in before && before[k].response.Some? ==> k in after && after[k] == before[k]
  }

  /** No claim of `k` comes after its row has expired. */
  predicate Within(idem: map<Slot, Row>, k: Slot, e: Event) {
    e.Arrives? && e.call.key.Some? && KeyOf(e.call) == k && k in idem ==> e.now < idem[k].expiresAt
  }

  lemma ArriveKeepsCompleted(cfg: Config, g: Gateway, id: nat, c: Call, now: nat, k: Slot)
    requires Within(g.idem, k, Arrives(id, c, now))
    ensures StillCompleted(g.idem, Arrive(cfg, g, id, c, now).0.idem, k)
  {
  }

  lemma ExitsKeepCompleted(g: Gateway, id: nat, response: Response, reported: Option<nat>, k: Slot)
    requires id in g.requests
    ensures StillCompleted(g.idem, Fail(g, id).idem, k)
    ensures StillCompleted(g.idem, Succeed(g, id, response, reported).idem, k)
  {
  }

  lemma {:induction false} BreakAllIdem(g: Gateway, order: seq<nat>)
    ensures BreakAll(g, order).idem == g.idem
  {
    if order != [] {
      BreakAllIdem(g, order[..|order| - 1]);
    }
  }

  lemma StepKeepsCompleted(cfg: Config, g: Gateway, e: Event, k: Slot)
    requires Within(g.idem, k, e)
    ensures StillCompleted(g.idem, Step(cfg, g, e).idem, k)
  {
    match e
    case Arrives(id, c, now) => ArriveKeepsCompleted(cfg, g, id, c, now, k);
    case Parsed(id, body, reported) =>
      if id in g.requests && g.requests[id].phase.Reading? {
        ExitsKeepCompleted(g, id, Response(g.requests[id].phase.status, if body.Some? then body.value else 0),
                           reported, k);
      }
    case Shutdown(order) => BreakAllIdem(g, order);
    case OverloadCaught(id) =>
      if id in g.requests {
        ExitsKeepCompleted(g, id, Response(0, 0), None, k);
      }
    case UpstreamFails(id) =>
      if id in g.requests {
        ExitsKeepCompleted(g, id, Response(0, 0), None, k);
      }
    case Cancelled(id) =>
      if id in g.requests {
        ExitsKeepCompleted(g, id, Response(0, 0), None, k);
      }
    case _ =>
  }

  /** Over every run, the stored status and body of a completed key stay the same until its row expires. */
  lemma {:induction false} CompletedKeyStays(cfg: Config, g: Gateway, events: seq<Event>, k: Slot)
    requires k in g.idem && g.idem[k].response.Some?
    requires forall i :: 0 <= i < |events| ==> Within(g.idem, k, events[i])
    ensures k in Run(cfg, g, events).idem && Run(cfg, g, events).idem[k] == g.idem[k]
  {
    if events != [] {
      var prefix := events[..|events| - 1];
      CompletedKeyStays(cfg, g, prefix, k);
      StepKeepsCompleted(cfg, Run(cfg, g, prefix), events[|events| - 1], k);
    }
  }
}
