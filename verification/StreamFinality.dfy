// One stream among everything else (src/http/pipeline.ts:134-203): whatever arrives and in whatever
// order, the first of end, error, client close, idle timeout and shutdown decides, once and for all.

module StreamFinality {
  import opened Base
  import Budget
  import Idempotency
  import opened Admission

  datatype Verdict = Undecided | Settles(units: nat) | Breaks

  /** What one event says about stream `id`. Error, close and idle timeout all arrive as `StreamBreaks`. */
  function Says(e: Event, id: nat, estimate: nat): Verdict {
    match e
    case StreamEnds(i, reported) =>
      if i == id then Settles(if reported.Some? then reported.value else estimate) else Undecided
    case StreamBreaks(i) => if i == id then Breaks else Undecided
    case Shutdown(order) => if id in order then Breaks else Undecided
    case _ => Undecided
  }

  /** The first decisive event of the run. */
  function Verdicts(events: seq<Event>, id: nat, estimate: nat): Verdict {
    if events == [] then Undecided
    else
      var v := Verdicts(events[..|events| - 1], id, estimate);
      if v != Undecided then v else Says(events[|events| - 1], id, estimate)
  }

  /** The stream and its reservation row `i`, as the verdict leaves them. */
  ghost predicate Stands(g: Gateway, id: nat, c: Call, i: nat, v: Verdict) {
    && id in g.requests && g.requests[id].phase.Streaming? && g.requests[id].call == c
    && i < |g.rows| && g.rows[i].id == id && g.rows[i].tenant == c.tenant
    && (g.requests[id].finalized <==> v != Undecided)
    && (g.requests[id].slotHeld <==> v == Undecided)
    && (id in g.streams <==> v == Undecided)
    && match v
       case Undecided => g.rows[i].state == Budget.Reserved
       case Settles(units) => g.rows[i].state == Budget.Settled && g.rows[i].units == units
       case Breaks => g.rows[i].state == Budget.Released && g.rows[i].units == 0
  }

  /** Another request's exit: the stream's request, row and registration stay. */
  ghost predicate Apart(g: Gateway, h: Gateway, id: nat, i: nat) {
    && id in g.requests && i < |g.rows|
    && id in h.requests && h.requests[id] == g.requests[id]
    && i < |h.rows| && h.rows[i] == g.rows[i]
    && (id in h.streams <==> id in g.streams)
  }

  lemma BreakStands(g: Gateway, other: nat, id: nat, c: Call, i: nat, v: Verdict)
    requires Stands(g, id, c, i, v)
    ensures Stands(BreakStream(g, other), id, c, i, if v == Undecided && other == id then Breaks else v)
  {
  }

  lemma EndStands(g: Gateway, other: nat, reported: Option<nat>, id: nat, c: Call, i: nat, v: Verdict)
    requires Stands(g, id, c, i, v)
    ensures Stands(EndStream(g, other, reported), id, c, i,
                   if v == Undecided && other == id then Settles(Actual(c, reported)) else v)
  {
  }

  lemma {:induction false} BreakAllStands(g: Gateway, order: seq<nat>, id: nat, c: Call, i: nat, v: Verdict)
    requires Stands(g, id, c, i, v)
    ensures Stands(BreakAll(g, order), id, c, i, if v == Undecided && id in order then Breaks else v)
  {
    if order != [] {
      var prefix, last := order[..|order| - 1], order[|order| - 1];
      assert order == prefix + [last];
      BreakAllStands(g, prefix, id, c, i, v);
      BreakStands(BreakAll(g, prefix), last, id, c, i, if v == Undecided && id in prefix then Breaks else v);
    }
  }

  lemma ExitsApart(g: Gateway, other: nat, response: Idempotency.Response, reported: Option<nat>, id: nat, i: nat)
    requires other in g.requests && other != id && id in g.requests && i < |g.rows| && g.rows[i].id == id
    ensures Apart(g, Fail(g, other), id, i)
    ensures Apart(g, Succeed(g, other, response, reported), id, i)
  {
  }

  lemma AdmitApart(cfg: Config, g: Gateway, other: nat, c: Call, now: nat, id: nat, i: nat)
    requires other != id && id in g.requests && i < |g.rows| && g.rows[i].id == id
    ensures Apart(g, Admit(cfg, g, other, c, now).0, id, i)
  {
  }

  lemma ArriveApart(cfg: Config, g: Gateway, other: nat, c: Call, now: nat, id: nat, i: nat)
    requires other != id && id in g.requests && i < |g.rows| && g.rows[i].id == id
    ensures Apart(g, Arrive(cfg, g, other, c, now).0, id, i)
  {
    var (idem, claimed) := if c.key.Some? then Idempotency.Claim(g.idem, KeyOf(c), c.hash, now)
                           else (g.idem, Idempotency.Owner);
    AdmitApart(cfg, g.(idem := idem), other, c, now, id, i);
  }

  lemma ApartStands(g: Gateway, h: Gateway, id: nat, c: Call, i: nat, v: Verdict)
    requires Stands(g, id, c, i, v) && Apart(g, h, id, i)
    ensures Stands(h, id, c, i, v)
  {
  }

  lemma BodyStands(g: Gateway, other: nat, id: nat, c: Call, i: nat, v: Verdict)
    requires Stands(g, id, c, i, v) && other in g.requests
    ensures Stands(DropPermit(g, other), id, c, i, v)
  {
  }

  lemma RespondApart(g: Gateway, other: nat, status: nat, ok: bool, hasBody: bool, id: nat, i: nat)
    requires other in g.requests && other != id && id in g.requests && i < |g.rows|
    ensures Apart(g, Respond(g, other, status, ok, hasBody), id, i)
  {
  }

  /** Events that never decide a stream. */
  lemma BystanderStands(cfg: Config, g: Gateway, e: Event, id: nat, c: Call, i: nat, v: Verdict)
    requires Stands(g, id, c, i, v)
    requires e.Arrives? || e.OverloadCaught? || e.UpstreamFails? || e.Cancelled? || e.Parsed? || e.Responds?
    ensures Stands(Step(cfg, g, e), id, c, i, v)
  {
    var h := Step(cfg, g, e);
    if e.id != id {
      if e.Arrives? {
        ArriveApart(cfg, g, e.id, e.call, e.now, id, i);
      } else if e.id in g.requests {
        if e.Responds? {
          RespondApart(g, e.id, e.status, e.ok, e.hasBody, id, i);
        } else if e.Parsed? && g.requests[e.id].phase.Reading? {
          var body := if e.body.Some? then e.body.value else 0;
          ExitsApart(g, e.id, Idempotency.Response(g.requests[e.id].phase.status, body), e.reported, id, i);
        } else {
          ExitsApart(g, e.id, Idempotency.Response(0, 0), None, id, i);
        }
      }
      assert Apart(g, h, id, i);
      ApartStands(g, h, id, c, i, v);
    }
  }

  lemma StepStands(cfg: Config, g: Gateway, e: Event, id: nat, c: Call, i: nat, v: Verdict)
    requires Stands(g, id, c, i, v)
    ensures Stands(Step(cfg, g, e), id, c, i, if v == Undecided then Says(e, id, c.estimate) else v)
  {
    match e
    case BodyCloses(other) =>
      if other in g.requests {
        BodyStands(g, other, id, c, i, v);
      }
    case StreamEnds(other, reported) => EndStands(g, other, reported, id, c, i, v);
    case StreamBreaks(other) => BreakStands(g, other, id, c, i, v);
    case Shutdown(order) => BreakAllStands(g, order, id, c, i, v);
    case _ => BystanderStands(cfg, g, e, id, c, i, v);
  }

  lemma {:induction false} FirstDecisive(cfg: Config, g: Gateway, events: seq<Event>, id: nat, c: Call, i: nat)
    requires Stands(g, id, c, i, Undecided)
    ensures Stands(Run(cfg, g, events), id, c, i, Verdicts(events, id, c.estimate))
  {
    if events != [] {
      var prefix := events[..|events| - 1];
      FirstDecisive(cfg, g, prefix, id, c, i);
      StepStands(cfg, Run(cfg, g, prefix), events[|events| - 1], id, c, i, Verdicts(prefix, id, c.estimate));
    }
  }

  /** In every reachable state, a streaming call answered with a body opens undecided, its reservation at some row. */
  lemma OpeningStands(cfg: Config, g: Gateway, id: nat, status: nat) returns (i: nat)
    requires Accounted(cfg, g) && id in g.requests && g.requests[id].phase.Fetching? && g.requests[id].call.stream
    ensures Stands(Step(cfg, g, Responds(id, status, true, true)), id, g.requests[id].call, i, Undecided)
  {
    assert IsReserved(g.rows, id);
    i :| 0 <= i < |g.rows| && g.rows[i].id == id && g.rows[i].state == Budget.Reserved;
  }

  /**
   * From the moment a stream opens in any reachable state, over every run: its reservation is settled with
   * the reported units exactly when its end came before any other decisive event, released when another
   * came first, and still reserved, registered and holding its slot while none has come.
   */
  lemma FirstEventDecides(cfg: Config, g: Gateway, id: nat, status: nat, events: seq<Event>)
    requires Accounted(cfg, g) && id in g.requests && g.requests[id].phase.Fetching? && g.requests[id].call.stream
    ensures var c := g.requests[id].call;
            exists i :: Stands(Run(cfg, Step(cfg, g, Responds(id, status, true, true)), events), id, c, i,
                               Verdicts(events, id, c.estimate))
  {
    var i := OpeningStands(cfg, g, id, status);
    FirstDecisive(cfg, Step(cfg, g, Responds(id, status, true, true)), events, id, g.requests[id].call, i);
  }
}
