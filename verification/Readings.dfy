// Where the meter finds what an upstream reports (src/http/usage.ts:45-191), over the fields of the JSON and
// the characters of the line.

module Readings {
  import opened Base
  import opened UsageMeter

  // ---- Counts ----

  /** A whole, nonnegative number under `name`. */
  function NumberAt(j: Json, name: string): Option<nat> {
    match j
    case Obj(fields) =>
      if name in fields && fields[name].Number? && fields[name].n >= 0 then Some(fields[name].n) else None
    case _ => None
  }

  /** An object or array under `name`. */
  function ObjectAt(j: Json, name: string): Option<Json> {
    match j
    case Obj(fields) => if name in fields && (fields[name].Obj? || fields[name].Arr?) then Some(fields[name]) else None
    case _ => None
  }

  /** The usage object: the payload's own, or else the one inside its `message`. */
  function UsageIn(payload: Json): Option<Json> {
    match ObjectAt(payload, "usage")
    case Some(usage) => Some(usage)
    case None =>
      match ObjectAt(payload, "message")
      case Some(message) => ObjectAt(message, "usage")
      case None => None
  }

  lemma UsageFound(payload: Json)
    ensures UsageObject(payload) == UsageIn(payload)
  {
  }

  /** The first of two names that carries a number. */
  function Either(j: Json, name: string, other: string): Option<nat> {
    match NumberAt(j, name)
    case Some(n) => Some(n)
    case None => NumberAt(j, other)
  }

  /** What one OpenAI usage object is worth: its total, or else its prompt and completion together. */
  function Worth(usage: Json): Option<nat> {
    match NumberAt(usage, "total_tokens")
    case Some(n) => Some(n)
    case None =>
      match (Either(usage, "prompt_tokens", "input_tokens"), Either(usage, "completion_tokens", "output_tokens"))
      case (None, None) => None
      case (Some(p), None) => Some(p)
      case (None, Some(c)) => Some(c)
      case (Some(p), Some(c)) => Some(p + c)
  }

  function WorthIn(payload: Json): Option<nat> {
    match UsageIn(payload)
    case Some(usage) => Worth(usage)
    case None => None
  }

  lemma WorthRead(payload: Json)
    ensures CountIn(payload, ReportedTotal) == WorthIn(payload)
  {
    UsageFound(payload);
  }

  /** OpenAI units are what the last payload with a count is worth, and none without one. */
  lemma OpenAiUnits(payloads: seq<Json>)
    ensures var units := Units(OpenAi, ObserveAll(OpenAi, FRESH, payloads));
            && (units.None? <==> forall p :: p in payloads ==> WorthIn(p).None?)
            && (units.Some? ==> exists i :: 0 <= i < |payloads| && WorthIn(payloads[i]) == units
                                            && forall j :: i < j < |payloads| ==> WorthIn(payloads[j]).None?)
  {
    CountersMean(OpenAi, payloads);
    forall p | p in payloads ensures CountIn(p, ReportedTotal) == WorthIn(p) {
      WorthRead(p);
    }
  }

  /** The count under `name` in a payload's usage object. */
  function CountAt(payload: Json, name: string): Option<nat> {
    match UsageIn(payload)
    case Some(usage) => NumberAt(usage, name)
    case None => None
  }

  /** The larger of what was known and what a payload says. */
  function Larger(known: Option<nat>, said: Option<nat>): Option<nat> {
    match (known, said)
    case (Some(a), Some(b)) => Some(if a < b then b else a)
    case (Some(a), None) => known
    case (None, _) => said
  }

  lemma AnthropicCounts(m: Meter, payload: Json)
    ensures var n := Observe(Anthropic, m, payload);
            && n.inputTokens == Larger(m.inputTokens, CountAt(payload, "input_tokens"))
            && n.outputTokens == Larger(m.outputTokens, CountAt(payload, "output_tokens"))
  {
    UsageFound(payload);
  }

  /** The start of an Anthropic message: its usage is inside the envelope. */
  ghost predicate IsStart(p: Json, input: nat, output: nat) {
    && ObjectAt(p, "usage").None? && ObjectAt(p, "message").Some?
    && ObjectAt(ObjectAt(p, "message").value, "usage").Some?
    && (var u := ObjectAt(ObjectAt(p, "message").value, "usage").value;
        NumberAt(u, "input_tokens") == Some(input) && NumberAt(u, "output_tokens") == Some(output))
  }

  /** A later event, which carries the output so far. */
  ghost predicate IsDelta(p: Json, output: nat) {
    && ObjectAt(p, "usage").Some?
    && NumberAt(ObjectAt(p, "usage").value, "input_tokens").None?
    && NumberAt(ObjectAt(p, "usage").value, "output_tokens") == Some(output)
  }

  function Largest(first: nat, outputs: seq<nat>): nat {
    if outputs == [] then first else Max(Largest(first, outputs[..|outputs| - 1]), outputs[|outputs| - 1])
  }

  lemma ObserveLast(d: Dialect, payloads: seq<Json>, more: seq<Json>, p: Json)
    requires more == payloads + [p]
    ensures ObserveAll(d, FRESH, more) == Observe(d, ObserveAll(d, FRESH, payloads), p)
  {
    assert more[..|payloads|] == payloads;
  }

  lemma StartRead(m: Meter, p: Json, input: nat, output: nat)
    requires IsStart(p, input, output) && m.inputTokens.None? && m.outputTokens.None?
    ensures var n := Observe(Anthropic, m, p); n.inputTokens == Some(input) && n.outputTokens == Some(output)
  {
    AnthropicCounts(m, p);
  }

  lemma DeltaRead(m: Meter, p: Json, output: nat)
    requires IsDelta(p, output) && m.outputTokens.Some?
    ensures var n := Observe(Anthropic, m, p);
            n.inputTokens == m.inputTokens && n.outputTokens == Some(Max(m.outputTokens.value, output))
  {
    AnthropicCounts(m, p);
  }

  ghost predicate HasRead(payloads: seq<Json>, input: nat, output: nat) {
    var m := ObserveAll(Anthropic, FRESH, payloads);
    m.inputTokens == Some(input) && m.outputTokens == Some(output)
  }

  lemma FirstRead(payloads: seq<Json>, p: Json, input: nat, output: nat)
    requires IsStart(p, input, output) && payloads == [p]
    ensures HasRead(payloads, input, output)
  {
    ObserveLast(Anthropic, [], payloads, p);
    StartRead(FRESH, p, input, output);
  }

  lemma MoreRead(payloads: seq<Json>, more: seq<Json>, p: Json, input: nat, most: nat, output: nat)
    requires HasRead(payloads, input, most) && more == payloads + [p] && IsDelta(p, output)
    ensures HasRead(more, input, Max(most, output))
  {
    ObserveLast(Anthropic, payloads, more, p);
    DeltaRead(ObserveAll(Anthropic, FRESH, payloads), p, output);
  }

  lemma {:induction false} StartThenDeltas(p: Json, deltas: seq<Json>, input: nat, first: nat, outputs: seq<nat>)
    requires IsStart(p, input, first) && |deltas| == |outputs|
    requires forall i :: 0 <= i < |deltas| ==> IsDelta(deltas[i], outputs[i])
    ensures HasRead([p] + deltas, input, Largest(first, outputs))
  {
    if deltas == [] {
      FirstRead([p] + deltas, p, input, first);
    } else {
      var rest, last, earlier := deltas[..|deltas| - 1], deltas[|deltas| - 1], outputs[..|outputs| - 1];
      StartThenDeltas(p, rest, input, first, earlier);
      assert deltas == rest + [last];
      MoreRead([p] + rest, [p] + deltas, last, input, Largest(first, earlier), outputs[|outputs| - 1]);
    }
  }

  /** The units of a start and the events after it: the input it names and the largest output any of them does. */
  lemma AnthropicStreamUnits(p: Json, deltas: seq<Json>, input: nat, first: nat, outputs: seq<nat>)
    requires IsStart(p, input, first) && |deltas| == |outputs|
    requires forall i :: 0 <= i < |deltas| ==> IsDelta(deltas[i], outputs[i])
    ensures Units(Anthropic, ObserveAll(Anthropic, FRESH, [p] + deltas)) == Some(input + Largest(first, outputs))
  {
    StartThenDeltas(p, deltas, input, first, outputs);
  }

  // ---- The details ----

  function NumberWithin(j: Json, container: string, name: string): Option<nat> {
    match j
    case Obj(fields) => if container in fields then NumberAt(fields[container], name) else None
    case _ => None
  }

  function Latest<T>(said: Option<T>, known: Option<T>): Option<T> {
    match said
    case Some(_) => said
    case None => known
  }

  /** Cache reads: Anthropic's field before OpenAI's. */
  function CachedIn(usage: Json, known: Option<nat>): Option<nat> {
    match NumberAt(usage, "cache_read_input_tokens")
    case Some(n) => Some(n)
    case None => Latest(NumberWithin(usage, "prompt_tokens_details", "cached_tokens"), known)
  }

  lemma DetailsOf(d: Dialect, m: Meter, u: Json)
    ensures var n := CountUsage(d, m, u);
            && n.finishReason == m.finishReason
            && n.cachedTokens == CachedIn(u, m.cachedTokens)
            && n.thinkingTokens == Latest(NumberWithin(u, "completion_tokens_details", "reasoning_tokens"),
                                          m.thinkingTokens)
  {
  }

  lemma SplitOf(m: Meter, u: Json)
    ensures var n := CountUsage(OpenAi, m, u);
            && n.promptTokens == Latest(Either(u, "prompt_tokens", "input_tokens"), m.promptTokens)
            && n.completionTokens == Latest(Either(u, "completion_tokens", "output_tokens"), m.completionTokens)
  {
  }

  /** The splits a payload updates: cache reads, reasoning, and for OpenAI its prompt and completion. */
  lemma DetailsRead(d: Dialect, m: Meter, payload: Json)
    ensures var n := Observe(d, m, payload);
            match UsageIn(payload)
            case None => n == m.(finishReason := n.finishReason)
            case Some(u) =>
              && n.cachedTokens == CachedIn(u, m.cachedTokens)
              && n.thinkingTokens == Latest(NumberWithin(u, "completion_tokens_details", "reasoning_tokens"),
                                            m.thinkingTokens)
              && (d == OpenAi ==>
                    && n.promptTokens == Latest(Either(u, "prompt_tokens", "input_tokens"), m.promptTokens)
                    && n.completionTokens == Latest(Either(u, "completion_tokens", "output_tokens"),
                                                    m.completionTokens))
  {
    UsageFound(payload);
    var n := m.(finishReason := OrNull(ReadFinishReason(payload), m.finishReason));
    match UsageIn(payload)
    case None =>
    case Some(u) =>
      DetailsOf(d, n, u);
      SplitOf(n, u);
  }

  /** A nonempty text under `name`. */
  function TextAt(j: Json, name: string): Option<string> {
    match j
    case Obj(fields) =>
      if name in fields && fields[name].Text? && |fields[name].s| > 0 then Some(fields[name].s) else None
    case _ => None
  }

  function TextWithin(j: Json, container: string, name: string): Option<string> {
    match j
    case Obj(fields) => if container in fields then TextAt(fields[container], name) else None
    case _ => None
  }

  function FirstChoice(j: Json): Option<Json> {
    match j
    case Obj(fields) =>
      if "choices" in fields && fields["choices"].Arr? && |fields["choices"].items| > 0
      then Some(fields["choices"].items[0]) else None
    case _ => None
  }

  ghost predicate HasStatus(j: Json, status: string) {
    j.Obj? && "status" in j.fields && j.fields["status"] == Text(status)
  }

  /** The reason a payload gives: of its first choice, its delta, its message, or its status. */
  ghost function ReasonIn(p: Json): Option<string> {
    var choice := if FirstChoice(p).Some? then TextAt(FirstChoice(p).value, "finish_reason") else None;
    match (choice, TextWithin(p, "delta", "stop_reason"), TextWithin(p, "message", "stop_reason"))
    case (Some(r), _, _) => Some(r)
    case (None, Some(r), _) => Some(r)
    case (None, None, Some(r)) => Some(r)
    case (None, None, None) =>
      if HasStatus(p, "completed") then Some("completed")
      else if HasStatus(p, "incomplete") then
        match TextWithin(p, "incomplete_details", "reason")
        case Some(r) => Some("incomplete:" + r)
        case None => Some("incomplete")
      else None
  }

  lemma ReasonRead(p: Json)
    ensures ReadFinishReason(p) == ReasonIn(p)
  {
  }

  /** `r` is the reason the last payload that gives any gives. */
  ghost predicate LastGiven(r: Option<string>, payloads: seq<Json>) {
    if r.None? then forall p :: p in payloads ==> ReasonIn(p).None?
    else exists i :: 0 <= i < |payloads| && ReasonIn(payloads[i]) == r
                     && forall j :: i < j < |payloads| ==> ReasonIn(payloads[j]).None?
  }

  lemma GivenMore(r: Option<string>, payloads: seq<Json>, more: seq<Json>, p: Json)
    requires LastGiven(r, payloads) && more == payloads + [p]
    ensures LastGiven(Latest(ReasonIn(p), r), more)
  {
    assert more[|payloads|] == p;
    if ReasonIn(p).None? && r.Some? {
      var i :| 0 <= i < |payloads| && ReasonIn(payloads[i]) == r
               && forall j :: i < j < |payloads| ==> ReasonIn(payloads[j]).None?;
      assert more[i] == payloads[i];
      assert forall j :: i < j < |more| ==> ReasonIn(more[j]).None?;
    }
  }

  lemma ReasonKept(d: Dialect, m: Meter, p: Json)
    ensures Observe(d, m, p).finishReason == Latest(ReasonIn(p), m.finishReason)
  {
    ReasonRead(p);
  }

  lemma {:induction false} LastReason(d: Dialect, payloads: seq<Json>)
    ensures LastGiven(ObserveAll(d, FRESH, payloads).finishReason, payloads)
  {
    if payloads != [] {
      var prefix, p := payloads[..|payloads| - 1], payloads[|payloads| - 1];
      LastReason(d, prefix);
      ObserveLast(d, prefix, payloads, p);
      ReasonKept(d, ObserveAll(d, FRESH, prefix), p);
      GivenMore(ObserveAll(d, FRESH, prefix).finishReason, prefix, payloads, p);
    }
  }

  // ---- Lines ----

  ghost predicate Blank(s: string) { forall i :: 0 <= i < |s| ==> IsSpace(s[i]) }

  /** Nothing to trim at either end. */
  ghost predicate Tight(s: string) { s == "" || (!IsSpace(s[0]) && !IsSpace(s[|s| - 1])) }

  lemma {:induction false} TrimsStart(pre: string, s: string)
    requires Blank(pre) && (s == "" || !IsSpace(s[0]))
    ensures TrimStart(pre + s) == s
  {
    if pre == "" {
      assert pre + s == s;
    } else {
      assert (pre + s)[1..] == pre[1..] + s;
      TrimsStart(pre[1..], s);
    }
  }

  lemma {:induction false} TrimsEnd(s: string, post: string)
    requires Blank(post) && (s == "" || !IsSpace(s[|s| - 1]))
    ensures TrimEnd(s + post) == s
  {
    if post == "" {
      assert s + post == s;
    } else {
      assert (s + post)[..|s + post| - 1] == s + post[..|post| - 1];
      TrimsEnd(s, post[..|post| - 1]);
    }
  }

  lemma {:induction false} BlankTrims(pre: string)
    requires Blank(pre)
    ensures TrimStart(pre) == ""
  {
    assert pre + "" == pre;
    TrimsStart(pre, "");
  }

  /** What is trimmed is the blank around the rest. */
  lemma Trims(pre: string, s: string, post: string)
    requires Blank(pre) && Tight(s) && Blank(post)
    ensures Trim(pre + s + post) == s
  {
    if s == "" {
      assert pre + s + post == pre + post && Blank(pre + post);
      BlankTrims(pre + post);
    } else {
      assert pre + s + post == pre + (s + post);
      TrimsStart(pre, s + post);
      TrimsEnd(s, post);
    }
  }

  /** A data line carries what stands behind `data:`, blanks aside, unless that is the end mark or too long. */
  lemma DataLine(parse: Parser, pre: string, gap: string, data: string, post: string)
    requires Blank(pre) && Blank(gap) && Tight(data) && data != "" && Blank(post)
    ensures Payload(parse, pre + ("data:" + gap + data) + post)
            == if data == "[DONE]" || |data| > 32_768 then None else parse(data)
  {
    var line := "data:" + gap + data;
    Trims(pre, line, post);
    assert line[5..] == gap + data + "";
    Trims(gap, data, "");
    assert "data:" <= line;
  }

  /** A line that says nothing after `data:`, or does not begin with it, carries nothing. */
  lemma OtherLine(parse: Parser, pre: string, rest: string, post: string)
    requires Blank(pre) && Tight(rest) && Blank(post) && (rest == "data:" || !("data:" <= rest))
    ensures Payload(parse, pre + rest + post) == None
  {
    Trims(pre, rest, post);
  }
}
