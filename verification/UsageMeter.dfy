// The streaming usage meter (src/http/usage.ts). It reads single `data:` lines of an event stream
// (sections 9.2.5 and 9.2.6 of the WHATWG HTML standard), separated by line feeds and trimmed.

module UsageMeter {
  import opened Base

  datatype Dialect = OpenAi | Anthropic

  /** JSON as parsed; counts are whole numbers. */
  datatype Json =
    | Null | Bool(b: bool) | Number(n: int) | Text(s: string) | Arr(items: seq<Json>) | Obj(fields: map<string, Json>)

  type Parser = string -> Option<Json>

  const MAX_BUFFERED: nat := 65_536
  const MAX_EVENT: nat := 32_768

  datatype Meter = Meter(
    inputTokens: Option<nat>,
    outputTokens: Option<nat>,
    totalTokens: Option<nat>,
    promptTokens: Option<nat>,
    completionTokens: Option<nat>,
    cachedTokens: Option<nat>,
    thinkingTokens: Option<nat>,
    finishReason: Option<string>,
    buffer: string)

  const FRESH := Meter(None, None, None, None, None, None, None, None, "")

  // ---- Reading a payload ----

  function Field(j: Json, name: string): Json {
    if j.Obj? && name in j.fields then j.fields[name] else Null
  }

  function Object(j: Json): Option<Json> { if j.Obj? || j.Arr? then Some(j) else None }

  function ReadCount(source: Json, field: string): Option<nat> {
    var v := Field(source, field);
    if v.Number? && v.n >= 0 then Some(v.n) else None
  }

  function ReadNestedCount(source: Json, container: string, field: string): Option<nat> {
    ReadCount(Field(source, container), field)
  }

  function OrNull<T>(a: Option<T>, b: Option<T>): Option<T> { if a.Some? then a else b }

  function UsageObject(payload: Json): Option<Json> {
    OrNull(Object(Field(payload, "usage")), Object(Field(Field(payload, "message"), "usage")))
  }

  function NonEmpty(j: Json): Option<string> { if j.Text? && j.s != "" then Some(j.s) else None }

  function FirstOf(j: Json): Json { if j.Arr? && j.items != [] then j.items[0] else Null }

  function ReadFinishReason(payload: Json): Option<string> {
    var choice := NonEmpty(Field(FirstOf(Field(payload, "choices")), "finish_reason"));
    var delta := NonEmpty(Field(Field(payload, "delta"), "stop_reason"));
    var message := NonEmpty(Field(Field(payload, "message"), "stop_reason"));
    var status := Field(payload, "status");
    var detail := NonEmpty(Field(Field(payload, "incomplete_details"), "reason"));
    if choice.Some? then choice
    else if delta.Some? then delta
    else if message.Some? then message
    else if status == Text("completed") then Some("completed")
    else if status == Text("incomplete") then
      Some(if detail.Some? then "incomplete:" + detail.value else "incomplete")
    else None
  }

  function MaxCount(a: Option<nat>, b: Option<nat>): Option<nat> {
    if b.None? then a else Some(Max(if a.Some? then a.value else 0, b.value))
  }

  /** Anthropic counts keep their maximum. */
  function ObserveAnthropic(m: Meter, usage: Json): Meter {
    m.(inputTokens := MaxCount(m.inputTokens, ReadCount(usage, "input_tokens")),
       outputTokens := MaxCount(m.outputTokens, ReadCount(usage, "output_tokens")))
  }

  function Prompt(usage: Json): Option<nat> {
    OrNull(ReadCount(usage, "prompt_tokens"), ReadCount(usage, "input_tokens"))
  }

  function Completion(usage: Json): Option<nat> {
    OrNull(ReadCount(usage, "completion_tokens"), ReadCount(usage, "output_tokens"))
  }

  function OrZero(a: Option<nat>): nat { if a.Some? then a.value else 0 }

  /** The total one usage object reports, if it carries any count. */
  function ReportedTotal(usage: Json): Option<nat> {
    var total := ReadCount(usage, "total_tokens");
    if total.Some? then total
    else if Prompt(usage).Some? || Completion(usage).Some? then Some(OrZero(Prompt(usage)) + OrZero(Completion(usage)))
    else None
  }

  /** OpenAI counts keep their latest value. */
  function ObserveOpenAi(m: Meter, usage: Json): Meter {
    m.(promptTokens := OrNull(Prompt(usage), m.promptTokens),
       completionTokens := OrNull(Completion(usage), m.completionTokens),
       totalTokens := OrNull(ReportedTotal(usage), m.totalTokens))
  }

  /** The counts of one usage object. */
  function CountUsage(d: Dialect, m: Meter, u: Json): Meter {
    var openai := ReadNestedCount(u, "prompt_tokens_details", "cached_tokens");
    var anthropic := ReadCount(u, "cache_read_input_tokens");
    var p := m.(cachedTokens := OrNull(anthropic, OrNull(openai, m.cachedTokens)),
                thinkingTokens := OrNull(ReadNestedCount(u, "completion_tokens_details", "reasoning_tokens"),
                                         m.thinkingTokens));
    if d == Anthropic then ObserveAnthropic(p, u) else ObserveOpenAi(p, u)
  }

  function Observe(d: Dialect, m: Meter, payload: Json): Meter {
    var n := m.(finishReason := OrNull(ReadFinishReason(payload), m.finishReason));
    var usage := UsageObject(payload);
    if usage.None? then n else CountUsage(d, n, usage.value)
  }

  function Units(d: Dialect, m: Meter): Option<nat> {
    if d == OpenAi then m.totalTokens
    else if m.inputTokens.None? && m.outputTokens.None? then None
    else Some(OrZero(m.inputTokens) + OrZero(m.outputTokens))
  }

  // ---- Reading a line ----

  predicate IsSpace(c: char) {
    c == ' ' || c == '\t' || c == '\n' || c == '\r' || c == '\U{B}' || c == '\U{C}' || c == '\U{A0}' || c == '\U{FEFF}'
    || c == '\U{1680}' || '\U{2000}' <= c <= '\U{200A}' || c == '\U{2028}' || c == '\U{2029}' || c == '\U{202F}'
    || c == '\U{205F}' || c == '\U{3000}'
  }

  function TrimStart(s: string): string {
    if s != "" && IsSpace(s[0]) then TrimStart(s[1..]) else s
  }

  function TrimEnd(s: string): string {
    if s != "" && IsSpace(s[|s| - 1]) then TrimEnd(s[..|s| - 1]) else s
  }

  function Trim(s: string): string { TrimEnd(TrimStart(s)) }

  /** The payload of one complete line, if it is a readable data line. */
  function Payload(parse: Parser, line: string): Option<Json> {
    var trimmed := Trim(line);
    if !("data:" <= trimmed) then None
    else
      var data := Trim(trimmed[5..]);
      if data == "" || data == "[DONE]" || |data| > MAX_EVENT then None else parse(data)
  }

  function ObserveLine(parse: Parser, d: Dialect, m: Meter, line: string): Meter {
    var p := Payload(parse, line);
    if p.Some? then Observe(d, m, p.value) else m
  }

  function ObserveLines(parse: Parser, d: Dialect, m: Meter, lines: seq<string>): Meter {
    if lines == [] then m
    else ObserveLine(parse, d, ObserveLines(parse, d, m, lines[..|lines| - 1]), lines[|lines| - 1])
  }

  // ---- Chunks ----

  ghost predicate OneLine(s: string) { '\n' !in s }

  /** lastIndexOf('\n'). */
  function LastBreak(s: string): (k: Option<nat>)
    ensures k.Some? ==> k.value < |s| && s[k.value] == '\n' && OneLine(s[k.value + 1..])
    ensures k.None? ==> OneLine(s)
  {
    if s == "" then None
    else
      var last := |s| - 1;
      if s[last] == '\n' then Some(last)
      else
        var k := LastBreak(s[..last]);
        assert s == s[..last] + [s[last]];
        assert k.Some? ==> s[k.value + 1..] == s[..last][k.value + 1..] + [s[last]];
        k
  }

  /** split('\n'). */
  function Lines(s: string): seq<string>
    decreases |s|
  {
    var k := LastBreak(s);
    if k.None? then [s] else Lines(s[..k.value]) + [s[k.value + 1..]]
  }

  /** slice(-MAX): what is kept of an unfinished line. */
  function Capped(s: string): (r: string)
    ensures |r| <= MAX_BUFFERED
    ensures |s| <= MAX_BUFFERED ==> r == s
    ensures OneLine(s) ==> OneLine(r)
  {
    if |s| > MAX_BUFFERED then s[|s| - MAX_BUFFERED..] else s
  }

  function ObserveChunk(parse: Parser, d: Dialect, m: Meter, chunk: string): Meter {
    var text := m.buffer + chunk;
    var k := LastBreak(text);
    if k.None? then m.(buffer := Capped(text))
    else ObserveLines(parse, d, m.(buffer := Capped(text[k.value + 1..])), Lines(text[..k.value]))
  }

  function ObserveChunks(parse: Parser, d: Dialect, m: Meter, chunks: seq<string>): Meter {
    if chunks == [] then m
    else ObserveChunk(parse, d, ObserveChunks(parse, d, m, chunks[..|chunks| - 1]), chunks[|chunks| - 1])
  }

  /** The meter's closures: counters and buffer updated in place. */
  class UsageMeterObject {
    const dialect: Dialect
    const parse: Parser
    var counters: Meter
    var buffer: string

    ghost function State(): Meter reads this { counters.(buffer := buffer) }

    constructor (dialect: Dialect, parse: Parser)
      ensures this.dialect == dialect && this.parse == parse && State() == FRESH
    {
      this.dialect := dialect;
      this.parse := parse;
      counters := FRESH;
      buffer := "";
    }

    method ObservePayload(payload: Json)
      modifies this`counters
      ensures State() == Observe(dialect, old(State()), payload)
    {
      var reason := ReadFinishReason(payload);
      if reason.Some? {
        counters := counters.(finishReason := reason);
      }
      var usage := UsageObject(payload);
      if usage.None? {
        return;
      }
      ObserveUsage(usage.value);
    }

    method ObserveUsage(u: Json)
      modifies this`counters
      ensures State() == CountUsage(dialect, old(State()), u)
    {
      var openai := ReadNestedCount(u, "prompt_tokens_details", "cached_tokens");
      var anthropic := ReadCount(u, "cache_read_input_tokens");
      if openai.Some? {
        counters := counters.(cachedTokens := openai);
      }
      if anthropic.Some? {
        counters := counters.(cachedTokens := anthropic);
      }
      var reasoning := ReadNestedCount(u, "completion_tokens_details", "reasoning_tokens");
      if reasoning.Some? {
        counters := counters.(thinkingTokens := reasoning);
      }
      counters := if dialect == Anthropic then ObserveAnthropic(counters, u) else ObserveOpenAi(counters, u);
    }

    method ObserveSseChunk(chunk: string)
      modifies this
      ensures State() == ObserveChunk(parse, dialect, old(State()), chunk)
    {
      buffer := buffer + chunk;
      var boundary := LastBreak(buffer);
      if boundary.None? {
        buffer := Capped(buffer);
        return;
      }
      var lines := Lines(buffer[..boundary.value]);
      buffer := Capped(buffer[boundary.value + 1..]);
      ghost var start := State();
      for i := 0 to |lines|
        invariant State() == ObserveLines(parse, dialect, start, lines[..i])
        invariant buffer == start.buffer
      {
        assert lines[..i + 1][..i] == lines[..i];
        var payload := Payload(parse, lines[i]);
        if payload.Some? {
          ObservePayload(payload.value);
        }
      }
      assert lines[..|lines|] == lines;
    }
  }

  // ---- The one-shot reading ----

  /** Character by character: a line feed reads the line collected so far. */
  function Feed(parse: Parser, d: Dialect, m: Meter, text: string): Meter {
    if text == "" then m
    else
      var before := Feed(parse, d, m, text[..|text| - 1]);
      var c := text[|text| - 1];
      if c == '\n' then ObserveLine(parse, d, before.(buffer := ""), before.buffer)
      else before.(buffer := before.buffer + [c])
  }

  lemma {:induction false} FeedConcat(parse: Parser, d: Dialect, m: Meter, s: string, t: string)
    ensures Feed(parse, d, m, s + t) == Feed(parse, d, Feed(parse, d, m, s), t)
  {
    if t == "" {
      assert s + t == s;
    } else {
      assert (s + t)[..|s + t| - 1] == s + t[..|t| - 1];
      FeedConcat(parse, d, m, s, t[..|t| - 1]);
    }
  }

  lemma {:induction false} FeedOneLine(parse: Parser, d: Dialect, m: Meter, s: string)
    requires OneLine(s)
    ensures Feed(parse, d, m, s) == m.(buffer := m.buffer + s)
  {
    if s != "" {
      assert s == s[..|s| - 1] + [s[|s| - 1]];
      FeedOneLine(parse, d, m, s[..|s| - 1]);
      assert m.buffer + s[..|s| - 1] + [s[|s| - 1]] == m.buffer + s;
    } else {
      assert m.buffer + s == m.buffer;
    }
  }

  lemma ObserveKeepsBuffer(d: Dialect, m: Meter, payload: Json, buffer: string)
    ensures Observe(d, m.(buffer := buffer), payload) == Observe(d, m, payload).(buffer := buffer)
  {
  }

  lemma {:induction false} LinesKeepBuffer(parse: Parser, d: Dialect, m: Meter, lines: seq<string>, buffer: string)
    ensures ObserveLines(parse, d, m.(buffer := buffer), lines) == ObserveLines(parse, d, m, lines).(buffer := buffer)
  {
    if lines != [] {
      var prefix, last := lines[..|lines| - 1], lines[|lines| - 1];
      LinesKeepBuffer(parse, d, m, prefix, buffer);
      var p := Payload(parse, last);
      if p.Some? {
        ObserveKeepsBuffer(d, ObserveLines(parse, d, m, prefix), p.value, buffer);
      }
    }
  }

  lemma FeedBreak(parse: Parser, d: Dialect, m: Meter, s: string)
    ensures var before := Feed(parse, d, m, s);
            Feed(parse, d, m, s + "\n") == ObserveLine(parse, d, before.(buffer := ""), before.buffer)
  {
    assert (s + "\n")[..|s|] == s;
  }

  lemma OneMoreLine(parse: Parser, d: Dialect, m: Meter, lines: seq<string>, more: seq<string>, line: string)
    requires more == lines + [line]
    ensures ObserveLines(parse, d, m, more) == ObserveLine(parse, d, ObserveLines(parse, d, m, lines), line)
  {
    assert more[..|lines|] == lines;
  }

  /** A text ending in a line feed feeds exactly its lines. */
  lemma {:induction false} FeedLines(parse: Parser, d: Dialect, m: Meter, s: string)
    requires m.buffer == ""
    ensures Feed(parse, d, m, s + "\n") == ObserveLines(parse, d, m, Lines(s))
    decreases |s|
  {
    var k := LastBreak(s);
    FeedBreak(parse, d, m, s);
    if k.None? {
      FeedOneLine(parse, d, m, s);
      assert "" + s == s;
      OneMoreLine(parse, d, m, [], Lines(s), s);
    } else {
      var head, tail := s[..k.value], s[k.value + 1..];
      assert s == (head + "\n") + tail;
      FeedLines(parse, d, m, head);
      FeedTail(parse, d, m, head, tail);
      OneMoreLine(parse, d, m, Lines(head), Lines(s), tail);
    }
  }

  /** An unfinished line after complete ones waits in the buffer. */
  lemma FeedTail(parse: Parser, d: Dialect, m: Meter, head: string, tail: string)
    requires m.buffer == "" && OneLine(tail) && Feed(parse, d, m, head + "\n") == ObserveLines(parse, d, m, Lines(head))
    ensures Feed(parse, d, m, (head + "\n") + tail) == ObserveLines(parse, d, m, Lines(head)).(buffer := tail)
    ensures ObserveLines(parse, d, m, Lines(head)).buffer == ""
  {
    LinesKeepBuffer(parse, d, m, Lines(head), "");
    assert m.(buffer := "") == m;
    FeedConcat(parse, d, m, head + "\n", tail);
    FeedOneLine(parse, d, Feed(parse, d, m, head + "\n"), tail);
    assert "" + tail == tail;
  }

  /** No stretch of `s` without a line feed is longer than the buffer. */
  ghost predicate ShortLines(s: string) {
    forall i, j :: 0 <= i <= j <= |s| && OneLine(s[i..j]) ==> j - i <= MAX_BUFFERED
  }

  /** The meter with an empty buffer has read everything before the unfinished line. */
  lemma FeedFromStart(parse: Parser, d: Dialect, m: Meter, chunk: string)
    requires OneLine(m.buffer)
    ensures Feed(parse, d, m, chunk) == Feed(parse, d, m.(buffer := ""), m.buffer + chunk)
  {
    var start := m.(buffer := "");
    FeedOneLine(parse, d, start, m.buffer);
    assert "" + m.buffer == m.buffer;
    FeedConcat(parse, d, start, m.buffer, chunk);
  }

  /** Feeding a text: its complete lines are read, what follows them is kept. */
  lemma FeedSplit(parse: Parser, d: Dialect, start: Meter, head: string, tail: string)
    requires start.buffer == "" && OneLine(tail)
    ensures Feed(parse, d, start, head + "\n" + tail) == ObserveLines(parse, d, start.(buffer := tail), Lines(head))
  {
    FeedConcat(parse, d, start, head + "\n", tail);
    FeedLines(parse, d, start, head);
    var after := Feed(parse, d, start, head + "\n");
    LinesKeepBuffer(parse, d, start, Lines(head), "");
    assert start.(buffer := "") == start;
    FeedOneLine(parse, d, after, tail);
    assert "" + tail == tail;
    LinesKeepBuffer(parse, d, start, Lines(head), tail);
  }

  lemma ShortSlice(s: string, i: nat, j: nat)
    requires ShortLines(s) && i <= j <= |s| && OneLine(s[i..j])
    ensures |s[i..j]| <= MAX_BUFFERED
  {
  }

  lemma ChunkWithoutBreak(parse: Parser, d: Dialect, m: Meter, chunk: string)
    requires OneLine(m.buffer) && ShortLines(m.buffer + chunk) && LastBreak(m.buffer + chunk).None?
    ensures ObserveChunk(parse, d, m, chunk) == Feed(parse, d, m.(buffer := ""), m.buffer + chunk)
  {
    var text := m.buffer + chunk;
    assert text[0..|text|] == text;
    ShortSlice(text, 0, |text|);
    FeedOneLine(parse, d, m.(buffer := ""), text);
    assert "" + text == text;
  }

  lemma ChunkWithBreak(parse: Parser, d: Dialect, m: Meter, chunk: string)
    requires OneLine(m.buffer) && ShortLines(m.buffer + chunk) && LastBreak(m.buffer + chunk).Some?
    ensures ObserveChunk(parse, d, m, chunk) == Feed(parse, d, m.(buffer := ""), m.buffer + chunk)
  {
    var text := m.buffer + chunk;
    var k := LastBreak(text).value;
    var head, tail := text[..k], text[k + 1..];
    assert text == head + "\n" + tail;
    ShortSlice(text, k + 1, |text|);
    FeedSplit(parse, d, m.(buffer := ""), head, tail);
  }

  /** While lines fit the buffer, one chunk is read exactly as its characters one by one. */
  lemma ChunkIsFeed(parse: Parser, d: Dialect, m: Meter, chunk: string)
    requires OneLine(m.buffer) && ShortLines(m.buffer + chunk)
    ensures ObserveChunk(parse, d, m, chunk) == Feed(parse, d, m, chunk)
  {
    FeedFromStart(parse, d, m, chunk);
    if LastBreak(m.buffer + chunk).None? {
      ChunkWithoutBreak(parse, d, m, chunk);
    } else {
      ChunkWithBreak(parse, d, m, chunk);
    }
  }

  function Joined(chunks: seq<string>): string {
    if chunks == [] then "" else Joined(chunks[..|chunks| - 1]) + chunks[|chunks| - 1]
  }

  /** Fed text leaves in the buffer what follows its last line feed. */
  lemma {:induction false} FeedBuffer(parse: Parser, d: Dialect, m: Meter, text: string)
    requires OneLine(m.buffer)
    ensures var b := Feed(parse, d, m, text).buffer;
            OneLine(b) && |b| <= |m.buffer + text| && b == (m.buffer + text)[|m.buffer + text| - |b|..]
  {
    if text != "" {
      var prefix, c := text[..|text| - 1], text[|text| - 1];
      FeedBuffer(parse, d, m, prefix);
      assert m.buffer + text == m.buffer + prefix + [c];
      if c == '\n' {
        var before := Feed(parse, d, m, prefix);
        var p := Payload(parse, before.buffer);
        if p.Some? {
          ObserveKeepsBuffer(d, before, p.value, "");
        }
      }
    } else {
      assert m.buffer + text == m.buffer;
    }
  }

  lemma SliceOfSlice(s: string, i: nat, j: nat, a: nat, b: nat)
    requires i <= j <= |s| && a <= b <= j - i
    ensures s[i..j][a..b] == s[i + a..i + b]
  {
    var t, u := s[i..j][a..b], s[i + a..i + b];
    forall k | 0 <= k < |t| ensures t[k] == u[k] {
      assert t[k] == s[i..j][a + k];
    }
  }

  lemma ShortPart(s: string, i: nat, j: nat)
    requires ShortLines(s) && i <= j <= |s|
    ensures ShortLines(s[i..j])
  {
    forall a: int, b: int | 0 <= a <= b <= |s[i..j]| && OneLine(s[i..j][a..b]) ensures b - a <= MAX_BUFFERED {
      SliceOfSlice(s, i, j, a, b);
    }
  }

  /** What is left of a text with short lines, followed by more of it, has short lines. */
  lemma ShortEnd(sofar: string, left: string, last: string)
    requires ShortLines(sofar + last) && |left| <= |sofar| && left == sofar[|sofar| - |left|..]
    ensures ShortLines(left + last)
  {
    var text, cut := sofar + last, |sofar| - |left|;
    assert text[cut..|text|] == left + last;
    ShortPart(text, cut, |text|);
  }

  /** Reading one more chunk after `sofar`. */
  lemma NextChunk(parse: Parser, d: Dialect, sofar: string, last: string)
    requires ShortLines(sofar + last)
    ensures ObserveChunk(parse, d, Feed(parse, d, FRESH, sofar), last) == Feed(parse, d, FRESH, sofar + last)
  {
    var m := Feed(parse, d, FRESH, sofar);
    FeedBuffer(parse, d, FRESH, sofar);
    assert FRESH.buffer + sofar == sofar;
    ShortEnd(sofar, m.buffer, last);
    ChunkIsFeed(parse, d, m, last);
    FeedConcat(parse, d, FRESH, sofar, last);
  }

  lemma {:induction false} ChunksAreFeed(parse: Parser, d: Dialect, chunks: seq<string>)
    requires ShortLines(Joined(chunks))
    ensures ObserveChunks(parse, d, FRESH, chunks) == Feed(parse, d, FRESH, Joined(chunks))
  {
    if chunks != [] {
      var prefix, last := chunks[..|chunks| - 1], chunks[|chunks| - 1];
      var sofar, text := Joined(prefix), Joined(chunks);
      assert text[0..|sofar|] == sofar;
      ShortPart(text, 0, |sofar|);
      ChunksAreFeed(parse, d, prefix);
      NextChunk(parse, d, sofar, last);
    }
  }

  /** If no line outgrows the buffer, every way of cutting the stream reads the same as the whole. */
  lemma ChunkingInvariance(parse: Parser, d: Dialect, chunks: seq<string>)
    requires ShortLines(Joined(chunks))
    ensures ObserveChunks(parse, d, FRESH, chunks) == ObserveChunk(parse, d, FRESH, Joined(chunks))
  {
    ChunksAreFeed(parse, d, chunks);
    assert FRESH.buffer + Joined(chunks) == Joined(chunks);
    ChunkIsFeed(parse, d, FRESH, Joined(chunks));
  }

  /** Whatever arrives, the retained text is one unfinished line of bounded length. */
  lemma BufferBounded(parse: Parser, d: Dialect, m: Meter, chunk: string)
    ensures var b := ObserveChunk(parse, d, m, chunk).buffer; OneLine(b) && |b| <= MAX_BUFFERED
  {
    var text := m.buffer + chunk;
    var k := LastBreak(text);
    if k.Some? {
      LinesKeepBuffer(parse, d, m, Lines(text[..k.value]), Capped(text[k.value + 1..]));
    }
  }

  // ---- What the counters mean ----

  function ObserveAll(d: Dialect, m: Meter, payloads: seq<Json>): Meter {
    if payloads == [] then m else Observe(d, ObserveAll(d, m, payloads[..|payloads| - 1]), payloads[|payloads| - 1])
  }

  /** The count `read` finds in a payload's usage object. */
  function CountIn(payload: Json, read: Json -> Option<nat>): Option<nat> {
    var u := UsageObject(payload);
    if u.Some? then read(u.value) else None
  }

  /** `v` is the largest count any of the payloads carries; `None` when none carries one. */
  ghost predicate IsLargest(v: Option<nat>, payloads: seq<Json>, read: Json -> Option<nat>) {
    if v.None? then forall p :: p in payloads ==> CountIn(p, read).None?
    else
      && (exists p :: p in payloads && CountIn(p, read) == v)
      && (forall p :: p in payloads && CountIn(p, read).Some? ==> CountIn(p, read).value <= v.value)
  }

  /** `v` is the count of the last payload that carries one. */
  ghost predicate IsLast(v: Option<nat>, payloads: seq<Json>, read: Json -> Option<nat>) {
    if v.None? then forall p :: p in payloads ==> CountIn(p, read).None?
    else exists i :: 0 <= i < |payloads| && CountIn(payloads[i], read) == v
                     && forall j :: i < j < |payloads| ==> CountIn(payloads[j], read).None?
  }

  function ReadInput(usage: Json): Option<nat> { ReadCount(usage, "input_tokens") }

  function ReadOutput(usage: Json): Option<nat> { ReadCount(usage, "output_tokens") }

  lemma LargestMore(v: Option<nat>, payloads: seq<Json>, p: Json, read: Json -> Option<nat>)
    requires IsLargest(v, payloads, read)
    ensures IsLargest(MaxCount(v, CountIn(p, read)), payloads + [p], read)
  {
    var w := MaxCount(v, CountIn(p, read));
    var all := payloads + [p];
    assert p in all && forall q :: q in all <==> q in payloads || q == p;
    if w.Some? && CountIn(p, read) != w {
      var q :| q in payloads && CountIn(q, read) == v;
      assert q in all;
    }
  }

  lemma LastMore(v: Option<nat>, payloads: seq<Json>, p: Json, read: Json -> Option<nat>)
    requires IsLast(v, payloads, read)
    ensures IsLast(OrNull(CountIn(p, read), v), payloads + [p], read)
  {
    var all := payloads + [p];
    assert all[|payloads|] == p;
    if CountIn(p, read).None? && v.Some? {
      var i :| 0 <= i < |payloads| && CountIn(payloads[i], read) == v
               && forall j :: i < j < |payloads| ==> CountIn(payloads[j], read).None?;
      assert all[i] == payloads[i];
      assert forall j :: i < j < |all| ==> CountIn(all[j], read).None?;
    }
  }

  /** Anthropic: both counts are the largest reported; OpenAI: the total is the last one reported. */
  lemma {:induction false} CountersMean(d: Dialect, payloads: seq<Json>)
    ensures var m := ObserveAll(d, FRESH, payloads);
            && (d == Anthropic ==> && IsLargest(m.inputTokens, payloads, ReadInput)
                                   && IsLargest(m.outputTokens, payloads, ReadOutput))
            && (d == OpenAi ==> IsLast(m.totalTokens, payloads, ReportedTotal))
  {
    if payloads != [] {
      var prefix, p := payloads[..|payloads| - 1], payloads[|payloads| - 1];
      assert payloads == prefix + [p];
      CountersMean(d, prefix);
      var m := ObserveAll(d, FRESH, prefix);
      if d == Anthropic {
        LargestMore(m.inputTokens, prefix, p, ReadInput);
        LargestMore(m.outputTokens, prefix, p, ReadOutput);
      } else {
        LastMore(m.totalTokens, prefix, p, ReportedTotal);
      }
    }
  }

  lemma LargestAtMost(v: Option<nat>, w: Option<nat>, ps: seq<Json>, qs: seq<Json>, read: Json -> Option<nat>)
    requires IsLargest(v, ps, read) && IsLargest(w, qs, read) && forall p :: p in ps ==> p in qs
    ensures v.Some? ==> w.Some? && v.value <= w.value
  {
    if v.Some? {
      var p :| p in ps && CountIn(p, read) == v;
      assert p in qs;
    }
  }

  lemma SameLargest(v: Option<nat>, w: Option<nat>, ps: seq<Json>, qs: seq<Json>, read: Json -> Option<nat>)
    requires IsLargest(v, ps, read) && IsLargest(w, qs, read) && forall p :: p in ps <==> p in qs
    ensures v == w
  {
    LargestAtMost(v, w, ps, qs, read);
    LargestAtMost(w, v, qs, ps, read);
  }

  lemma SameUnits(m: Meter, n: Meter, ps: seq<Json>, qs: seq<Json>)
    requires IsLargest(m.inputTokens, ps, ReadInput) && IsLargest(m.outputTokens, ps, ReadOutput)
    requires IsLargest(n.inputTokens, qs, ReadInput) && IsLargest(n.outputTokens, qs, ReadOutput)
    requires forall p :: p in ps <==> p in qs
    ensures Units(Anthropic, m) == Units(Anthropic, n)
  {
    SameLargest(m.inputTokens, n.inputTokens, ps, qs, ReadInput);
    SameLargest(m.outputTokens, n.outputTokens, ps, qs, ReadOutput);
  }

  /** Anthropic units do not depend on the order in which the events arrive, or on repeats. */
  lemma AnthropicOrderFree(ps: seq<Json>, qs: seq<Json>)
    requires forall p :: p in ps <==> p in qs
    ensures Units(Anthropic, ObserveAll(Anthropic, FRESH, ps)) == Units(Anthropic, ObserveAll(Anthropic, FRESH, qs))
  {
    CountersMean(Anthropic, ps);
    CountersMean(Anthropic, qs);
    SameUnits(ObserveAll(Anthropic, FRESH, ps), ObserveAll(Anthropic, FRESH, qs), ps, qs);
  }

  function Payloads(parse: Parser, lines: seq<string>): seq<Json> {
    if lines == [] then []
    else
      var p := Payload(parse, lines[|lines| - 1]);
      Payloads(parse, lines[..|lines| - 1]) + (if p.Some? then [p.value] else [])
  }

  /** The meter of a stream is the meter of the payloads on its complete lines. */
  lemma {:induction false} LinesArePayloads(parse: Parser, d: Dialect, m: Meter, lines: seq<string>)
    ensures ObserveLines(parse, d, m, lines) == ObserveAll(d, m, Payloads(parse, lines))
  {
    if lines != [] {
      var prefix, p := lines[..|lines| - 1], Payload(parse, lines[|lines| - 1]);
      LinesArePayloads(parse, d, m, prefix);
      if p.Some? {
        var ps := Payloads(parse, prefix);
        assert (ps + [p.value])[..|ps|] == ps;
      } else {
        assert Payloads(parse, lines) == Payloads(parse, prefix);
      }
    }
  }

  /** However a stream of whole lines is cut, its units are those of the payloads it carries. */
  lemma StreamUnits(parse: Parser, d: Dialect, chunks: seq<string>, text: string)
    requires Joined(chunks) == text + "\n" && ShortLines(Joined(chunks))
    ensures Units(d, ObserveChunks(parse, d, FRESH, chunks))
            == Units(d, ObserveAll(d, FRESH, Payloads(parse, Lines(text))))
  {
    ChunksAreFeed(parse, d, chunks);
    FeedLines(parse, d, FRESH, text);
    LinesArePayloads(parse, d, FRESH, Lines(text));
  }

  // ---- A line longer than the buffer ----

  function Spaces(n: nat): string {
    if n == 0 then "" else Spaces(n - 1) + " "
  }

  lemma {:induction false} SpacesAre(n: nat)
    ensures |Spaces(n)| == n && forall i :: 0 <= i < n ==> Spaces(n)[i] == ' '
  {
    if n > 0 {
      SpacesAre(n - 1);
    }
  }

  lemma {:induction false} TrimPadding(s: string, n: nat)
    requires |s| == n + 1 && s[n] == '1' && forall i :: 0 <= i < n ==> s[i] == ' '
    ensures Trim(s) == "1"
    decreases n
  {
    if n > 0 {
      TrimPadding(s[1..], n - 1);
    } else {
      assert s == "1";
    }
  }

  /** A padded data line: read whole it is a payload, but once the buffer has dropped its start it is not. */
  lemma PaddedLine(parse: Parser, n: nat)
    ensures Payload(parse, "data:" + Spaces(n) + "1") == parse("1")
    ensures Payload(parse, Spaces(n) + "1") == None
  {
    SpacesAre(n);
    var padded := Spaces(n) + "1";
    var line := "data:" + padded;
    assert "data:" + Spaces(n) + "1" == line;
    assert line[0] == 'd' && line[|line| - 1] == '1';
    assert TrimStart(line) == line && TrimEnd(line) == line;
    assert line[5..] == padded;
    TrimPadding(padded, n);
  }

  lemma OneLineOnly(line: string)
    requires OneLine(line)
    ensures LastBreak(line) == None && Lines(line) == [line]
    ensures LastBreak(line + "\n") == Some(|line|)
  {
  }

  lemma WholeLine(parse: Parser, d: Dialect, m: Meter, chunk: string, line: string)
    requires m.buffer + chunk == line + "\n" && OneLine(line)
    ensures ObserveChunk(parse, d, m, chunk) == ObserveLine(parse, d, m.(buffer := ""), line)
  {
    var text := line + "\n";
    OneLineOnly(line);
    assert text[..|line|] == line && text[|line| + 1..] == "";
    assert [line][..0] == [];
    assert ObserveLines(parse, d, m.(buffer := ""), []) == m.(buffer := "");
  }

  lemma OneChunk(parse: Parser, d: Dialect, m: Meter, a: string, b: string)
    ensures ObserveChunks(parse, d, m, [a]) == ObserveChunk(parse, d, m, a)
    ensures ObserveChunks(parse, d, m, [a, b]) == ObserveChunk(parse, d, ObserveChunk(parse, d, m, a), b)
  {
    assert [a][..0] == [] && [a, b][..1] == [a];
    assert ObserveChunks(parse, d, m, []) == m;
  }

  /** An unfinished line one character over the bound loses its start. */
  lemma StartDropped(parse: Parser, d: Dialect, start: string, kept: string)
    requires |kept| == MAX_BUFFERED && OneLine(start + kept)
    ensures ObserveChunk(parse, d, FRESH, start + kept).buffer == kept
    ensures ObserveChunk(parse, d, FRESH, start + kept).totalTokens == None
  {
    var line := start + kept;
    OneLineOnly(line);
    assert FRESH.buffer + line == line;
    assert line[|line| - MAX_BUFFERED..] == kept;
  }

  function TotalOf(tokens: nat): Json { Obj(map["usage" := Obj(map["total_tokens" := Number(tokens)])]) }

  lemma TotalReads(m: Meter, tokens: nat)
    ensures Units(OpenAi, Observe(OpenAi, m, TotalOf(tokens))) == Some(tokens)
  {
    var p := TotalOf(tokens);
    assert Field(p, "usage") == Obj(map["total_tokens" := Number(tokens)]);
    assert UsageObject(p) == Some(Obj(map["total_tokens" := Number(tokens)]));
    assert ReadCount(UsageObject(p).value, "total_tokens") == Some(tokens);
  }

  lemma CountedWhole(parse: Parser, line: string, tokens: nat)
    requires OneLine(line) && Payload(parse, line) == Some(TotalOf(tokens))
    ensures Units(OpenAi, ObserveChunks(parse, OpenAi, FRESH, [line + "\n"])) == Some(tokens)
  {
    OneChunk(parse, OpenAi, FRESH, line + "\n", "");
    assert FRESH.buffer + (line + "\n") == line + "\n";
    WholeLine(parse, OpenAi, FRESH, line + "\n", line);
    TotalReads(FRESH.(buffer := ""), tokens);
  }

  lemma LostInTwo(parse: Parser, start: string, kept: string, end: string)
    requires |kept| == MAX_BUFFERED && OneLine(start + kept) && OneLine(kept + end)
             && Payload(parse, kept + end) == None
    ensures Units(OpenAi, ObserveChunks(parse, OpenAi, FRESH, [start + kept, end + "\n"])) == None
  {
    OneChunk(parse, OpenAi, FRESH, start + kept, end + "\n");
    StartDropped(parse, OpenAi, start, kept);
    var cut := ObserveChunk(parse, OpenAi, FRESH, start + kept);
    assert cut.buffer + (end + "\n") == kept + end + "\n";
    WholeLine(parse, OpenAi, cut, end + "\n", kept + end);
  }

  /** Beyond the bound the cut matters: the same text counts in one chunk and is lost in two. */
  lemma LongLineCutMatters(parse: Parser)
    requires parse("1") == Some(TotalOf(7))
    ensures var (a, b) := ("data:" + Spaces(MAX_BUFFERED), "1\n");
            && Units(OpenAi, ObserveChunks(parse, OpenAi, FRESH, [a + b])) == Some(7)
            && Units(OpenAi, ObserveChunks(parse, OpenAi, FRESH, [a, b])) == None
  {
    var pad := Spaces(MAX_BUFFERED);
    SpacesAre(MAX_BUFFERED);
    PaddedLine(parse, MAX_BUFFERED);
    CountedWhole(parse, "data:" + pad + "1", 7);
    assert "data:" + pad + "1" + "\n" == "data:" + pad + "1\n";
    LostInTwo(parse, "data:", pad, "1");
    assert "1" + "\n" == "1\n";
  }
}
