// Splitting chat text into blocks (web/src/chat/markdown.tsx:256-358), over arbitrary line
// classifiers: which lines are fences, headings, rules and so on is a parameter.

module Markdown {
  import opened Base

  /** The regular expressions and string helpers the parser calls. */
  datatype Grammar = Grammar(
    fence: string -> Option<string>,
    fenceEnd: string -> bool,
    blank: string -> bool,
    heading: string -> Option<(nat, string)>,
    rule: string -> bool,
    quote: string -> bool,
    unquote: string -> string,
    bullet: string -> Option<string>,
    numbered: string -> Option<string>,
    separator: string -> bool,
    cells: string -> seq<string>,
    trim: string -> string)

  datatype Block =
    | Code(lang: string, body: seq<string>)
    | Heading(level: nat, text: string)
    | Rule
    | Quote(lines: seq<string>)
    | Listing(ordered: bool, items: seq<string>)
    | Table(header: seq<string>, rows: seq<seq<string>>)
    | Paragraph(lines: seq<string>)

  /** Out-of-range lookups read as the empty line. */
  function LineAt(lines: seq<string>, i: nat): string { if i < |lines| then lines[i] else "" }

  predicate LooksLikeTable(g: Grammar, line: string, next: string) {
    '|' in line && '|' in next && g.separator(next)
  }

  predicate IsTable(g: Grammar, lines: seq<string>, i: nat) {
    LooksLikeTable(g, LineAt(lines, i), LineAt(lines, i + 1))
  }

  /** No other block can start on line `i`. */
  predicate Plain(g: Grammar, lines: seq<string>, i: nat) {
    var line := LineAt(lines, i);
    && !g.blank(line) && g.fence(line).None? && g.heading(line).None? && !g.rule(line)
    && g.bullet(line).None? && g.numbered(line).None? && !g.quote(line) && !IsTable(g, lines, i)
  }

  predicate IsRow(g: Grammar, line: string) { '|' in line && !g.blank(line) }

  predicate Marks(g: Grammar, ordered: bool, line: string) {
    if ordered then g.numbered(line).Some? else g.bullet(line).Some?
  }

  function Item(g: Grammar, ordered: bool, line: string): string {
    var item := if ordered then g.numbered(line) else g.bullet(line);
    if item.Some? then item.value else ""
  }

  function Each<T>(f: string -> T, lines: seq<string>): (r: seq<T>)
    ensures |r| == |lines|
  {
    if lines == [] then [] else Each(f, lines[..|lines| - 1]) + [f(lines[|lines| - 1])]
  }

  function Items(g: Grammar, ordered: bool, lines: seq<string>): seq<string> {
    if lines == [] then [] else Items(g, ordered, lines[..|lines| - 1]) + [Item(g, ordered, lines[|lines| - 1])]
  }

  // ---- What the blocks of a text are ----

  datatype Piece = Piece(until: nat, block: Option<Block>)

  /** `keeps` names the condition under which one more line joins a run. */
  datatype Run = FenceBody | QuoteRun | ListRun(ordered: bool) | RowRun | PlainRun

  predicate Joins(g: Grammar, lines: seq<string>, run: Run, i: nat) {
    var line := LineAt(lines, i);
    match run
    case FenceBody => !g.fenceEnd(line)
    case QuoteRun => g.quote(line)
    case ListRun(ordered) => Marks(g, ordered, line)
    case RowRun => IsRow(g, line)
    case PlainRun => Plain(g, lines, i)
  }

  /** From `i` to `j` every line joins the run, and `j` is the end of the text or a line that does not. */
  ghost predicate RunsTo(g: Grammar, lines: seq<string>, run: Run, i: nat, j: nat) {
    && i <= j <= |lines|
    && (forall k :: i <= k < j ==> Joins(g, lines, run, k))
    && (j < |lines| ==> !Joins(g, lines, run, j))
  }

  /**
   * The grammar: the piece that starts on line `i` is the first kind that fits, takes every line that
   * belongs to it, and says what it shows. Blank lines are pieces without a block.
   */
  ghost predicate Reads(g: Grammar, lines: seq<string>, i: nat, p: Piece)
    requires i < |lines|
  {
    var line := lines[i];
    var j := p.until;
    && i < j <= |lines|
    && if g.fence(line).Some? then
         // a closing fence, if there is one, is taken but not shown
         var e := if j < |lines| || (j > i + 1 && g.fenceEnd(lines[j - 1])) then j - 1 else j;
         i + 1 <= e && RunsTo(g, lines, FenceBody, i + 1, e)
           && p.block == Some(Code(g.fence(line).value, lines[i + 1..e]))
       else if g.blank(line) then j == i + 1 && p.block == None
       else if g.heading(line).Some? then
         j == i + 1 && p.block == Some(Heading(g.heading(line).value.0, g.heading(line).value.1))
       else if g.rule(line) then j == i + 1 && p.block == Some(Rule)
       else if g.quote(line) then
         RunsTo(g, lines, QuoteRun, i, j) && p.block == Some(Quote(Each(g.unquote, lines[i..j])))
       else if g.bullet(line).Some? || g.numbered(line).Some? then
         var ordered := g.numbered(line).Some?;
         RunsTo(g, lines, ListRun(ordered), i, j) && p.block == Some(Listing(ordered, Items(g, ordered, lines[i..j])))
       else if IsTable(g, lines, i) then
         i + 2 <= j && RunsTo(g, lines, RowRun, i + 2, j)
         && p.block == Some(Table(g.cells(line), Each(g.cells, lines[i + 2..j])))
       else RunsTo(g, lines, PlainRun, i, j) && p.block == Some(Paragraph(Each(g.trim, lines[i..j])))
  }

  function Shown(b: Option<Block>): seq<Block> { if b.Some? then [b.value] else [] }

  /** The pieces tile the lines from `i` to the end, in order, and show exactly `blocks`. */
  ghost predicate Tiles(g: Grammar, lines: seq<string>, i: nat, pieces: seq<Piece>, blocks: seq<Block>)
    decreases |pieces|
  {
    if pieces == [] then i == |lines| && blocks == []
    else
      && i < |lines| && Reads(g, lines, i, pieces[0])
      && Shown(pieces[0].block) <= blocks
      && Tiles(g, lines, pieces[0].until, pieces[1..], blocks[|Shown(pieces[0].block)|..])
  }

  lemma RunEndUnique(g: Grammar, lines: seq<string>, run: Run, i: nat, j: nat, k: nat)
    requires RunsTo(g, lines, run, i, j) && RunsTo(g, lines, run, i, k)
    ensures j == k
  {
  }

  /** Where a fenced block stops showing lines. */
  function BodyEnd(g: Grammar, lines: seq<string>, i: nat, j: nat): nat
    requires i < j <= |lines|
  {
    if j < |lines| || (j > i + 1 && g.fenceEnd(lines[j - 1])) then j - 1 else j
  }

  lemma FenceUnique(g: Grammar, lines: seq<string>, i: nat, j: nat, k: nat)
    requires i < j <= |lines| && i < k <= |lines|
    requires i + 1 <= BodyEnd(g, lines, i, j) && RunsTo(g, lines, FenceBody, i + 1, BodyEnd(g, lines, i, j))
    requires i + 1 <= BodyEnd(g, lines, i, k) && RunsTo(g, lines, FenceBody, i + 1, BodyEnd(g, lines, i, k))
    ensures j == k
  {
    RunEndUnique(g, lines, FenceBody, i + 1, BodyEnd(g, lines, i, j), BodyEnd(g, lines, i, k));
  }

  /** At most one piece can start on a line. */
  lemma PieceUnique(g: Grammar, lines: seq<string>, i: nat, p: Piece, q: Piece)
    requires i < |lines| && Reads(g, lines, i, p) && Reads(g, lines, i, q)
    ensures p == q
  {
    var line := lines[i];
    if g.fence(line).Some? {
      FenceUnique(g, lines, i, p.until, q.until);
    } else if g.blank(line) || g.heading(line).Some? || g.rule(line) {
    } else if g.quote(line) {
      RunEndUnique(g, lines, QuoteRun, i, p.until, q.until);
    } else if g.bullet(line).Some? || g.numbered(line).Some? {
      RunEndUnique(g, lines, ListRun(g.numbered(line).Some?), i, p.until, q.until);
    } else if IsTable(g, lines, i) {
      RunEndUnique(g, lines, RowRun, i + 2, p.until, q.until);
    } else {
      RunEndUnique(g, lines, PlainRun, i, p.until, q.until);
    }
  }

  // ---- What a piece shows, line by line ----

  lemma {:induction false} EachAt<T>(f: string -> T, lines: seq<string>, k: nat)
    requires k < |lines|
    ensures Each(f, lines)[k] == f(lines[k])
  {
    if k < |lines| - 1 {
      EachAt(f, lines[..|lines| - 1], k);
    }
  }

  lemma {:induction false} ItemsAt(g: Grammar, ordered: bool, lines: seq<string>, k: nat)
    requires k < |lines|
    requires forall n :: 0 <= n < |lines| ==> Marks(g, ordered, lines[n])
    ensures |Items(g, ordered, lines)| == |lines|
    ensures Some(Items(g, ordered, lines)[k]) == if ordered then g.numbered(lines[k]) else g.bullet(lines[k])
  {
    var prefix := lines[..|lines| - 1];
    if k < |lines| - 1 {
      ItemsAt(g, ordered, prefix, k);
    } else if prefix != [] {
      ItemsAt(g, ordered, prefix, 0);
    }
  }

  lemma TakenAt(lines: seq<string>, i: nat, j: nat, k: nat)
    requires i <= k < j <= |lines|
    ensures lines[i..j][k - i] == lines[k]
  {
  }

  /** An item of a list is what the classifier of its kind returns for its line; the list goes on while it does. */
  lemma ListShows(g: Grammar, lines: seq<string>, i: nat, p: Piece, ordered: bool, items: seq<string>)
    requires i < |lines| && Reads(g, lines, i, p) && p.block == Some(Listing(ordered, items))
    ensures |items| == p.until - i && p.until <= |lines|
    ensures forall k :: i <= k < p.until ==>
              Some(items[k - i]) == if ordered then g.numbered(lines[k]) else g.bullet(lines[k])
    ensures p.until < |lines| ==> (if ordered then g.numbered(lines[p.until]) else g.bullet(lines[p.until])).None?
  {
    var taken := lines[i..p.until];
    assert RunsTo(g, lines, ListRun(ordered), i, p.until);
    forall n | 0 <= n < |taken| ensures Marks(g, ordered, taken[n]) {
      assert Joins(g, lines, ListRun(ordered), i + n);
    }
    ItemsAt(g, ordered, taken, 0);
    forall k | i <= k < p.until
      ensures Some(items[k - i]) == if ordered then g.numbered(lines[k]) else g.bullet(lines[k])
    {
      ItemsAt(g, ordered, taken, k - i);
      TakenAt(lines, i, p.until, k);
    }
    assert p.until < |lines| ==> !Joins(g, lines, ListRun(ordered), p.until);
  }

  /** A table: two header lines with bars, a separator, then every line that has a bar and is not blank. */
  lemma TableShows(g: Grammar, lines: seq<string>, i: nat, p: Piece, header: seq<string>, rows: seq<seq<string>>)
    requires i < |lines| && Reads(g, lines, i, p) && p.block == Some(Table(header, rows))
    ensures i + 2 <= p.until <= |lines| && |rows| == p.until - i - 2
    ensures '|' in lines[i] && '|' in lines[i + 1] && g.separator(lines[i + 1]) && header == g.cells(lines[i])
    ensures forall k :: i + 2 <= k < p.until ==>
              '|' in lines[k] && !g.blank(lines[k]) && rows[k - (i + 2)] == g.cells(lines[k])
    ensures p.until < |lines| ==> '|' !in lines[p.until] || g.blank(lines[p.until])
  {
    var body := lines[i + 2..p.until];
    assert RunsTo(g, lines, RowRun, i + 2, p.until) && rows == Each(g.cells, body);
    forall k | i + 2 <= k < p.until
      ensures '|' in lines[k] && !g.blank(lines[k]) && rows[k - (i + 2)] == g.cells(lines[k])
    {
      assert Joins(g, lines, RowRun, k);
      EachAt(g.cells, body, k - (i + 2));
    }
    assert p.until < |lines| ==> !Joins(g, lines, RowRun, p.until);
  }

  /** A quote: every line marked as one, without its mark. */
  lemma QuoteShows(g: Grammar, lines: seq<string>, i: nat, p: Piece, quoted: seq<string>)
    requires i < |lines| && Reads(g, lines, i, p) && p.block == Some(Quote(quoted))
    ensures p.until <= |lines| && |quoted| == p.until - i
    ensures forall k :: i <= k < p.until ==> g.quote(lines[k]) && quoted[k - i] == g.unquote(lines[k])
    ensures p.until < |lines| ==> !g.quote(lines[p.until])
  {
    assert RunsTo(g, lines, QuoteRun, i, p.until) && quoted == Each(g.unquote, lines[i..p.until]);
    forall k | i <= k < p.until ensures g.quote(lines[k]) && quoted[k - i] == g.unquote(lines[k]) {
      assert Joins(g, lines, QuoteRun, k);
      EachAt(g.unquote, lines[i..p.until], k - i);
    }
    assert p.until < |lines| ==> !Joins(g, lines, QuoteRun, p.until);
  }

  /** Line `k` begins nothing but a paragraph. */
  ghost predicate StartsNothing(g: Grammar, lines: seq<string>, k: nat)
    requires k < |lines|
  {
    var line := lines[k];
    && !g.blank(line) && g.fence(line) == None && g.heading(line) == None && !g.rule(line)
    && g.bullet(line) == None && g.numbered(line) == None && !g.quote(line)
    && !(k + 1 < |lines| && '|' in line && '|' in lines[k + 1] && g.separator(lines[k + 1]))
  }

  lemma PlainStartsNothing(g: Grammar, lines: seq<string>, k: nat)
    requires k < |lines|
    ensures Joins(g, lines, PlainRun, k) <==> StartsNothing(g, lines, k)
  {
  }

  /** A paragraph: trimmed lines of which none begins another block, up to one that does. */
  lemma ParagraphShows(g: Grammar, lines: seq<string>, i: nat, p: Piece, shown: seq<string>)
    requires i < |lines| && Reads(g, lines, i, p) && p.block == Some(Paragraph(shown))
    ensures p.until <= |lines| && |shown| == p.until - i
    ensures forall k :: i <= k < p.until ==> StartsNothing(g, lines, k) && shown[k - i] == g.trim(lines[k])
    ensures p.until < |lines| ==> !StartsNothing(g, lines, p.until)
  {
    assert RunsTo(g, lines, PlainRun, i, p.until) && shown == Each(g.trim, lines[i..p.until]);
    forall k | i <= k < p.until ensures StartsNothing(g, lines, k) && shown[k - i] == g.trim(lines[k]) {
      PlainStartsNothing(g, lines, k);
      EachAt(g.trim, lines[i..p.until], k - i);
    }
    if p.until < |lines| {
      PlainStartsNothing(g, lines, p.until);
    }
  }

  /** A fenced block: the lines as they are, up to a closing fence, which is taken too, or to the end of the text. */
  lemma CodeShows(g: Grammar, lines: seq<string>, i: nat, p: Piece, lang: string, body: seq<string>)
    requires i < |lines| && Reads(g, lines, i, p) && p.block == Some(Code(lang, body))
    ensures g.fence(lines[i]) == Some(lang)
    ensures var e := i + 1 + |body|;
            && e <= |lines| && body == lines[i + 1..e]
            && (forall k :: i + 1 <= k < e ==> !g.fenceEnd(lines[k]))
            && (if e < |lines| then g.fenceEnd(lines[e]) && p.until == e + 1 else p.until == e)
  {
    var e := i + 1 + |body|;
    assert RunsTo(g, lines, FenceBody, i + 1, e);
    forall k | i + 1 <= k < e ensures !g.fenceEnd(lines[k]) {
      assert Joins(g, lines, FenceBody, k);
    }
    assert e < |lines| ==> !Joins(g, lines, FenceBody, e);
  }

  /** The blocks of one line, and which kinds come first. */
  lemma LineShows(g: Grammar, lines: seq<string>, i: nat, p: Piece)
    requires i < |lines| && Reads(g, lines, i, p)
    ensures p.block.None? <==> g.fence(lines[i]) == None && g.blank(lines[i])
    ensures p.block.Some? && p.block.value.Heading? ==>
              g.heading(lines[i]) == Some((p.block.value.level, p.block.value.text)) && p.until == i + 1
    ensures p.block == Some(Rule) ==> g.rule(lines[i]) && g.heading(lines[i]) == None && p.until == i + 1
    ensures p.block.None? ==> p.until == i + 1
    ensures p.block.Some? && p.block.value.Quote? ==> !g.rule(lines[i]) && g.heading(lines[i]) == None
    ensures p.block.Some? && p.block.value.Listing? ==>
              && !g.quote(lines[i]) && !g.rule(lines[i]) && g.heading(lines[i]) == None
              && (p.block.value.ordered <==> g.numbered(lines[i]) != None)
    ensures p.block.Some? && p.block.value.Table? ==>
              && g.bullet(lines[i]) == None && g.numbered(lines[i]) == None
              && !g.quote(lines[i]) && !g.rule(lines[i]) && g.heading(lines[i]) == None
    ensures p.block.Some? && !p.block.value.Code? ==> g.fence(lines[i]) == None
  {
  }

  lemma SameSplit<T>(s: seq<T>, t: seq<T>, front: seq<T>)
    requires front <= s && front <= t && s[|front|..] == t[|front|..]
    ensures s == t
  {
    assert s == front + s[|front|..] && t == front + t[|front|..];
  }

  /** The grammar leaves no choice: a text has at most one reading. */
  lemma {:induction false} ReadingUnique(g: Grammar, lines: seq<string>, i: nat, ps: seq<Piece>, bs: seq<Block>,
                                         qs: seq<Piece>, cs: seq<Block>)
    requires Tiles(g, lines, i, ps, bs) && Tiles(g, lines, i, qs, cs)
    ensures ps == qs && bs == cs
    decreases |ps|
  {
    if ps != [] && qs != [] {
      PieceUnique(g, lines, i, ps[0], qs[0]);
      var n := |Shown(ps[0].block)|;
      ReadingUnique(g, lines, ps[0].until, ps[1..], bs[n..], qs[1..], cs[n..]);
      SameSplit(bs, cs, Shown(ps[0].block));
      SameSplit(ps, qs, [ps[0]]);
    }
  }

  // ---- The parser ----

  /** The first line from `i` on that does not join the run. */
  method TakeRun(g: Grammar, lines: seq<string>, run: Run, start: nat) returns (i: nat)
    requires start <= |lines|
    ensures RunsTo(g, lines, run, start, i)
  {
    i := start;
    while i < |lines|
      invariant start <= i <= |lines|
      invariant forall k :: start <= k < i ==> Joins(g, lines, run, k)
    {
      if !Joins(g, lines, run, i) {
        break;
      }
      i := i + 1;
    }
  }

  /** One turn of the outer loop: the piece that starts on line `i`. */
  method TakePiece(g: Grammar, lines: seq<string>, i: nat) returns (p: Piece)
    requires i < |lines|
    ensures Reads(g, lines, i, p)
  {
    var line := lines[i];
    var lang := g.fence(line);
    if lang.Some? {
      var e := TakeRun(g, lines, FenceBody, i + 1);
      // closing fence, or the end of the text for an unclosed block
      return Piece(if e < |lines| then e + 1 else e, Some(Code(lang.value, lines[i + 1..e])));
    }
    if g.blank(line) {
      return Piece(i + 1, None);
    }
    var heading := g.heading(line);
    if heading.Some? {
      return Piece(i + 1, Some(Heading(heading.value.0, heading.value.1)));
    }
    if g.rule(line) {
      return Piece(i + 1, Some(Rule));
    }
    if g.quote(line) {
      var j := TakeRun(g, lines, QuoteRun, i);
      return Piece(j, Some(Quote(Each(g.unquote, lines[i..j]))));
    }
    if g.bullet(line).Some? || g.numbered(line).Some? {
      var ordered := g.numbered(line).Some?;
      var j := TakeRun(g, lines, ListRun(ordered), i);
      return Piece(j, Some(Listing(ordered, Items(g, ordered, lines[i..j]))));
    }
    if LooksLikeTable(g, line, LineAt(lines, i + 1)) {
      var j := TakeRun(g, lines, RowRun, i + 2);
      return Piece(j, Some(Table(g.cells(line), Each(g.cells, lines[i + 2..j]))));
    }
    var j := TakeRun(g, lines, PlainRun, i);
    return Piece(j, Some(Paragraph(Each(g.trim, lines[i..j]))));
  }

  lemma Snoc<T>(s: seq<T>, x: seq<T>, n: nat)
    requires n <= |s|
    ensures (s + x)[n..] == s[n..] + x
  {
  }

  lemma OneTile(g: Grammar, lines: seq<string>, i: nat, p: Piece)
    requires i < |lines| && Reads(g, lines, i, p)
    ensures TilesTo(g, lines, i, [p], Shown(p.block), p.until)
  {
    var shown := Shown(p.block);
    assert [p][1..] == [] && shown[|shown|..] == [];
    assert TilesTo(g, lines, p.until, [], [], p.until);
  }

  lemma {:induction false} TilesMore(g: Grammar, lines: seq<string>, i: nat, pieces: seq<Piece>, blocks: seq<Block>,
                                     p: Piece, rest: nat)
    requires TilesTo(g, lines, i, pieces, blocks, rest) && rest < |lines| && Reads(g, lines, rest, p)
    ensures TilesTo(g, lines, i, pieces + [p], blocks + Shown(p.block), p.until)
    decreases |pieces|
  {
    if pieces == [] {
      OneTile(g, lines, i, p);
      assert pieces + [p] == [p] && blocks + Shown(p.block) == Shown(p.block);
    } else {
      var n := |Shown(pieces[0].block)|;
      TilesMore(g, lines, pieces[0].until, pieces[1..], blocks[n..], p, rest);
      Snoc(pieces, [p], 1);
      Snoc(blocks, Shown(p.block), n);
      TileFirst(g, lines, i, pieces[0], pieces + [p], blocks + Shown(p.block), p.until);
    }
  }

  lemma TileFirst(g: Grammar, lines: seq<string>, i: nat, first: Piece, pieces: seq<Piece>, blocks: seq<Block>,
                  rest: nat)
    requires i < |lines| && Reads(g, lines, i, first) && pieces != [] && pieces[0] == first
             && Shown(first.block) <= blocks
    requires TilesTo(g, lines, first.until, pieces[1..], blocks[|Shown(first.block)|..], rest)
    ensures TilesTo(g, lines, i, pieces, blocks, rest)
  {
  }

  /** Like `Tiles`, but only up to line `rest`. */
  ghost predicate TilesTo(g: Grammar, lines: seq<string>, i: nat, pieces: seq<Piece>, blocks: seq<Block>, rest: nat)
    decreases |pieces|
  {
    if pieces == [] then i == rest && blocks == []
    else
      && i < |lines| && Reads(g, lines, i, pieces[0])
      && Shown(pieces[0].block) <= blocks
      && TilesTo(g, lines, pieces[0].until, pieces[1..], blocks[|Shown(pieces[0].block)|..], rest)
  }

  lemma {:induction false} TilesAll(g: Grammar, lines: seq<string>, i: nat, pieces: seq<Piece>, blocks: seq<Block>)
    requires TilesTo(g, lines, i, pieces, blocks, |lines|)
    ensures Tiles(g, lines, i, pieces, blocks)
    decreases |pieces|
  {
    if pieces != [] {
      TilesAll(g, lines, pieces[0].until, pieces[1..], blocks[|Shown(pieces[0].block)|..]);
    }
  }

  /**
   * The parser terminates on every text and every choice of classifiers, and its blocks are those of
   * the one reading that tiles all lines in order.
   */
  method ParseBlocks(g: Grammar, lines: seq<string>) returns (blocks: seq<Block>)
    ensures exists pieces :: Tiles(g, lines, 0, pieces, blocks)
  {
    blocks := [];
    ghost var pieces := [];
    var i := 0;
    while i < |lines|
      invariant 0 <= i <= |lines|
      invariant TilesTo(g, lines, 0, pieces, blocks, i)
    {
      var p := TakePiece(g, lines, i);
      TilesMore(g, lines, 0, pieces, blocks, p, i);
      assert blocks + [] == blocks;
      if p.block.Some? {
        blocks := blocks + [p.block.value];
      }
      pieces := pieces + [p];
      i := p.until;
    }
    TilesAll(g, lines, 0, pieces, blocks);
  }
}
