/** The label of an item that begins behind letters of a block around it comes out before them:
    the item ends first, and with it its label is written, while the letters wait for the end of
    the block. */
module RendererLate {
  import opened Seqs
  import G = Glyphs
  import opened Glyphs
  import opened RendererModel
  import opened RendererLedger
  import opened RendererNesting
  import opened RendererTrack
  import opened RendererHeld
  import opened RendererStreams

  /** The blocks with a buffer of their own. */
  datatype Block = AQuote | AHeading | ACode

  function BufferText(b: Block, st: State): Line {
    match b
    case AQuote => st.quoteBuf
    case AHeading => st.headingBuf
    case ACode => st.codeBuf
  }

  predicate IsOf(b: Block, tag: Tag) {
    match b
    case AQuote => tag.BlockQuote?
    case AHeading => tag.Heading?
    case ACode => tag.CodeBlock?
  }

  // ---- The letters stay in their buffer ----

  lemma BufferStays(k: Line -> Line, labels: bool, style: Style, st: State, event: Event, b: Block, x: G.Glyph)
    requires Reading(k, labels) && !IsTableEvent(event) && !st.table.inTable
    requires x in k(BufferText(b, st)) && !Spills(View(k, st), event)
    requires event.End? ==> forall tag :: IsOf(b, tag) ==> event.end != EndOf(tag)
    ensures x in k(BufferText(b, Step(style, st, event)))
  {
    match event {
      case Start(tag) => StartKeepsBuffer(k, st, tag, b);
      case End(end) => EndKeepsBuffer(style, st, end, b);
      case _ => LeafKeepsBuffer(k, labels, style, st, event, b, x);
    }
  }

  lemma StartKeepsBuffer(k: Line -> Line, st: State, tag: Tag, b: Block)
    requires k(BufferText(b, st)) != [] && !Spills(View(k, st), Start(tag))
    ensures BufferText(b, StepStart(st, tag)) == BufferText(b, st) && !IsOf(b, tag)
  {
    FlushKeeps(st);
  }

  lemma EndKeepsBuffer(style: Style, st: State, end: TagEnd, b: Block)
    requires !IsTableEvent(End(end)) && forall tag :: IsOf(b, tag) ==> end != EndOf(tag)
    ensures BufferText(b, StepEnd(style, st, end)) == BufferText(b, st)
  {
    assert IsOf(AQuote, BlockQuote) && IsOf(AHeading, Heading(1)) && IsOf(ACode, CodeBlock(Indented));
    assert EndOf(BlockQuote) == BlockQuoteEnd && EndOf(Heading(1)) == HeadingEnd && EndOf(CodeBlock(Indented)) == CodeBlockEnd;
  }

  lemma TextGrows(st: State, text: seq<Letter>, b: Block)
    ensures BufferText(b, st) <= BufferText(b, StepText(st, text))
    ensures BufferText(b, st) <= BufferText(b, StepCode(st, text))
  {
  }

  lemma BreakGrows(st: State, b: Block)
    ensures BufferText(b, st) <= BufferText(b, StepSoftBreak(st))
    ensures BufferText(b, st) <= BufferText(b, StepHardBreak(st))
  {
  }

  lemma BufferGrows(style: Style, st: State, event: Event, b: Block)
    requires !event.Start? && !event.End?
    ensures BufferText(b, st) <= BufferText(b, Step(style, st, event))
  {
    match event {
      case Text(text) => TextGrows(st, text, b);
      case Code(text) => TextGrows(st, text, b);
      case SoftBreak => BreakGrows(st, b);
      case HardBreak => BreakGrows(st, b);
      case _ =>
    }
  }

  lemma LeafKeepsBuffer(k: Line -> Line, labels: bool, style: Style, st: State, event: Event, b: Block, x: G.Glyph)
    requires Reading(k, labels) && !event.Start? && !event.End? && !st.table.inTable
    requires x in k(BufferText(b, st))
    ensures x in k(BufferText(b, Step(style, st, event)))
  {
    BufferGrows(style, st, event, b);
    ReadsPrefix(k, BufferText(b, st), BufferText(b, Step(style, st, event)));
  }

  // ---- The label stays due ----

  /** The label is out, or waits in its item. */
  ghost predicate Due(k: Line -> Line, st: State, i: nat, prefix: Line, l: G.Glyph) {
    l in k(st.output) || (i < |st.items| && !st.items[i].emitted && st.items[i].prefix == prefix)
  }

  lemma OutStaysOut(k: Line -> Line, before: Line, after: Line, l: G.Glyph)
    requires ReadsThrough(k) && before <= after && l in k(before)
    ensures l in k(after)
  {
    ReadsPrefix(k, before, after);
  }

  lemma ItemIsWritten(k: Line -> Line, labels: bool, before: Line, item: Frame, l: G.Glyph)
    requires Reading(k, labels) && !item.emitted && l in k(item.prefix)
    ensures l in k(before + ItemLines(item))
  {
    assert k(before + ItemLines(item)) == k(before) + (k(item.prefix) + k(item.content));
  }

  lemma FlushFrames(st: State, i: nat)
    requires i < |st.items|
    ensures var next := FlushItem(st);
            && i < |next.items| && next.items[i].prefix == st.items[i].prefix
            && (next.items[i].emitted ==> st.items[i].emitted || next.output == st.output + ItemLines(st.items[i]))
  {
  }

  lemma EndFrames(st: State, i: nat)
    requires i < |st.items| && !st.items[i].emitted
    ensures var next := EndItem(st);
            if |st.items| == i + 1 then next.output == st.output + ItemLines(st.items[i])
            else i < |next.items| && next.items[i] == st.items[i]
  {
  }

  lemma FlushAndEndAppend(st: State)
    ensures st.output <= FlushItem(st).output && st.output <= EndItem(st).output
  {
  }

  lemma DueAfterFlush(k: Line -> Line, labels: bool, st: State, i: nat, prefix: Line, l: G.Glyph)
    requires Reading(k, labels) && Due(k, st, i, prefix, l) && l in k(prefix)
    ensures Due(k, FlushItem(st), i, prefix, l)
  {
    FlushAndEndAppend(st);
    if l in k(st.output) {
      OutStaysOut(k, st.output, FlushItem(st).output, l);
    } else {
      FlushFrames(st, i);
      ItemIsWritten(k, labels, st.output, st.items[i], l);
    }
  }

  lemma DueAfterEnd(k: Line -> Line, labels: bool, st: State, i: nat, prefix: Line, l: G.Glyph)
    requires Reading(k, labels) && Due(k, st, i, prefix, l) && l in k(prefix)
    ensures |st.items| == i + 1 ==> l in k(EndItem(st).output)
    ensures |st.items| > i + 1 ==> Due(k, EndItem(st), i, prefix, l)
  {
    FlushAndEndAppend(st);
    if l in k(st.output) {
      OutStaysOut(k, st.output, EndItem(st).output, l);
    } else {
      EndFrames(st, i);
      ItemIsWritten(k, labels, st.output, st.items[i], l);
    }
  }

  lemma DueStays(k: Line -> Line, labels: bool, style: Style, st: State, event: Event, i: nat, prefix: Line, l: G.Glyph)
    requires Reading(k, labels) && !IsTableEvent(event) && !st.table.inTable && event != End(ItemEnd)
    requires Due(k, st, i, prefix, l) && l in k(prefix)
    ensures Due(k, Step(style, st, event), i, prefix, l)
  {
    StepAppends(style, st, event);
    if l in k(st.output) {
      OutStaysOut(k, st.output, Step(style, st, event).output, l);
    } else {
      match event {
        case Start(tag) => StartStaysDue(k, labels, st, tag, i, prefix, l);
        case End(end) => assert StepEnd(style, st, end).items == st.items;
        case _ => LeafStaysDue(style, st, event, i);
      }
    }
  }

  lemma StartStaysDue(k: Line -> Line, labels: bool, st: State, tag: Tag, i: nat, prefix: Line, l: G.Glyph)
    requires Reading(k, labels) && !IsTableEvent(Start(tag)) && Due(k, st, i, prefix, l) && l in k(prefix) && l !in k(st.output)
    ensures Due(k, StepStart(st, tag), i, prefix, l)
  {
    match tag {
      case List(start) =>
        DueAfterFlush(k, labels, st, i, prefix, l);
        var out := FlushItem(st).output;
        assert k(out + NEWLINE) == k(out) + [];
      case Item(id) => assert StartItem(st, id).items[i] == st.items[i];
      case _ =>
    }
  }

  lemma LeafStaysDue(style: Style, st: State, event: Event, i: nat)
    requires !event.Start? && !event.End? && !st.table.inTable && i < |st.items|
    ensures var next := Step(style, st, event);
            i < |next.items| && next.items[i].emitted == st.items[i].emitted && next.items[i].prefix == st.items[i].prefix
  {
  }

  // ---- The item ends before the block around it ----

  lemma {:induction false} ItemsGrow(below: seq<Level>, stack: seq<Level>)
    requires below <= stack
    ensures DepthsOf(below).items <= DepthsOf(stack).items
    decreases |stack|
  {
    if |below| < |stack| {
      ItemsGrow(below, stack[..|stack| - 1]);
      DeeperItems(DepthsOf(stack[..|stack| - 1]), stack[|stack| - 1]);
    } else {
      assert below == stack;
    }
  }

  /** The letters are in the buffer of a block below the item, and no other block of its kind
      is open in the item. */
  ghost predicate Late(k: Line -> Line, st: State, stack: seq<Level>, below: seq<Level>, b: Block, x: G.Glyph) {
    && below != [] && below <= stack && below[|below| - 1].tag.Item?
    && x in k(BufferText(b, st))
    && forall j :: |below| <= j < |stack| ==> !IsOf(b, stack[j].tag)
  }

  /** The event is the end of the item itself. */
  predicate EndsIt(stack: seq<Level>, below: seq<Level>, p: Piece) {
    p == Plain(End(ItemEnd)) && |stack| == |below|
  }

  lemma LateBuffer(
    k: Line -> Line, labels: bool, style: Style, st: State, stack: seq<Level>, p: Piece, below: seq<Level>, b: Block, x: G.Glyph)
    requires ReadsAll(k, labels, style) && Between(k, labels, st, stack) && Fitting(stack, p)
    requires Late(k, st, stack, below, b, x) && !Loses(style, labels, View(k, st), p)
    ensures x in k(BufferText(b, Pass(style, st, p)))
  {
    match p {
      case Plain(event) =>
        NextHasNoTables(stack, event);
        if event.End? {
          assert !IsOf(b, stack[|stack| - 1].tag);
          forall tag | IsOf(b, tag) ensures event.end != EndOf(tag) {
          }
        }
        BufferStays(k, labels, style, st, event, b, x);
      case Grid(source) => GridPass(style, st, source);
    }
  }

  lemma LateStack(
    k: Line -> Line, labels: bool, style: Style, st: State, stack: seq<Level>, p: Piece, below: seq<Level>, b: Block, x: G.Glyph)
    requires Fitting(stack, p) && Late(k, st, stack, below, b, x) && !Loses(style, labels, View(k, st), p)
    requires !EndsIt(stack, below, p)
    ensures var open := NextOpen(stack, p);
            below <= open && forall j :: |below| <= j < |open| ==> !IsOf(b, open[j].tag)
  {
    match p {
      case Plain(Start(tag)) => StartKeepsBuffer(k, st, tag, b);
      case _ =>
    }
  }

  lemma LateStays(
    k: Line -> Line, labels: bool, style: Style, st: State, stack: seq<Level>, p: Piece, below: seq<Level>, b: Block, x: G.Glyph)
    requires ReadsAll(k, labels, style) && Between(k, labels, st, stack) && Fitting(stack, p)
    requires Late(k, st, stack, below, b, x) && !Loses(style, labels, View(k, st), p) && !EndsIt(stack, below, p)
    ensures Late(k, Pass(style, st, p), NextOpen(stack, p), below, b, x)
  {
    LateBuffer(k, labels, style, st, stack, p, below, b, x);
    LateStack(k, labels, style, st, stack, p, below, b, x);
  }

  lemma DuePasses(
    k: Line -> Line, labels: bool, style: Style, st: State, stack: seq<Level>, p: Piece, below: seq<Level>,
    i: nat, prefix: Line, l: G.Glyph)
    requires ReadsAll(k, labels, style) && Between(k, labels, st, stack) && Fitting(stack, p)
    requires below != [] && below <= stack && DepthsOf(below).items == i + 1
    requires Due(k, st, i, prefix, l) && l in k(prefix)
    ensures EndsIt(stack, below, p) ==> l in k(Pass(style, st, p).output)
    ensures !EndsIt(stack, below, p) ==> Due(k, Pass(style, st, p), i, prefix, l)
  {
    match p {
      case Grid(source) =>
        GridPass(style, st, source);
        if l in k(st.output) {
          OutStaysOut(k, st.output, Pass(style, st, p).output, l);
        }
      case Plain(event) =>
        NextHasNoTables(stack, event);
        if event == End(ItemEnd) {
          DueAfterEnd(k, labels, st, i, prefix, l);
          if |stack| == |below| {
            assert stack == below;
          } else {
            var rest := stack[..|stack| - 1];
            ItemsGrow(below, rest);
            DeeperItems(DepthsOf(rest), stack[|stack| - 1]);
          }
        } else {
          DueStays(k, labels, style, st, event, i, prefix, l);
        }
    }
  }

  // ---- Over the rest of the stream ----

  /** A glyph occurs once at most in what is out, waits, or is still to come. */
  ghost predicate Once(k: Line -> Line, st: State, stack: seq<Level>, ps: seq<Piece>, x: G.Glyph)
    requires NestedPieces(stack, ps)
  {
    Ledger(Counted(k, x), st) + Counted(k, x)(GivenAll(stack, ps)) <= 1
  }

  lemma OncePasses(k: Line -> Line, labels: bool, style: Style, st: State, stack: seq<Level>, ps: seq<Piece>, x: G.Glyph)
    requires ReadsAll(k, labels, style) && Between(k, labels, st, stack) && NestedPieces(stack, ps) && ps != []
    requires Once(k, st, stack, ps, x) && !Loses(style, labels, View(k, st), ps[0])
    ensures Once(k, Pass(style, st, ps[0]), NextOpen(stack, ps[0]), ps[1..], x)
  {
    var m := Counted(k, x);
    CountedCounts(k, labels, x);
    PassBalances(m, style, st, stack, ps[0]);
    LossIsSeen(k, labels, style, st, ps[0]);
    assert m(GivenAll(stack, ps)) == m(Given(ps[0], TopLabel(stack))) + m(GivenAll(NextOpen(stack, ps[0]), ps[1..]));
  }

  lemma NotYetOut(k: Line -> Line, st: State, b: Block, x: G.Glyph)
    requires x in k(BufferText(b, st)) && Ledger(Counted(k, x), st) <= 1
    ensures x !in k(st.output)
  {
    assert Counted(k, x)(BufferText(b, st)) >= 1;
  }

  /** In the end the label stands before the letters. */
  lemma {:induction false} LabelIsFirst(
    k: Line -> Line, labels: bool, style: Style, st: State, stack: seq<Level>, ps: seq<Piece>, below: seq<Level>,
    b: Block, x: G.Glyph, i: nat, prefix: Line, l: G.Glyph) returns (n: nat)
    requires ReadsAll(k, labels, style) && Between(k, labels, st, stack)
    requires NestedPieces(stack, ps) && AfterPieces(stack, ps) == [] && LosesNothing(style, labels, View(k, st), ps)
    requires Late(k, st, stack, below, b, x) && Once(k, st, stack, ps, x)
    requires Due(k, st, i, prefix, l) && l in k(prefix) && DepthsOf(below).items == i + 1
    ensures var final := k(PassAll(style, st, ps).output);
            n <= |final| && l in final[..n] && x !in final[..n]
    decreases |ps|
  {
    var p, next, open := ps[0], Pass(style, st, ps[0]), NextOpen(stack, ps[0]);
    PassStaysBetween(k, labels, style, st, stack, p);
    OncePasses(k, labels, style, st, stack, ps, x);
    DuePasses(k, labels, style, st, stack, p, below, i, prefix, l);
    if EndsIt(stack, below, p) {
      LateBuffer(k, labels, style, st, stack, p, below, b, x);
      NotYetOut(k, next, b, x);
      n := |k(next.output)|;
      PiecesAppend(k, labels, style, next, open, ps[1..]);
      ReadsPrefix(k, next.output, PassAll(style, st, ps).output);
    } else {
      LateStays(k, labels, style, st, stack, p, below, b, x);
      n := LabelIsFirst(k, labels, style, next, open, ps[1..], below, b, x, i, prefix, l);
    }
  }

  // ---- From where the item begins ----

  lemma {:induction false} FramesAreHeld(k: Line -> Line, items: seq<Frame>, x: G.Glyph)
    ensures FramesCount(Counted(k, x), items) == multiset(HeldText(k, items))[x]
  {
    if items != [] {
      FramesAreHeld(k, items[..|items| - 1], x);
    }
  }

  lemma LedgerIsOrder(k: Line -> Line, st: State, x: G.Glyph)
    ensures Ledger(Counted(k, x), st) == multiset(Order(k, st))[x]
  {
    FramesAreHeld(k, st.items, x);
  }

  lemma {:induction false} DistinctIsOnce(line: Line, x: G.Glyph)
    requires Distinct(line)
    ensures multiset(line)[x] <= 1
  {
    if line != [] {
      var front, last := line[..|line| - 1], line[|line| - 1];
      DistinctIsOnce(front, x);
      assert line == front + [last];
      assert last !in front;
    }
  }

  lemma OnceAtFirst(k: Line -> Line, st: State, stack: seq<Level>, ps: seq<Piece>, x: G.Glyph)
    requires NestedPieces(stack, ps) && Distinct(Order(k, st) + k(GivenAll(stack, ps)))
    ensures Once(k, st, stack, ps, x)
  {
    LedgerIsOrder(k, st, x);
    DistinctIsOnce(Order(k, st) + k(GivenAll(stack, ps)), x);
  }

  lemma TooEarly(all: Line, order: Line, final: Line, x: G.Glyph, l: G.Glyph, n: nat)
    requires Distinct(all) && order <= all && x in order && l in all[|order|..]
    requires n <= |final| && l in final[..n] && x !in final[..n]
    ensures final != all
  {
    var i :| 0 <= i < |order| && order[i] == x;
    var j :| 0 <= j < |all[|order|..]| && all[|order|..][j] == l;
    var m :| 0 <= m < n && final[..n][m] == l;
    assert all[i] == x && all[|order| + j] == l && i < |order| + j && final[m] == l;
    if i < n {
      assert final[..n][i] == final[i] && final[i] != x;
    } else {
      assert m < |all| ==> all[m] != l;
    }
  }

  /** A block whose letters wait, and one of them. */
  lemma WaitingBlock(k: Line -> Line, st: State) returns (b: Block, x: G.Glyph)
    requires BlocksWait(View(k, st))
    ensures x in k(BufferText(b, st)) && x in Order(k, st)
  {
    if k(st.quoteBuf) != [] {
      b, x := AQuote, k(st.quoteBuf)[0];
    } else if k(st.headingBuf) != [] {
      b, x := AHeading, k(st.headingBuf)[0];
    } else {
      b, x := ACode, k(st.codeBuf)[0];
    }
    assert x in k(BufferText(b, st));
  }

  lemma ItemBegins(k: Line -> Line, labels: bool, style: Style, st: State, stack: seq<Level>, id: int, b: Block, x: G.Glyph)
    requires ReadsAll(k, labels, style) && Between(k, labels, st, stack) && Allowed(stack, Start(Item(id)))
    requires labels && x in k(BufferText(b, st))
    ensures var next, below := Step(style, st, Start(Item(id))), Next(stack, Start(Item(id)));
            && |next.items| == |st.items| + 1 && DepthsOf(below).items == |next.items|
            && Late(k, next, below, below, b, x)
            && var prefix := next.items[|st.items|].prefix;
               k(prefix) == k([Mark(TopLabel(stack), id)]) != [] && Due(k, next, |st.items|, prefix, k(prefix)[0])
  {
    PassMirrors(style, st, stack, Plain(Start(Item(id))));
    assert [Mark(NextLabel(st), id)] == [Mark(TopLabel(stack), id)];
    assert k(ItemPrefix(st.listDepth, NextLabel(st), id).0) == k([Mark(NextLabel(st), id)]);
  }

  /** An item that begins behind letters of a block around it is seen out of order in the end. */
  lemma LateLabelIsSeen(
    k: Line -> Line, labels: bool, style: Style, st: State, stack: seq<Level>, ps: seq<Piece>)
    requires ReadsAll(k, labels, style) && Between(k, labels, st, stack)
    requires NestedPieces(stack, ps) && AfterPieces(stack, ps) == [] && LosesNothing(style, labels, View(k, st), ps)
    requires Distinct(Order(k, st) + k(GivenAll(stack, ps)))
    requires ps != [] && BeginsItem(ps[0]) && PieceOvertakes(View(k, st), ps[0], labels)
    ensures k(PassAll(style, st, ps).output) != Order(k, st) + k(GivenAll(stack, ps))
  {
    var id, next, open := ps[0].event.tag.id, Pass(style, st, ps[0]), NextOpen(stack, ps[0]);
    var b, x := WaitingBlock(k, st);
    PassStaysBetween(k, labels, style, st, stack, ps[0]);
    ItemBegins(k, labels, style, st, stack, id, b, x);
    OnceAtFirst(k, st, stack, ps, x);
    OncePasses(k, labels, style, st, stack, ps, x);
    var prefix := next.items[|st.items|].prefix;
    var l := k(prefix)[0];
    var n := LabelIsFirst(k, labels, style, next, open, ps[1..], open, b, x, |st.items|, prefix, l);
    JoinGiven(k, stack, ps, Order(k, st));
    var mark := k(Given(ps[0], TopLabel(stack)));
    assert mark == k(prefix) && l == mark[0];
    var all := Order(k, st) + k(GivenAll(stack, ps));
    assert all == (Order(k, st) + mark) + k(GivenAll(open, ps[1..]));
    assert all[|Order(k, st)|..][0] == l;
    TooEarly(all, Order(k, st), k(PassAll(style, st, ps).output), x, l, n);
  }

  // ---- The exact condition ----

  lemma {:induction false} InOrderMeansSmooth(
    k: Line -> Line, labels: bool, style: Style, st: State, stack: seq<Level>, ps: seq<Piece>)
    requires ReadsAll(k, labels, style) && Between(k, labels, st, stack)
    requires NestedPieces(stack, ps) && AfterPieces(stack, ps) == [] && LosesNothing(style, labels, View(k, st), ps)
    requires CodeOutsidePieces(View(k, st), ps) && Distinct(Order(k, st) + k(GivenAll(stack, ps)))
    requires k(PassAll(style, st, ps).output) == Order(k, st) + k(GivenAll(stack, ps))
    ensures OvertakesNothing(labels, View(k, st), ps)
    decreases |ps|
  {
    if ps != [] {
      if PieceOvertakes(View(k, st), ps[0], labels) {
        if BeginsItem(ps[0]) {
          LateLabelIsSeen(k, labels, style, st, stack, ps);
        } else {
          OvertakingIsSeen(k, labels, style, st, stack, ps);
        }
        assert false;
      }
      PassStaysBetween(k, labels, style, st, stack, ps[0]);
      PassKeepsOrder(k, labels, style, st, stack, ps[0]);
      JoinGiven(k, stack, ps, Order(k, st));
      InOrderMeansSmooth(k, labels, style, Pass(style, st, ps[0]), NextOpen(stack, ps[0]), ps[1..]);
    }
  }

  lemma ReadInOrder(k: Line -> Line, labels: bool, style: Style, ps: seq<Piece>)
    requires ReadsAll(k, labels, style) && NestedPieces([], ps) && AfterPieces([], ps) == []
    requires CodeOutsidePieces(NOTHING_OPEN, ps) && Distinct(k(GivenAll([], ps)))
    requires k(PassAll(style, REST, ps).output) == k(GivenAll([], ps))
    ensures LosesNothing(style, labels, NOTHING_OPEN, ps) && OvertakesNothing(labels, NOTHING_OPEN, ps)
  {
    var given := k(GivenAll([], ps));
    NothingIsOpen(k);
    OrderAtRest(k, labels, REST);
    assert k(REST.output) == [] && [] + given == given;
    ShownIffNothingLost(k, labels, style, ps);
    InOrderMeansSmooth(k, labels, style, REST, [], ps);
  }

  /** For every stream, well nested but for tables, which may stand anywhere, without inline code
      in code blocks and with all glyphs different: letters, and if asked for the labels of the
      items among them, come out in the order they came in if and only if nothing is lost and
      nothing is written while an earlier letter or label waits. */
  lemma InOrderIff(style: Style, ps: seq<Piece>, labels: bool)
    requires NestedPieces([], ps) && AfterPieces([], ps) == [] && CodeOutsidePieces(NOTHING_OPEN, ps)
    requires Distinct(Keep(GivenAll([], ps), labels))
    ensures Keep(Run(style, REST, Stream(ps)).output, labels) == Keep(GivenAll([], ps), labels)
            <==> LosesNothing(style, labels, NOTHING_OPEN, ps) && OvertakesNothing(labels, NOTHING_OPEN, ps)
  {
    KeepReadsAll(labels, style);
    PassAllIsRun(style, REST, ps);
    if LosesNothing(style, labels, NOTHING_OPEN, ps) && OvertakesNothing(labels, NOTHING_OPEN, ps) {
      SmoothIsInOrder(style, ps, labels);
    }
    if Keep(Run(style, REST, Stream(ps)).output, labels) == Keep(GivenAll([], ps), labels) {
      ReadInOrder(Keeping(labels), labels, style, ps);
    }
  }
}
