/** What waits in the renderer, in the order it came in, and which events write something past
    it.  Labels of list items are followed or not, as the reading asks. */
module RendererHeld {
  import opened Seqs
  import opened Glyphs
  import opened RendererModel
  import opened RendererLedger
  import opened RendererNesting
  import opened RendererTrack

  // ---- What puts a stream out of order ----

  /** An open item holds letters, or its label, if labels are followed and it is not out. */
  predicate Waits(h: Hold, labels: bool) {
    h.letters || (labels && !h.shown)
  }

  predicate AnyWaits(items: seq<Hold>, labels: bool) {
    exists i :: 0 <= i < |items| && Waits(items[i], labels)
  }

  /** The innermost item waits and so does one around it. */
  predicate TopOvertakes(items: seq<Hold>, labels: bool) {
    items != [] && Waits(items[|items| - 1], labels) && AnyWaits(items[..|items| - 1], labels)
  }

  predicate BlocksWait(t: Track) {
    t.quote.letters || t.heading.letters || t.code.letters
  }

  /** Something is written while earlier letters or labels still wait: a heading, code block or
      quote ends inside an item that waits, or a nested item inside one that could not be
      flushed; or an item begins behind letters of a block around it, which its label will
      overtake. */
  predicate Overtakes(t: Track, event: Event, labels: bool) {
    match event
    case Start(List(_)) => Flushes(t.items) && TopOvertakes(t.items, labels)
    case Start(Item(_)) => labels && BlocksWait(t)
    case End(ItemEnd) => TopOvertakes(t.items, labels)
    case End(BlockQuoteEnd) => t.quote.letters && AnyWaits(t.items, labels)
    case End(HeadingEnd) => t.heading.letters && (AnyWaits(t.items, labels) || t.quote.letters)
    case End(CodeBlockEnd) => t.code.letters && (AnyWaits(t.items, labels) || t.quote.letters || t.heading.letters)
    case _ => false
  }

  // ---- What is out, and what waits, in source order ----

  /** What an item still has to show. */
  function FrameText(k: Line -> Line, item: Frame): Line {
    (if item.emitted then [] else k(item.prefix)) + k(item.content)
  }

  function HeldText(k: Line -> Line, items: seq<Frame>): Line {
    if items == [] then [] else HeldText(k, items[..|items| - 1]) + FrameText(k, items[|items| - 1])
  }

  function Order(k: Line -> Line, st: State): Line {
    k(st.output) + HeldText(k, st.items) + k(st.quoteBuf) + k(st.headingBuf) + k(st.codeBuf)
  }

  /** Buffers of blocks that take no text are empty, and labels are seen or not as asked. */
  ghost predicate Closed(k: Line -> Line, labels: bool, st: State) {
    && (!st.inCodeBlock ==> st.codeBuf == [])
    && (!st.inHeading ==> st.headingBuf == [])
    && (!st.inBlockQuote ==> st.quoteBuf == [])
    && !st.table.inTable
    && LabelsRead(k, labels, st.items)
  }

  ghost predicate LabelsRead(k: Line -> Line, labels: bool, items: seq<Frame>) {
    forall i :: 0 <= i < |items| ==> (k(items[i].prefix) != [] <==> labels)
  }

  lemma HeldTop(k: Line -> Line, items: seq<Frame>, top: Frame)
    requires items != []
    ensures HeldText(k, items[|items| - 1 := top]) == HeldText(k, items[..|items| - 1]) + FrameText(k, top)
  {
    assert items[|items| - 1 := top][..|items| - 1] == items[..|items| - 1];
  }

  lemma AnyWaitsNext(holds: seq<Hold>, labels: bool)
    requires holds != []
    ensures AnyWaits(holds, labels)
            <==> AnyWaits(holds[..|holds| - 1], labels) || Waits(holds[|holds| - 1], labels)
  {
    var front := holds[..|holds| - 1];
    if AnyWaits(front, labels) {
      var i :| 0 <= i < |front| && Waits(front[i], labels);
      assert Waits(holds[i], labels);
    }
  }

  lemma {:induction false} HeldWaits(k: Line -> Line, labels: bool, items: seq<Frame>)
    requires LabelsRead(k, labels, items)
    ensures HeldText(k, items) != [] <==> AnyWaits(Holds(k, items), labels)
  {
    if items != [] {
      var front, holds := items[..|items| - 1], Holds(k, items);
      HeldWaits(k, labels, front);
      AnyWaitsNext(holds, labels);
      assert Holds(k, front) == holds[..|items| - 1];
      assert FrameText(k, items[|items| - 1]) != [] <==> Waits(HoldOf(k, items[|items| - 1]), labels);
    }
  }

  lemma BelowWaits(k: Line -> Line, labels: bool, items: seq<Frame>)
    requires items != [] && LabelsRead(k, labels, items)
    ensures TopOvertakes(Holds(k, items), labels)
            <==> FrameText(k, items[|items| - 1]) != [] && HeldText(k, items[..|items| - 1]) != []
  {
    HeldWaits(k, labels, items[..|items| - 1]);
    assert Holds(k, items)[..|items| - 1] == Holds(k, items[..|items| - 1]);
    assert Holds(k, items)[|items| - 1] == HoldOf(k, items[|items| - 1]);
  }

  // ---- Rearranging ----

  lemma IntoCode(o: Line, h: Line, q: Line, g: Line, c: Line, x: Line)
    ensures o + h + q + g + (c + x) == o + h + q + g + c + x
  {
  }

  lemma IntoHeading(o: Line, h: Line, q: Line, g: Line, x: Line)
    ensures o + h + q + (g + x) + [] == o + h + q + g + [] + x
  {
  }

  lemma IntoQuote(o: Line, h: Line, q: Line, x: Line)
    ensures o + h + (q + x) + [] + [] == o + h + q + [] + [] + x
  {
  }

  lemma IntoItems(o: Line, h: Line, x: Line)
    ensures o + (h + x) + [] + [] + [] == o + h + [] + [] + [] + x
  {
  }

  /** A piece goes out past what is held before it, if one of them is empty. */
  lemma Past(o: Line, before: Line, piece: Line)
    requires piece == [] || before == []
    ensures o + piece + before == o + before + piece
  {
    assert o + [] == o && o + piece + [] == o + piece && o + before + [] == o + before;
  }

  lemma ItemGoesOut(o: Line, below: Line, top: Line, q: Line, g: Line, c: Line)
    requires top == [] || below == []
    ensures o + top + below + q + g + c == o + (below + top) + q + g + c
  {
    Past(o, below, top);
    Associate(o, below, top);
  }

  lemma QuoteGoesOut(o: Line, h: Line, q: Line, g: Line, c: Line)
    requires q == [] || h == []
    ensures o + q + h + [] + g + c == o + h + q + g + c
  {
    Past(o, h, q);
    assert o + q + h + [] == o + q + h;
  }

  lemma HeadingGoesOut(o: Line, h: Line, q: Line, g: Line, c: Line)
    requires g == [] || (h == [] && q == [])
    ensures o + g + h + q + [] + c == o + h + q + g + c
  {
    Past(o, h + q, g);
    Associate(o + g, h, q);
    Associate(o, h, q);
    assert o + g + h + q + [] == o + g + h + q;
  }

  lemma CodeGoesOut(o: Line, h: Line, q: Line, g: Line, c: Line)
    requires c == [] || (h == [] && q == [] && g == [])
    ensures o + c + h + q + g + [] == o + h + q + g + c
  {
    Past(o, h + q + g, c);
    assert o + c + (h + q + g) == o + c + h + q + g && o + (h + q + g) == o + h + q + g;
    assert o + c + h + q + g + [] == o + c + h + q + g;
  }

  // ---- Steps that keep the order ----

  lemma TextKeepsOrder(k: Line -> Line, labels: bool, st: State, text: seq<Letter>)
    requires Reading(k, labels) && Closed(k, labels, st)
    ensures Order(k, StepText(st, text)) == Order(k, st) + k(Inked(text))
  {
    var o, h, q, g, c, x := k(st.output), HeldText(k, st.items), k(st.quoteBuf), k(st.headingBuf), k(st.codeBuf), k(Inked(text));
    if st.inCodeBlock {
      IntoCode(o, h, q, g, c, x);
      assert k(st.codeBuf + Inked(text)) == c + x;
    } else if st.inHeading {
      IntoHeading(o, h, q, g, x);
      assert k(st.headingBuf + Inked(text)) == g + x;
    } else if st.inBlockQuote {
      IntoQuote(o, h, q, x);
      assert k(st.quoteBuf + Inked(text)) == q + x;
    } else {
      OpenTextKeepsOrder(k, labels, st, InlineStyled(st, text));
    }
  }

  lemma HeldMore(k: Line -> Line, items: seq<Frame>, text: Line)
    requires ReadsThrough(k) && items != []
    ensures var top := items[|items| - 1];
            HeldText(k, items[|items| - 1 := top.(content := top.content + text)]) == HeldText(k, items) + k(text)
  {
    var top := items[|items| - 1];
    var next := top.(content := top.content + text);
    var shown := if top.emitted then [] else k(top.prefix);
    HeldTop(k, items, next);
    assert k(top.content + text) == k(top.content) + k(text);
    Associate(shown, k(top.content), k(text));
    Associate(HeldText(k, items[..|items| - 1]), FrameText(k, top), k(text));
  }

  /** Text that no block takes goes to the innermost item or to the output. */
  lemma OpenTextKeepsOrder(k: Line -> Line, labels: bool, st: State, shown: Line)
    requires Reading(k, labels) && Closed(k, labels, st) && !st.inCodeBlock && !st.inHeading && !st.inBlockQuote
    ensures st.items != [] ==> Order(k, AppendToItem(st, shown)) == Order(k, st) + k(shown)
    ensures st.items == [] ==> Order(k, st.(output := st.output + shown)) == Order(k, st) + k(shown)
  {
    if st.items != [] {
      HeldMore(k, st.items, shown);
      IntoItems(k(st.output), HeldText(k, st.items), k(shown));
    } else {
      assert k(st.output + shown) == k(st.output) + k(shown);
    }
  }

  lemma CodeKeepsOrder(k: Line -> Line, labels: bool, st: State, text: seq<Letter>)
    requires Reading(k, labels) && Closed(k, labels, st) && !st.inCodeBlock
    ensures Order(k, StepCode(st, text)) == Order(k, st) + k(Inked(text))
  {
    var o, h, q, g, x := k(st.output), HeldText(k, st.items), k(st.quoteBuf), k(st.headingBuf), k(Inked(text));
    if st.inHeading {
      IntoHeading(o, h, q, g, x);
      assert k(st.headingBuf + Inked(text)) == g + x;
    } else if st.inBlockQuote {
      IntoQuote(o, h, q, x);
      assert k(st.quoteBuf + InlineCode(text)) == q + x;
    } else {
      OpenTextKeepsOrder(k, labels, st, Styled(CodeFace, InlineCode(text)));
    }
  }

  lemma NothingAppended(k: Line -> Line, st: State, text: Line)
    requires ReadsThrough(k) && k(text) == []
    ensures Order(k, AppendToItem(st, text)) == Order(k, st)
    ensures Order(k, st.(output := st.output + text)) == Order(k, st)
    ensures Order(k, st.(codeBuf := st.codeBuf + text)) == Order(k, st)
    ensures Order(k, st.(headingBuf := st.headingBuf + text)) == Order(k, st)
    ensures Order(k, st.(quoteBuf := st.quoteBuf + text)) == Order(k, st)
  {
    forall a: Line ensures k(a + text) == k(a) {
      assert k(a + text) == k(a) + k(text);
    }
    if st.items != [] {
      HeldMore(k, st.items, text);
    }
  }

  lemma BreakKeepsOrder(k: Line -> Line, style: Style, st: State, event: Event)
    requires ReadsThrough(k) && !st.table.inTable
    requires event.SoftBreak? || event.HardBreak? || event.Rule? || event.OtherEvent?
    ensures Order(k, Step(style, st, event)) == Order(k, st)
  {
    NothingAppended(k, st, NEWLINE);
    NothingAppended(k, st, BLANK);
    NothingAppended(k, st, RuleLine(style.width));
  }

  /** What the innermost item holds goes out past the items around it. */
  lemma TopGoesOut(k: Line -> Line, labels: bool, st: State, next: State, item: Frame)
    requires Reading(k, labels) && st.items != [] && item == st.items[|st.items| - 1]
    requires FrameText(k, item) == [] || HeldText(k, st.items[..|st.items| - 1]) == []
    requires next.output == st.output + ItemLines(item) && HeldText(k, next.items) == HeldText(k, st.items[..|st.items| - 1])
    requires next.quoteBuf == st.quoteBuf && next.headingBuf == st.headingBuf && next.codeBuf == st.codeBuf
    ensures Order(k, next) == Order(k, st)
  {
    assert k(st.output + ItemLines(item)) == k(st.output) + FrameText(k, item);
    ItemGoesOut(k(st.output), HeldText(k, st.items[..|st.items| - 1]), FrameText(k, item),
                k(st.quoteBuf), k(st.headingBuf), k(st.codeBuf));
  }

  lemma FlushKeepsOrder(k: Line -> Line, labels: bool, st: State)
    requires Reading(k, labels) && LabelsRead(k, labels, st.items)
    requires Flushes(View(k, st).items) ==> !TopOvertakes(View(k, st).items, labels)
    ensures Order(k, FlushItem(st)) == Order(k, st)
  {
    if Flushes(View(k, st).items) {
      var item, below := st.items[|st.items| - 1], HeldText(k, st.items[..|st.items| - 1]);
      BelowWaits(k, labels, st.items);
      HeldTop(k, st.items, item.(content := [], emitted := true));
      assert below + ([] + k([])) == below;
      TopGoesOut(k, labels, st, FlushItem(st), item);
    }
  }

  lemma EmptyTop(k: Line -> Line, items: seq<Frame>)
    requires items != [] && FrameText(k, items[|items| - 1]) == []
    ensures HeldText(k, items) == HeldText(k, items[..|items| - 1])
  {
    var below := HeldText(k, items[..|items| - 1]);
    assert below + [] == below;
  }

  lemma PopKeepsOrder(k: Line -> Line, labels: bool, st: State, item: Frame)
    requires Reading(k, labels) && st.items != [] && item == st.items[|st.items| - 1]
    requires FrameText(k, item) == [] || HeldText(k, st.items[..|st.items| - 1]) == []
    ensures Order(k, EndItem(st)) == Order(k, st)
  {
    if item.content != [] || !item.emitted {
      TopGoesOut(k, labels, st, EndItem(st), item);
    } else {
      EmptyTop(k, st.items);
    }
  }

  lemma EndItemKeepsOrder(k: Line -> Line, labels: bool, st: State)
    requires Reading(k, labels) && LabelsRead(k, labels, st.items) && !TopOvertakes(View(k, st).items, labels)
    ensures Order(k, EndItem(st)) == Order(k, st)
  {
    if st.items != [] {
      BelowWaits(k, labels, st.items);
      PopKeepsOrder(k, labels, st, st.items[|st.items| - 1]);
    }
  }

  lemma ListKeepsOrder(k: Line -> Line, labels: bool, st: State, start: Option<nat>)
    requires Reading(k, labels) && LabelsRead(k, labels, st.items)
    requires Flushes(View(k, st).items) ==> !TopOvertakes(View(k, st).items, labels)
    ensures Order(k, StartList(st, start)) == Order(k, st)
  {
    FlushKeepsOrder(k, labels, st);
    NothingAppended(k, FlushItem(st), NEWLINE);
  }

  lemma BlocksWaitMeans(k: Line -> Line, st: State)
    ensures BlocksWait(View(k, st)) <==> k(st.quoteBuf) + k(st.headingBuf) + k(st.codeBuf) != []
  {
  }

  /** A label goes behind all that waits, if no block around it does. */
  lemma ItemKeepsOrder(k: Line -> Line, labels: bool, st: State, id: int)
    requires Reading(k, labels) && !Overtakes(View(k, st), Start(Item(id)), labels)
    ensures Order(k, StartItem(st, id)) == Order(k, st) + k([Mark(NextLabel(st), id)])
  {
    var next, mark := StartItem(st, id), k([Mark(NextLabel(st), id)]);
    var o, h, q, g, c := k(st.output), HeldText(k, st.items), k(st.quoteBuf), k(st.headingBuf), k(st.codeBuf);
    assert next.items[..|st.items|] == st.items;
    assert k(next.items[|st.items|].prefix) == mark;
    assert mark + [] == mark;
    assert HeldText(k, next.items) == h + mark;
    if labels {
      BlocksWaitMeans(k, st);
      IntoItems(o, h, mark);
    } else {
      assert h + [] == h && o + h + q + g + c + [] == o + h + q + g + c;
    }
  }

  lemma StartKeepsOrder(k: Line -> Line, labels: bool, st: State, tag: Tag)
    requires Reading(k, labels) && LabelsRead(k, labels, st.items) && !IsTableEvent(Start(tag))
    requires !Spills(View(k, st), Start(tag)) && !Overtakes(View(k, st), Start(tag), labels)
    ensures Order(k, StepStart(st, tag)) == Order(k, st) + k(Brought(Start(tag), NextLabel(st)))
  {
    assert Order(k, st) + [] == Order(k, st);
    if tag.List? {
      ListKeepsOrder(k, labels, st, tag.start);
    } else if tag.Item? {
      ItemKeepsOrder(k, labels, st, tag.id);
    } else if tag.Paragraph? {
      NothingAppended(k, st, NEWLINE);
    }
  }

  lemma QuoteEndKeepsOrder(k: Line -> Line, style: Style, st: State)
    requires ReadsThrough(k) && ReadsBlocks(k) && (k(st.quoteBuf) == [] || HeldText(k, st.items) == [])
    ensures Order(k, StepEnd(style, st, BlockQuoteEnd)) == Order(k, st)
  {
    assert k(st.output + QuoteLines(st.quoteBuf)) == k(st.output) + k(st.quoteBuf);
    QuoteGoesOut(k(st.output), HeldText(k, st.items), k(st.quoteBuf), k(st.headingBuf), k(st.codeBuf));
  }

  lemma HeadingEndKeepsOrder(k: Line -> Line, style: Style, st: State)
    requires ReadsThrough(k) && ReadsBlocks(k)
    requires k(st.headingBuf) == [] || (HeldText(k, st.items) == [] && k(st.quoteBuf) == [])
    ensures Order(k, StepEnd(style, st, HeadingEnd)) == Order(k, st)
  {
    assert k(st.output + HeadingLines(st.headingLevel, st.headingBuf)) == k(st.output) + k(st.headingBuf);
    HeadingGoesOut(k(st.output), HeldText(k, st.items), k(st.quoteBuf), k(st.headingBuf), k(st.codeBuf));
  }

  lemma CodeEndKeepsOrder(k: Line -> Line, style: Style, st: State)
    requires ReadsThrough(k) && ReadsBlocks(k)
    requires k(st.codeBuf) == [] || (HeldText(k, st.items) == [] && k(st.quoteBuf) == [] && k(st.headingBuf) == [])
    ensures Order(k, StepEnd(style, st, CodeBlockEnd)) == Order(k, st)
  {
    assert k(st.output + CodeLines(st.codeLang, st.codeBuf)) == k(st.output) + k(st.codeBuf);
    CodeGoesOut(k(st.output), HeldText(k, st.items), k(st.quoteBuf), k(st.headingBuf), k(st.codeBuf));
  }

  lemma EndKeepsOrder(k: Line -> Line, labels: bool, style: Style, st: State, end: TagEnd)
    requires Reading(k, labels) && LabelsRead(k, labels, st.items) && !IsTableEvent(End(end))
    requires !Overtakes(View(k, st), End(end), labels)
    ensures Order(k, StepEnd(style, st, end)) == Order(k, st)
  {
    HeldWaits(k, labels, st.items);
    match end {
      case BlockQuoteEnd => QuoteEndKeepsOrder(k, style, st);
      case HeadingEnd => HeadingEndKeepsOrder(k, style, st);
      case CodeBlockEnd => CodeEndKeepsOrder(k, style, st);
      case ItemEnd => EndItemKeepsOrder(k, labels, st);
      case ParagraphEnd => NothingAppended(k, st, NEWLINE);
      case _ =>
    }
  }

  /** An event that neither spills nor overtakes adds what it brings at the end. */
  lemma StepKeepsOrder(k: Line -> Line, labels: bool, style: Style, st: State, event: Event)
    requires Reading(k, labels) && Closed(k, labels, st) && !IsTableEvent(event)
    requires !Spills(View(k, st), event) && !Overtakes(View(k, st), event, labels) && !(event.Code? && st.inCodeBlock)
    ensures Order(k, Step(style, st, event)) == Order(k, st) + k(Brought(event, NextLabel(st)))
  {
    assert Order(k, st) + [] == Order(k, st);
    match event {
      case Start(tag) => StartKeepsOrder(k, labels, st, tag);
      case End(end) => EndKeepsOrder(k, labels, style, st, end);
      case Text(text) => TextKeepsOrder(k, labels, st, text);
      case Code(text) => CodeKeepsOrder(k, labels, st, text);
      case _ => BreakKeepsOrder(k, style, st, event);
    }
  }

  // ---- Buffers stay closed ----

  lemma StartStaysClosed(k: Line -> Line, labels: bool, st: State, tag: Tag)
    requires Reading(k, labels) && Closed(k, labels, st) && !IsTableEvent(Start(tag))
    ensures Closed(k, labels, StepStart(st, tag))
  {
    match tag {
      case List(start) => ListStaysClosed(k, labels, st, start);
      case Item(id) => ItemStaysClosed(k, labels, st, id);
      case _ =>
    }
  }

  lemma ListStaysClosed(k: Line -> Line, labels: bool, st: State, start: Option<nat>)
    requires Closed(k, labels, st)
    ensures Closed(k, labels, StartList(st, start))
  {
    FlushKeeps(st);
    assert LabelsRead(k, labels, FlushItem(st).items);
  }

  lemma ItemStaysClosed(k: Line -> Line, labels: bool, st: State, id: int)
    requires Reading(k, labels) && Closed(k, labels, st)
    ensures Closed(k, labels, StartItem(st, id))
  {
    assert k(ItemPrefix(st.listDepth, NextLabel(st), id).0) == k([Mark(NextLabel(st), id)]);
  }

  lemma EndStaysClosed(k: Line -> Line, labels: bool, style: Style, st: State, end: TagEnd)
    requires Closed(k, labels, st) && !IsTableEvent(End(end))
    ensures Closed(k, labels, StepEnd(style, st, end))
  {
    match end {
      case ItemEnd => if st.items != [] { EndItemKeeps(st); }
      case HeadingEnd =>
      case CodeBlockEnd =>
      case BlockQuoteEnd =>
      case _ =>
    }
  }

  lemma LeafStaysClosed(k: Line -> Line, labels: bool, style: Style, st: State, event: Event)
    requires Closed(k, labels, st) && !event.Start? && !event.End?
    ensures Closed(k, labels, Step(style, st, event))
  {
    match event {
      case Text(text) =>
      case Code(text) =>
      case SoftBreak =>
      case HardBreak =>
      case _ =>
    }
  }

  lemma StaysClosed(k: Line -> Line, labels: bool, style: Style, st: State, event: Event)
    requires Reading(k, labels) && Closed(k, labels, st) && !IsTableEvent(event)
    ensures Closed(k, labels, Step(style, st, event))
  {
    match event {
      case Start(tag) => StartStaysClosed(k, labels, st, tag);
      case End(end) => EndStaysClosed(k, labels, style, st, end);
      case _ => LeafStaysClosed(k, labels, style, st, event);
    }
  }

  lemma OrderAtRest(k: Line -> Line, labels: bool, st: State)
    requires k([]) == [] && AtRest(st)
    ensures Order(k, st) == k(st.output) && Closed(k, labels, st)
  {
  }

  // ---- What an overtaking event writes ----

  lemma StartAppends(st: State, tag: Tag)
    requires !IsTableEvent(Start(tag))
    ensures st.output <= StepStart(st, tag).output
  {
    match tag {
      case List(start) => assert st.output <= FlushItem(st).output;
      case Item(id) =>
      case _ =>
    }
  }

  lemma EndAppends(style: Style, st: State, end: TagEnd)
    requires !IsTableEvent(End(end))
    ensures st.output <= StepEnd(style, st, end).output
  {
    match end {
      case ItemEnd => assert st.output <= EndItem(st).output;
      case HeadingEnd =>
      case CodeBlockEnd =>
      case BlockQuoteEnd =>
      case _ =>
    }
  }

  lemma LeafAppends(style: Style, st: State, event: Event)
    requires !event.Start? && !event.End?
    ensures st.output <= Step(style, st, event).output
  {
    match event {
      case Text(text) =>
      case Code(text) =>
      case _ =>
    }
  }

  lemma StepAppends(style: Style, st: State, event: Event)
    requires !IsTableEvent(event)
    ensures st.output <= Step(style, st, event).output
  {
    match event {
      case Start(tag) => StartAppends(st, tag);
      case End(end) => EndAppends(style, st, end);
      case _ => LeafAppends(style, st, event);
    }
  }

  /** An event that overtakes writes a piece although something is held before it. */
  ghost predicate Jumps(k: Line -> Line, st: State, next: State, before: Line, piece: Line) {
    && before != [] && piece != []
    && k(st.output) + before + piece <= Order(k, st)
    && k(next.output) == k(st.output) + piece
  }

  lemma PiecesAreFirst(o: Line, h: Line, q: Line, g: Line, c: Line)
    ensures o + h + q <= o + h + q + g + c
    ensures o + (h + q) + g <= o + h + q + g + c
    ensures o + (h + q + g) + c <= o + h + q + g + c
  {
    Associate(o, h, q);
    assert o + (h + q + g) == o + h + q + g;
  }

  lemma ItemIsFirst(o: Line, below: Line, top: Line, q: Line, g: Line, c: Line)
    ensures o + below + top <= o + (below + top) + q + g + c
  {
    Associate(o, below, top);
    PiecesAreFirst(o, below + top, q, g, c);
  }

  lemma ItemJumps(k: Line -> Line, labels: bool, st: State, next: State, below: Line, item: Frame)
    requires Reading(k, labels) && st.items != [] && item == st.items[|st.items| - 1]
    requires below == HeldText(k, st.items[..|st.items| - 1]) && below != [] && FrameText(k, item) != []
    requires next.output == st.output + ItemLines(item)
    ensures Jumps(k, st, next, below, FrameText(k, item))
  {
    assert k(st.output + ItemLines(item)) == k(st.output) + FrameText(k, item);
    ItemIsFirst(k(st.output), below, FrameText(k, item), k(st.quoteBuf), k(st.headingBuf), k(st.codeBuf));
  }

  lemma BlockJumps(k: Line -> Line, labels: bool, style: Style, st: State, end: TagEnd) returns (before: Line, piece: Line)
    requires Reading(k, labels) && LabelsRead(k, labels, st.items) && Overtakes(View(k, st), End(end), labels)
    requires end == BlockQuoteEnd || end == HeadingEnd || end == CodeBlockEnd
    ensures Jumps(k, st, StepEnd(style, st, end), before, piece)
  {
    var h, q, g := HeldText(k, st.items), k(st.quoteBuf), k(st.headingBuf);
    HeldWaits(k, labels, st.items);
    PiecesAreFirst(k(st.output), h, q, g, k(st.codeBuf));
    if end == BlockQuoteEnd {
      before, piece := h, q;
      assert k(st.output + QuoteLines(st.quoteBuf)) == k(st.output) + q;
    } else if end == HeadingEnd {
      before, piece := h + q, g;
      assert k(st.output + HeadingLines(st.headingLevel, st.headingBuf)) == k(st.output) + g;
    } else {
      before, piece := h + q + g, k(st.codeBuf);
      assert k(st.output + CodeLines(st.codeLang, st.codeBuf)) == k(st.output) + k(st.codeBuf);
    }
  }

  lemma ListJumps(k: Line -> Line, labels: bool, st: State, start: Option<nat>, below: Line, item: Frame)
    requires Reading(k, labels) && st.items != [] && item == st.items[|st.items| - 1]
    requires below == HeldText(k, st.items[..|st.items| - 1]) && below != [] && FrameText(k, item) != []
    requires !item.emitted && item.content != []
    ensures Jumps(k, st, StartList(st, start), below, FrameText(k, item))
  {
    ItemJumps(k, labels, st, FlushItem(st), below, item);
    var out := FlushItem(st).output;
    assert k(out + NEWLINE) == k(out) + [];
  }

  lemma TopJumps(k: Line -> Line, labels: bool, style: Style, st: State, event: Event, item: Frame)
    requires Reading(k, labels) && LabelsRead(k, labels, st.items)
    requires (event.Start? && event.tag.List?) || event == End(ItemEnd)
    requires Overtakes(View(k, st), event, labels) && st.items != [] && item == st.items[|st.items| - 1]
    ensures Jumps(k, st, Step(style, st, event), HeldText(k, st.items[..|st.items| - 1]), FrameText(k, item))
  {
    BelowWaits(k, labels, st.items);
    if event.Start? {
      ListJumps(k, labels, st, event.tag.start, HeldText(k, st.items[..|st.items| - 1]), item);
    } else {
      assert item.content != [] || !item.emitted;
      ItemJumps(k, labels, st, EndItem(st), HeldText(k, st.items[..|st.items| - 1]), item);
    }
  }

  lemma OvertakingJumps(k: Line -> Line, labels: bool, style: Style, st: State, event: Event) returns (before: Line, piece: Line)
    requires Reading(k, labels) && LabelsRead(k, labels, st.items)
    requires Overtakes(View(k, st), event, labels) && !(event.Start? && event.tag.Item?)
    ensures Jumps(k, st, Step(style, st, event), before, piece)
  {
    if event.Start? || event.end == ItemEnd {
      var item := st.items[|st.items| - 1];
      before, piece := HeldText(k, st.items[..|st.items| - 1]), FrameText(k, item);
      TopJumps(k, labels, style, st, event, item);
    } else {
      before, piece := BlockJumps(k, labels, style, st, event.end);
    }
  }

  // ---- Lengths ----

  function Length(k: Line -> Line): Line -> nat {
    gs => |k(gs)|
  }

  lemma LengthCounts(k: Line -> Line, labels: bool)
    requires Reading(k, labels)
    ensures Counting(Length(k))
  {
  }

  predicate Distinct(line: Line) {
    forall i, j :: 0 <= i < j < |line| ==> line[i] != line[j]
  }

  /** A jump is seen in the end if all glyphs are different. */
  lemma JumpIsSeen(out: Line, before: Line, piece: Line, order: Line, rest: Line, final: Line)
    requires before != [] && piece != [] && out + before + piece <= order && out + piece <= final
    requires Distinct(order + rest)
    ensures final != order + rest
  {
    assert (order + rest)[|out|] == (out + before + piece)[|out|] == before[0];
    assert (order + rest)[|out| + |before|] == (out + before + piece)[|out| + |before|] == piece[0];
    assert final[|out|] == (out + piece)[|out|] == piece[0];
  }

  lemma ReadsPrefix(k: Line -> Line, a: Line, b: Line)
    requires ReadsThrough(k) && a <= b
    ensures k(a) <= k(b)
  {
    assert b == a + b[|a|..];
    assert k(a + b[|a|..]) == k(a) + k(b[|a|..]);
  }
}
