/** Bookkeeping of what the renderer has been given: the letters of every text and the
    label of every list item.  Each is either in the output, waiting in a buffer, or was
    dropped by an event that clears a buffer. */
module RendererLedger {
  import opened Seqs
  import opened Glyphs
  import opened RendererModel

  // ---- Pieces of output show what they are made from ----

  lemma KeepBetween(before: Line, text: Line, after: Line, labels: bool)
    requires Keep(before, labels) == [] && Keep(after, labels) == []
    ensures Keep(before + text + after, labels) == Keep(text, labels)
  {
    KeepAppend3(before, text, after, labels);
  }

  lemma KeepItemHead(item: Frame, line: Line, labels: bool)
    ensures Keep(ItemHead(item, line), labels)
            == (if item.emitted then [] else Keep(item.prefix, labels)) + Keep(line, labels)
  {
    var head := if item.emitted then Spaces(item.prefixWidth) else item.prefix;
    KeepNothing(MARGIN, labels);
    KeepNothing(NEWLINE, labels);
    KeepNothing(Spaces(item.prefixWidth), labels);
    KeepAppend(MARGIN + head + line, NEWLINE, labels);
    KeepAppend3(MARGIN, head, line, labels);
  }

  lemma KeepContinuation(width: nat, lines: seq<Line>, labels: bool)
    ensures Keep(Wrapped(MARGIN + Spaces(width), lines, NEWLINE), labels) == Keep(Flatten(lines), labels)
  {
    KeepNothing(NEWLINE, labels);
    KeepNothing(MARGIN + Spaces(width), labels);
    KeepWrapped(MARGIN + Spaces(width), lines, NEWLINE, labels);
  }

  /** The letters of an item, behind its label unless that is out already. */
  lemma KeepItemLines(item: Frame, labels: bool)
    ensures Keep(ItemLines(item), labels)
            == (if item.emitted then [] else Keep(item.prefix, labels)) + Keep(item.content, labels)
  {
    var lines := Split(item.content);
    KeepItemHead(item, lines[0], labels);
    KeepContinuation(item.prefixWidth, lines[1..], labels);
    KeepAppend(ItemHead(item, lines[0]), Wrapped(MARGIN + Spaces(item.prefixWidth), lines[1..], NEWLINE), labels);
    KeepSplitHead(item.content, labels);
  }

  lemma KeepHeadingLines(level: nat, text: Line, labels: bool)
    ensures Keep(HeadingLines(level, text), labels) == Keep(text, labels)
  {
    var marked := Plain(Hashes(level) + " ") + text;
    KeepNothing(NEWLINE, labels);
    KeepPlain(Hashes(level) + " ", labels);
    KeepAppend(Plain(Hashes(level) + " "), text, labels);
    KeepStyled(HeadingFace, marked, labels);
    KeepBetween(NEWLINE, Styled(HeadingFace, marked), NEWLINE, labels);
  }

  lemma KeepCodeLines(lang: Option<string>, code: Line, labels: bool)
    ensures Keep(CodeLines(lang, code), labels) == Keep(code, labels)
  {
    KeepNothing(CodeHeader(lang), labels);
    KeepNothing(CODE_OPEN, labels);
    KeepNothing(CODE_CLOSE, labels);
    KeepNothing(CODE_FOOTER, labels);
    KeepWrapped(CODE_OPEN, Lines(code), CODE_CLOSE, labels);
    KeepLines(code, labels);
    KeepBetween(CodeHeader(lang), Wrapped(CODE_OPEN, Lines(code), CODE_CLOSE), CODE_FOOTER, labels);
  }

  lemma KeepQuoteLines(text: Line, labels: bool)
    ensures Keep(QuoteLines(text), labels) == Keep(text, labels)
  {
    KeepNothing(QUOTE_OPEN, labels);
    KeepNothing(QUOTE_CLOSE, labels);
    KeepWrapped(QUOTE_OPEN, Lines(text), QUOTE_CLOSE, labels);
    KeepLines(text, labels);
  }

  lemma KeepInlineStyled(st: State, text: seq<Letter>, labels: bool)
    ensures Keep(InlineStyled(st, text), labels) == Keep(Inked(text), labels)
  {
    KeepStyled(BoldFace, Inked(text), labels);
    KeepStyled(EmphasisFace, Inked(text), labels);
  }

  lemma KeepInlineCode(text: seq<Letter>, labels: bool)
    ensures Keep(InlineCode(text), labels) == Keep(Inked(text), labels)
    ensures Keep(Styled(CodeFace, InlineCode(text)), labels) == Keep(Inked(text), labels)
  {
    KeepNothing(TICK, labels);
    KeepBetween(TICK, Inked(text), TICK, labels);
    KeepStyled(CodeFace, InlineCode(text), labels);
  }

  lemma KeepItemPrefix(depth: nat, counter: nat, id: int, labels: bool)
    ensures Keep(ItemPrefix(depth, counter, id).0, labels) == if labels then [Mark(counter, id)] else []
  {
    var indent := Spaces(2 * SaturatingSub(depth, 1));
    KeepNothing(indent, labels);
    KeepNothing([Chrome(' ')], labels);
    assert [Mark(counter, id)][1..] == [];
    KeepAppend(indent, [Mark(counter, id)], labels);
    KeepAppend(indent + [Mark(counter, id)], [Chrome(' ')], labels);
  }

  // ---- Reading and counting ----

  /** A reading of the output picks out letters (and, if asked for, labels), in order, and
      sees nothing in decoration.  The proofs about the renderer use only these laws. */
  ghost predicate Reading(k: Line -> Line, labels: bool) {
    ReadsThrough(k) && ReadsItems(k, labels) && ReadsBlocks(k) && ReadsInline(k)
  }

  ghost predicate ReadsThrough(k: Line -> Line) {
    && k([]) == [] && k(NEWLINE) == [] && k(BLANK) == []
    && (forall width: nat {:trigger k(RuleLine(width))} :: k(RuleLine(width)) == [])
    && (forall a: Line, b: Line {:trigger k(a + b)} :: k(a + b) == k(a) + k(b))
  }

  ghost predicate ReadsItems(k: Line -> Line, labels: bool) {
    && (forall item: Frame {:trigger k(ItemLines(item))} :: k(ItemLines(item)) == (if item.emitted then [] else k(item.prefix)) + k(item.content))
    && (forall depth: nat, counter: nat, id: int {:trigger k(ItemPrefix(depth, counter, id).0)} :: k(ItemPrefix(depth, counter, id).0) == k([Mark(counter, id)]))
    && (forall counter: nat, id: int {:trigger k([Mark(counter, id)])} :: k([Mark(counter, id)]) != [] <==> labels)
  }

  ghost predicate ReadsBlocks(k: Line -> Line) {
    && (forall level: nat, text: Line {:trigger k(HeadingLines(level, text))} :: k(HeadingLines(level, text)) == k(text))
    && (forall lang: Option<string>, code: Line {:trigger k(CodeLines(lang, code))} :: k(CodeLines(lang, code)) == k(code))
    && (forall text: Line {:trigger k(QuoteLines(text))} :: k(QuoteLines(text)) == k(text))
  }

  ghost predicate ReadsInline(k: Line -> Line) {
    && (forall st: State, text: seq<Letter> {:trigger k(InlineStyled(st, text))} :: k(InlineStyled(st, text)) == k(Inked(text)))
    && (forall text: seq<Letter> {:trigger k(InlineCode(text))} :: k(InlineCode(text)) == k(Inked(text)))
    && (forall text: seq<Letter> {:trigger k(Styled(CodeFace, InlineCode(text)))} :: k(Styled(CodeFace, InlineCode(text))) == k(Inked(text)))
  }

  function Keeping(labels: bool): Line -> Line {
    gs => Keep(gs, labels)
  }

  lemma KeepReadsThrough(labels: bool)
    ensures ReadsThrough(Keeping(labels))
  {
    KeepNothing(NEWLINE, labels);
    KeepNothing(BLANK, labels);
    forall width: nat ensures Keep(RuleLine(width), labels) == [] {
      KeepNothing(RuleLine(width), labels);
    }
    forall a: Line, b: Line ensures Keep(a + b, labels) == Keep(a, labels) + Keep(b, labels) {
      KeepAppend(a, b, labels);
    }
  }

  lemma KeepReadsItems(labels: bool)
    ensures ReadsItems(Keeping(labels), labels)
  {
    forall item: Frame
      ensures Keep(ItemLines(item), labels)
              == (if item.emitted then [] else Keep(item.prefix, labels)) + Keep(item.content, labels)
    {
      KeepItemLines(item, labels);
    }
    forall depth: nat, counter: nat, id: int
      ensures Keep(ItemPrefix(depth, counter, id).0, labels) == Keep([Mark(counter, id)], labels)
    {
      KeepItemPrefix(depth, counter, id, labels);
      assert [Mark(counter, id)][1..] == [];
    }
    forall counter: nat, id: int ensures Keep([Mark(counter, id)], labels) != [] <==> labels {
      assert [Mark(counter, id)][1..] == [];
    }
  }

  lemma KeepReadsBlocks(labels: bool)
    ensures ReadsBlocks(Keeping(labels))
  {
    forall level: nat, text: Line ensures Keep(HeadingLines(level, text), labels) == Keep(text, labels) {
      KeepHeadingLines(level, text, labels);
    }
    forall lang: Option<string>, code: Line ensures Keep(CodeLines(lang, code), labels) == Keep(code, labels) {
      KeepCodeLines(lang, code, labels);
    }
    forall text: Line ensures Keep(QuoteLines(text), labels) == Keep(text, labels) {
      KeepQuoteLines(text, labels);
    }
  }

  lemma KeepReadsInline(labels: bool)
    ensures ReadsInline(Keeping(labels))
  {
    forall st: State, text: seq<Letter> ensures Keep(InlineStyled(st, text), labels) == Keep(Inked(text), labels) {
      KeepInlineStyled(st, text, labels);
    }
    forall text: seq<Letter>
      ensures Keep(InlineCode(text), labels) == Keep(Inked(text), labels)
      ensures Keep(Styled(CodeFace, InlineCode(text)), labels) == Keep(Inked(text), labels)
    {
      KeepInlineCode(text, labels);
    }
  }

  lemma KeepReads(labels: bool)
    ensures Reading(Keeping(labels), labels)
  {
    KeepReadsThrough(labels);
    KeepReadsItems(labels);
    KeepReadsBlocks(labels);
    KeepReadsInline(labels);
  }

  /** How often one glyph is read in a piece of output. */
  function Counted(k: Line -> Line, g: Glyph): Line -> nat {
    gs => multiset(k(gs))[g]
  }

  /** A count adds up over concatenation, and sees nothing in decoration. */
  ghost predicate Counting(m: Line -> nat) {
    && m([]) == 0 && m(NEWLINE) == 0 && m(BLANK) == 0
    && (forall width: nat {:trigger m(RuleLine(width))} :: m(RuleLine(width)) == 0)
    && (forall a: Line, b: Line {:trigger m(a + b)} :: m(a + b) == m(a) + m(b))
    && (forall item: Frame {:trigger m(ItemLines(item))} :: m(ItemLines(item)) == (if item.emitted then 0 else m(item.prefix)) + m(item.content))
    && (forall depth: nat, counter: nat, id: int {:trigger m(ItemPrefix(depth, counter, id).0)} :: m(ItemPrefix(depth, counter, id).0) == m([Mark(counter, id)]))
    && (forall level: nat, text: Line {:trigger m(HeadingLines(level, text))} :: m(HeadingLines(level, text)) == m(text))
    && (forall lang: Option<string>, code: Line {:trigger m(CodeLines(lang, code))} :: m(CodeLines(lang, code)) == m(code))
    && (forall text: Line {:trigger m(QuoteLines(text))} :: m(QuoteLines(text)) == m(text))
    && (forall st: State, text: seq<Letter> {:trigger m(InlineStyled(st, text))} :: m(InlineStyled(st, text)) == m(Inked(text)))
    && (forall text: seq<Letter> {:trigger m(InlineCode(text))} :: m(InlineCode(text)) == m(Inked(text)))
    && (forall text: seq<Letter> {:trigger m(Styled(CodeFace, InlineCode(text)))} :: m(Styled(CodeFace, InlineCode(text))) == m(Inked(text)))
  }

  lemma CountedCounts(k: Line -> Line, labels: bool, g: Glyph)
    requires Reading(k, labels)
    ensures Counting(Counted(k, g))
  {
  }

  // ---- The book ----

  /** What an open item still has to show; the label too if it is not out yet. */
  function FrameCount(m: Line -> nat, item: Frame): nat {
    m(item.content) + (if item.emitted then 0 else m(item.prefix))
  }

  function FramesCount(m: Line -> nat, items: seq<Frame>): nat {
    if items == [] then 0
    else FramesCount(m, items[..|items| - 1]) + FrameCount(m, items[|items| - 1])
  }

  /** What is out, and what waits in a buffer or an open item. */
  function Ledger(m: Line -> nat, st: State): nat {
    m(st.output) + m(st.codeBuf) + m(st.headingBuf) + m(st.quoteBuf) + FramesCount(m, st.items)
  }

  /** What an event throws away: the buffer it starts afresh. */
  function Discarded(st: State, event: Event): Line {
    match event
    case Start(Heading(_)) => st.headingBuf
    case Start(CodeBlock(_)) => st.codeBuf
    case Start(BlockQuote) => st.quoteBuf
    case _ => []
  }

  /** The number the next item gets from the counter of the innermost list. */
  function NextLabel(st: State): nat {
    if st.orderedCounters == [] then 0 else st.orderedCounters[|st.orderedCounters| - 1]
  }

  /** What an event brings: its text, or the label of the item it starts. */
  function Brought(event: Event, number: nat): Line {
    match event
    case Text(text) => Inked(text)
    case Code(text) => Inked(text)
    case Start(Item(id)) => [Mark(number, id)]
    case _ => []
  }

  predicate IsTableEvent(event: Event) {
    match event
    case Start(tag) => tag.Table? || tag.TableHead? || tag.TableRow? || tag.TableCell?
    case End(end) => end.TableEnd? || end.TableHeadEnd? || end.TableRowEnd? || end.TableCellEnd?
    case _ => false
  }

  lemma FramesCountTop(m: Line -> nat, items: seq<Frame>, top: Frame)
    requires items != []
    ensures FramesCount(m, items[|items| - 1 := top]) == FramesCount(m, items[..|items| - 1]) + FrameCount(m, top)
  {
    assert items[|items| - 1 := top][..|items| - 1] == items[..|items| - 1];
  }

  lemma AppendToItemLedger(m: Line -> nat, st: State, text: Line)
    requires Counting(m) && st.items != []
    ensures Ledger(m, AppendToItem(st, text)) == Ledger(m, st) + m(text)
  {
    var item := st.items[|st.items| - 1];
    FramesCountTop(m, st.items, item.(content := item.content + text));
  }

  lemma FlushItemLedger(m: Line -> nat, st: State)
    requires Counting(m)
    ensures Ledger(m, FlushItem(st)) == Ledger(m, st)
  {
    if st.items != [] {
      var item := st.items[|st.items| - 1];
      FramesCountTop(m, st.items, item.(content := [], emitted := true));
    }
  }

  lemma StartListLedger(m: Line -> nat, st: State, start: Option<nat>)
    requires Counting(m)
    ensures Ledger(m, StartList(st, start)) == Ledger(m, st)
  {
    FlushItemLedger(m, st);
  }

  lemma EndItemLedger(m: Line -> nat, st: State)
    requires Counting(m)
    ensures Ledger(m, EndItem(st)) == Ledger(m, st)
  {
  }

  lemma StartItemLedger(m: Line -> nat, st: State, id: int)
    requires Counting(m)
    ensures Ledger(m, StartItem(st, id)) == Ledger(m, st) + m([Mark(NextLabel(st), id)])
  {
    assert StartItem(st, id).items[..|st.items|] == st.items;
  }

  lemma StepStartLedger(m: Line -> nat, st: State, tag: Tag)
    requires Counting(m) && !IsTableEvent(Start(tag))
    ensures Ledger(m, StepStart(st, tag)) + m(Discarded(st, Start(tag)))
            == Ledger(m, st) + m(Brought(Start(tag), NextLabel(st)))
  {
    match tag {
      case List(start) => StartListLedger(m, st, start);
      case Item(id) => StartItemLedger(m, st, id);
      case _ =>
    }
  }

  lemma StepEndLedger(m: Line -> nat, style: Style, st: State, end: TagEnd)
    requires Counting(m) && !IsTableEvent(End(end))
    ensures Ledger(m, StepEnd(style, st, end)) == Ledger(m, st)
  {
    if end.ItemEnd? {
      EndItemLedger(m, st);
    }
  }

  lemma StepTextLedger(m: Line -> nat, st: State, text: seq<Letter>)
    requires Counting(m) && !st.table.inTable
    ensures Ledger(m, StepText(st, text)) == Ledger(m, st) + m(Inked(text))
  {
    if st.items != [] {
      AppendToItemLedger(m, st, InlineStyled(st, text));
    }
  }

  lemma StepCodeLedger(m: Line -> nat, st: State, text: seq<Letter>)
    requires Counting(m) && !st.table.inTable
    ensures Ledger(m, StepCode(st, text)) == Ledger(m, st) + m(Inked(text))
  {
    if st.items != [] {
      AppendToItemLedger(m, st, Styled(CodeFace, InlineCode(text)));
    }
  }

  lemma StepBreakLedger(m: Line -> nat, st: State)
    requires Counting(m) && !st.table.inTable
    ensures Ledger(m, StepSoftBreak(st)) == Ledger(m, st)
    ensures Ledger(m, StepHardBreak(st)) == Ledger(m, st)
  {
    if st.items != [] {
      AppendToItemLedger(m, st, NEWLINE);
    }
  }

  /** Outside tables every event balances the book, in any state: what it adds to the
      output and the buffers is what it brings, less the buffer it starts afresh. */
  lemma StepBalances(m: Line -> nat, style: Style, st: State, event: Event)
    requires Counting(m) && !IsTableEvent(event) && !st.table.inTable
    ensures Ledger(m, Step(style, st, event)) + m(Discarded(st, event))
            == Ledger(m, st) + m(Brought(event, NextLabel(st)))
  {
    match event {
      case Start(tag) => StepStartLedger(m, st, tag);
      case End(end) => StepEndLedger(m, style, st, end);
      case Text(text) => StepTextLedger(m, st, text);
      case Code(text) => StepCodeLedger(m, st, text);
      case SoftBreak => StepBreakLedger(m, st);
      case HardBreak => StepBreakLedger(m, st);
      case Rule =>
      case OtherEvent =>
    }
  }
}
