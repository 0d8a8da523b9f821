/** A scanner of events that tells, without rendering anything, which of the renderer's
    buffers are open and which hold letters.  It reads nothing but the stream. */
module RendererTrack {
  import opened Seqs
  import opened Glyphs
  import opened RendererModel
  import opened RendererLedger

  // ---- The scanner ----

  /** A block with its own buffer: whether it takes text, and whether it has letters. */
  datatype Buffer = Buffer(open: bool, letters: bool)

  /** An open list item: whether it holds anything, whether letters, and whether its label is
      out already. */
  datatype Hold = Hold(filled: bool, letters: bool, shown: bool)

  datatype Track = Track(
    emphasis: nat, strong: nat, code: Buffer, heading: Buffer, quote: Buffer, items: seq<Hold>)

  const CLOSED := Buffer(false, false)
  const OPENED := Buffer(true, false)
  const NOTHING_OPEN := Track(0, 0, CLOSED, CLOSED, CLOSED, [])

  /** Text of which something is to be shown: not just line ends. */
  predicate HasLetters(text: seq<Letter>) {
    Keep(Inked(text), false) != []
  }

  function Wrote(b: Buffer, text: seq<Letter>): Buffer {
    b.(letters := b.letters || HasLetters(text))
  }

  /** The innermost item takes something. */
  function Held(items: seq<Hold>, filled: bool, letters: bool): seq<Hold> {
    if items == [] then []
    else
      var top := items[|items| - 1];
      items[|items| - 1 := top.(filled := top.filled || filled, letters := top.letters || letters)]
  }

  /** A list that opens flushes the innermost item, if that holds something and its label is
      not out. */
  function Flushes(items: seq<Hold>): bool {
    items != [] && items[|items| - 1].filled && !items[|items| - 1].shown
  }

  function ScanStart(t: Track, tag: Tag): Track {
    match tag
    case Heading(_) => t.(heading := OPENED)
    case CodeBlock(_) => t.(code := OPENED)
    case BlockQuote => t.(quote := OPENED)
    case List(_) => if Flushes(t.items) then t.(items := t.items[|t.items| - 1 := Hold(false, false, true)]) else t
    case Item(_) => t.(items := t.items + [Hold(false, false, false)])
    case Emphasis => t.(emphasis := t.emphasis + 1)
    case Strong => t.(strong := t.strong + 1)
    case _ => t
  }

  function ScanEnd(t: Track, end: TagEnd): Track {
    match end
    case HeadingEnd => t.(heading := CLOSED)
    case CodeBlockEnd => t.(code := CLOSED)
    case BlockQuoteEnd => t.(quote := CLOSED)
    case ItemEnd => if t.items == [] then t else t.(items := t.items[..|t.items| - 1])
    case EmphasisEnd => t.(emphasis := SaturatingSub(t.emphasis, 1))
    case StrongEnd => t.(strong := SaturatingSub(t.strong, 1))
    case _ => t
  }

  function ScanText(t: Track, text: seq<Letter>): Track {
    if t.code.open then t.(code := Wrote(t.code, text))
    else if t.heading.open then t.(heading := Wrote(t.heading, text))
    else if t.quote.open then t.(quote := Wrote(t.quote, text))
    else t.(items := Held(t.items, text != [] || t.strong > 0 || t.emphasis > 0, HasLetters(text)))
  }

  function ScanCode(t: Track, text: seq<Letter>): Track {
    if t.heading.open then t.(heading := Wrote(t.heading, text))
    else if t.quote.open then t.(quote := Wrote(t.quote, text))
    else t.(items := Held(t.items, true, HasLetters(text)))
  }

  function Scan(t: Track, event: Event): Track {
    match event
    case Start(tag) => ScanStart(t, tag)
    case End(end) => ScanEnd(t, end)
    case Text(text) => ScanText(t, text)
    case Code(text) => ScanCode(t, text)
    case SoftBreak =>
      if t.code.open || t.heading.open || t.quote.open then t else t.(items := Held(t.items, true, false))
    case HardBreak => if t.code.open then t else t.(items := Held(t.items, true, false))
    case _ => t
  }

  // ---- The scanner agrees with the renderer ----

  function HoldOf(k: Line -> Line, item: Frame): Hold {
    Hold(item.content != [], k(item.content) != [], item.emitted)
  }

  function Holds(k: Line -> Line, items: seq<Frame>): (r: seq<Hold>)
    ensures |r| == |items|
  {
    seq(|items|, i requires 0 <= i < |items| => HoldOf(k, items[i]))
  }

  function BufferOf(k: Line -> Line, open: bool, text: Line): Buffer {
    Buffer(open, k(text) != [])
  }

  /** What the scanner knows, read off the renderer. */
  function View(k: Line -> Line, st: State): Track {
    Track(
      st.emphasisDepth, st.strongDepth, BufferOf(k, st.inCodeBlock, st.codeBuf),
      BufferOf(k, st.inHeading, st.headingBuf), BufferOf(k, st.inBlockQuote, st.quoteBuf), Holds(k, st.items))
  }

  /** The reading sees a text exactly if it has letters. */
  ghost predicate SeesLetters(k: Line -> Line) {
    forall text: seq<Letter> {:trigger k(Inked(text))} :: (k(Inked(text)) != []) == HasLetters(text)
  }

  lemma {:induction false} SameInk(gs: Line)
    requires forall i :: 0 <= i < |gs| ==> gs[i].Ink?
    ensures Keep(gs, true) == Keep(gs, false)
  {
    if gs != [] {
      SameInk(gs[1..]);
    }
  }

  lemma KeepSeesLetters(labels: bool)
    ensures SeesLetters(Keeping(labels))
  {
    forall text: seq<Letter> ensures (Keep(Inked(text), labels) != []) == HasLetters(text) {
      SameInk(Inked(text));
    }
  }

  lemma HoldsTop(k: Line -> Line, items: seq<Frame>, top: Frame)
    requires items != []
    ensures Holds(k, items[|items| - 1 := top]) == Holds(k, items)[|items| - 1 := HoldOf(k, top)]
  {
  }

  lemma AppendIsScanned(k: Line -> Line, labels: bool, st: State, text: Line)
    requires Reading(k, labels)
    ensures View(k, AppendToItem(st, text)) == View(k, st).(items := Held(View(k, st).items, text != [], k(text) != []))
  {
    if st.items != [] {
      var item := st.items[|st.items| - 1];
      HoldsTop(k, st.items, item.(content := item.content + text));
      assert k(item.content + text) == k(item.content) + k(text);
    }
  }

  lemma FlushIsScanned(k: Line -> Line, labels: bool, st: State)
    requires Reading(k, labels)
    ensures View(k, FlushItem(st)) ==
            if Flushes(View(k, st).items)
            then View(k, st).(items := View(k, st).items[|st.items| - 1 := Hold(false, false, true)]) else View(k, st)
  {
    if st.items != [] {
      HoldsTop(k, st.items, st.items[|st.items| - 1].(content := [], emitted := true));
    }
  }

  lemma PlainStartIsScanned(k: Line -> Line, st: State, tag: Tag)
    requires k([]) == [] && !IsTableEvent(Start(tag)) && !tag.List? && !tag.Item?
    ensures View(k, StepStart(st, tag)) == ScanStart(View(k, st), tag)
  {
  }

  lemma StartIsScanned(k: Line -> Line, labels: bool, st: State, tag: Tag)
    requires Reading(k, labels) && !IsTableEvent(Start(tag))
    ensures View(k, StepStart(st, tag)) == ScanStart(View(k, st), tag)
  {
    if tag.List? {
      FlushIsScanned(k, labels, st);
    } else if tag.Item? {
      ItemIsScanned(k, labels, st, tag.id);
    } else {
      PlainStartIsScanned(k, st, tag);
    }
  }

  lemma ItemIsScanned(k: Line -> Line, labels: bool, st: State, id: int)
    requires Reading(k, labels)
    ensures View(k, StartItem(st, id)) == View(k, st).(items := View(k, st).items + [Hold(false, false, false)])
  {
  }

  lemma EndItemIsScanned(k: Line -> Line, st: State)
    ensures View(k, EndItem(st)) == ScanEnd(View(k, st), ItemEnd)
  {
    if st.items != [] {
      assert Holds(k, st.items[..|st.items| - 1]) == Holds(k, st.items)[..|st.items| - 1];
    }
  }

  lemma EndIsScanned(k: Line -> Line, style: Style, st: State, end: TagEnd)
    requires k([]) == [] && !IsTableEvent(End(end))
    ensures View(k, StepEnd(style, st, end)) == ScanEnd(View(k, st), end)
  {
    if end == ItemEnd {
      EndItemIsScanned(k, st);
    }
  }

  lemma TextIsScanned(k: Line -> Line, labels: bool, st: State, text: seq<Letter>)
    requires Reading(k, labels) && SeesLetters(k) && !st.table.inTable
    ensures View(k, StepText(st, text)) == ScanText(View(k, st), text)
  {
    if st.inCodeBlock || st.inHeading || st.inBlockQuote {
      WroteText(k, labels, st.codeBuf, Inked(text));
      WroteText(k, labels, st.headingBuf, Inked(text));
      WroteText(k, labels, st.quoteBuf, Inked(text));
    } else {
      AppendIsScanned(k, labels, st, InlineStyled(st, text));
    }
  }

  lemma WroteText(k: Line -> Line, labels: bool, buffer: Line, text: Line)
    requires Reading(k, labels)
    ensures k(buffer + text) != [] <==> k(buffer) != [] || k(text) != []
  {
    assert k(buffer + text) == k(buffer) + k(text);
  }

  lemma CodeIsScanned(k: Line -> Line, labels: bool, st: State, text: seq<Letter>)
    requires Reading(k, labels) && SeesLetters(k) && !st.table.inTable
    ensures View(k, StepCode(st, text)) == ScanCode(View(k, st), text)
  {
    if st.inHeading {
      WroteText(k, labels, st.headingBuf, Inked(text));
    } else if st.inBlockQuote {
      WroteText(k, labels, st.quoteBuf, InlineCode(text));
    } else {
      AppendIsScanned(k, labels, st, Styled(CodeFace, InlineCode(text)));
    }
  }

  lemma BreakIsScanned(k: Line -> Line, labels: bool, style: Style, st: State, event: Event)
    requires Reading(k, labels) && !st.table.inTable && (event.SoftBreak? || event.HardBreak?)
    ensures View(k, Step(style, st, event)) == Scan(View(k, st), event)
  {
    WroteText(k, labels, st.codeBuf, NEWLINE);
    WroteText(k, labels, st.headingBuf, BLANK);
    WroteText(k, labels, st.quoteBuf, NEWLINE);
    AppendIsScanned(k, labels, st, NEWLINE);
  }

  lemma LeafIsScanned(k: Line -> Line, labels: bool, style: Style, st: State, event: Event)
    requires Reading(k, labels) && SeesLetters(k) && !st.table.inTable && !event.Start? && !event.End?
    ensures View(k, Step(style, st, event)) == Scan(View(k, st), event)
  {
    match event {
      case Text(text) => TextIsScanned(k, labels, st, text);
      case Code(text) => CodeIsScanned(k, labels, st, text);
      case SoftBreak => BreakIsScanned(k, labels, style, st, event);
      case HardBreak => BreakIsScanned(k, labels, style, st, event);
      case _ =>
    }
  }

  /** Scanning an event is what rendering it does, as far as the scanner looks. */
  lemma StepIsScanned(k: Line -> Line, labels: bool, style: Style, st: State, event: Event)
    requires Reading(k, labels) && SeesLetters(k) && !IsTableEvent(event) && !st.table.inTable
    ensures View(k, Step(style, st, event)) == Scan(View(k, st), event)
  {
    if event.Start? {
      StartIsScanned(k, labels, st, event.tag);
    } else if event.End? {
      EndIsScanned(k, style, st, event.end);
    } else {
      LeafIsScanned(k, labels, style, st, event);
    }
  }

  // ---- What goes wrong ----

  /** A block that opens while its buffer has letters, from one of its own kind around it:
      they are lost. */
  predicate Spills(t: Track, event: Event) {
    match event
    case Start(Heading(_)) => t.heading.letters
    case Start(CodeBlock(_)) => t.code.letters
    case Start(BlockQuote) => t.quote.letters
    case _ => false
  }

  lemma SpillsWhatIsDiscarded(k: Line -> Line, st: State, event: Event)
    requires k([]) == []
    ensures Spills(View(k, st), event) <==> k(Discarded(st, event)) != []
  {
  }

  predicate SpillsNothing(t: Track, events: seq<Event>)
    decreases |events|
  {
    events == [] || (!Spills(t, events[0]) && SpillsNothing(Scan(t, events[0]), events[1..]))
  }
}
