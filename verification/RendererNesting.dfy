/** Well-nested event streams without tables, and what the renderer keeps on them.

    The reader of a stream holds the stack of tags that are open.  The renderer's depths,
    flags and counters mirror that stack at every moment, so that none of its saturating
    subtractions ever saturates, and at the end everything is back at rest. */
module RendererNesting {
  import opened Seqs
  import opened Glyphs
  import opened RendererModel
  import opened RendererLedger

  /** An open tag; a list also knows how many items it has had. */
  datatype Level = Level(tag: Tag, items: nat)

  /** The end that closes a tag; it also serves as the tag's kind. */
  function EndOf(tag: Tag): TagEnd {
    match tag
    case Heading(_) => HeadingEnd
    case Paragraph => ParagraphEnd
    case CodeBlock(_) => CodeBlockEnd
    case List(_) => ListEnd
    case Item(_) => ItemEnd
    case BlockQuote => BlockQuoteEnd
    case Emphasis => EmphasisEnd
    case Strong => StrongEnd
    case Strikethrough => StrikethroughEnd
    case Link => LinkEnd
    case Table(_) => TableEnd
    case TableHead => TableHeadEnd
    case TableRow => TableRowEnd
    case TableCell => TableCellEnd
    case OtherTag => OtherTagEnd
  }

  /** How deep each kind of tag is open, with the next number of every open list. */
  datatype Depths = Depths(
    counters: seq<nat>, items: nat, emphasis: nat, strong: nat, headings: nat, codeBlocks: nat, quotes: nat)

  function Deeper(d: Depths, level: Level): Depths {
    match level.tag
    case List(_) => d.(counters := d.counters + [Label(level)])
    case Item(_) => d.(items := d.items + 1)
    case Emphasis => d.(emphasis := d.emphasis + 1)
    case Strong => d.(strong := d.strong + 1)
    case Heading(_) => d.(headings := d.headings + 1)
    case CodeBlock(_) => d.(codeBlocks := d.codeBlocks + 1)
    case BlockQuote => d.(quotes := d.quotes + 1)
    case _ => d
  }

  function DepthsOf(stack: seq<Level>): Depths {
    if stack == [] then Depths([], 0, 0, 0, 0, 0, 0)
    else Deeper(DepthsOf(stack[..|stack| - 1]), stack[|stack| - 1])
  }

  lemma DeeperItems(d: Depths, level: Level)
    ensures Deeper(d, level).items == d.items + (if level.tag.Item? then 1 else 0)
  {
    match level.tag {
      case Item(_) =>
      case _ =>
    }
  }

  /** The number of the next item of a list: its start and the items it has had.  Bullets
      are 0, and so are the items of an ordered list that starts at 0. */
  function Label(level: Level): nat {
    if level.tag.List? && level.tag.start.GetOr(0) > 0 then level.tag.start.value + level.items else 0
  }

  predicate InList(stack: seq<Level>) {
    stack != [] && stack[|stack| - 1].tag.List?
  }

  /** A tag may open anywhere, except: no table, and an item opens directly in a list. */
  predicate Admits(stack: seq<Level>, tag: Tag) {
    if tag.Item? then InList(stack) else !IsTableEvent(Start(tag))
  }

  /** A heading, code block or block quote that opens inside one of its own kind. */
  predicate Reopens(stack: seq<Level>, event: Event) {
    match event
    case Start(Heading(_)) => DepthsOf(stack).headings > 0
    case Start(CodeBlock(_)) => DepthsOf(stack).codeBlocks > 0
    case Start(BlockQuote) => DepthsOf(stack).quotes > 0
    case _ => false
  }

  predicate Allowed(stack: seq<Level>, event: Event) {
    match event
    case Start(tag) => Admits(stack, tag)
    case End(end) => stack != [] && EndOf(stack[|stack| - 1].tag) == end
    case _ => true
  }

  function Next(stack: seq<Level>, event: Event): seq<Level>
    requires Allowed(stack, event)
  {
    match event
    case Start(tag) =>
      (if tag.Item? then stack[|stack| - 1 := stack[|stack| - 1].(items := stack[|stack| - 1].items + 1)] else stack)
      + [Level(tag, 0)]
    case End(_) => stack[..|stack| - 1]
    case _ => stack
  }

  predicate Nested(stack: seq<Level>, events: seq<Event>)
    decreases |events|
  {
    events == [] || (Allowed(stack, events[0]) && Nested(Next(stack, events[0]), events[1..]))
  }

  function After(stack: seq<Level>, events: seq<Event>): seq<Level>
    requires Nested(stack, events)
    decreases |events|
  {
    if events == [] then stack else After(Next(stack, events[0]), events[1..])
  }

  lemma {:induction false} NestedAppend(stack: seq<Level>, a: seq<Event>, b: seq<Event>)
    requires Nested(stack, a)
    ensures Nested(stack, a + b) == Nested(After(stack, a), b)
    ensures Nested(stack, a + b) ==> After(stack, a + b) == After(After(stack, a), b)
    decreases |a|
  {
    if a == [] {
      assert a + b == b;
    } else {
      assert (a + b)[1..] == a[1..] + b;
      NestedAppend(Next(stack, a[0]), a[1..], b);
    }
  }

  lemma {:induction false} NestedPrefix(stack: seq<Level>, events: seq<Event>, k: nat)
    requires Nested(stack, events) && k <= |events|
    ensures Nested(stack, events[..k])
    decreases k
  {
    if k > 0 {
      NestedPrefix(Next(stack, events[0]), events[1..], k - 1);
      assert events[..k][1..] == events[1..][..k - 1];
    }
  }

  // ---- What the stream says must be shown ----

  function TopLabel(stack: seq<Level>): nat {
    if InList(stack) then Label(stack[|stack| - 1]) else 0
  }

  /** All texts of the stream and the labels of its items, in order. */
  function BroughtAll(stack: seq<Level>, events: seq<Event>): Line
    requires Nested(stack, events)
    decreases |events|
  {
    if events == [] then []
    else Brought(events[0], TopLabel(stack)) + BroughtAll(Next(stack, events[0]), events[1..])
  }

  // ---- The renderer mirrors the stack ----

  ghost predicate Mirrors(st: State, stack: seq<Level>) {
    var d := DepthsOf(stack);
    && st.orderedCounters == d.counters && st.listDepth == |d.counters|
    && |st.items| == d.items
    && st.emphasisDepth == d.emphasis
    && st.strongDepth == d.strong
    && Flag(st.inHeading, st.headingBuf, d.headings)
    && Flag(st.inCodeBlock, st.codeBuf, d.codeBlocks)
    && Flag(st.inBlockQuote, st.quoteBuf, d.quotes)
    && (!st.inCodeBlock ==> st.codeLang == None)
    && !st.table.inTable
  }

  /** The flag of a block with its own buffer is up only in such a block, and while it is down
      the buffer is empty.  In a block that has had one of its own kind inside it is down. */
  ghost predicate Flag(open: bool, buffer: Line, count: nat) {
    (open ==> count > 0) && (!open ==> buffer == [])
  }

  /** An event whose subtraction or pop would hit the bottom. */
  predicate Underflows(st: State, event: Event) {
    match event
    case Start(Item(_)) => st.listDepth == 0
    case End(ListEnd) => st.listDepth == 0 || st.orderedCounters == []
    case End(ItemEnd) => st.items == []
    case End(EmphasisEnd) => st.emphasisDepth == 0
    case End(StrongEnd) => st.strongDepth == 0
    case _ => false
  }

  lemma PushDepths(stack: seq<Level>, level: Level)
    ensures DepthsOf(stack + [level]) == Deeper(DepthsOf(stack), level)
  {
    assert (stack + [level])[..|stack|] == stack;
  }

  /** An item of a list that counts: only the innermost counter moves. */
  lemma BumpedDepths(stack: seq<Level>, bumped: seq<Level>)
    requires InList(stack)
    requires bumped == stack[|stack| - 1 := stack[|stack| - 1].(items := stack[|stack| - 1].items + 1)]
    ensures var number := Label(stack[|stack| - 1]);
            var lower := DepthsOf(stack[..|stack| - 1]);
            && DepthsOf(stack) == lower.(counters := lower.counters + [number])
            && DepthsOf(bumped) == lower.(counters := lower.counters + [if number > 0 then number + 1 else 0])
  {
    assert bumped[..|stack| - 1] == stack[..|stack| - 1];
  }

  lemma FlushKeeps(st: State)
    ensures var next := FlushItem(st);
            next == st.(output := next.output, items := next.items, lastWasBlank := next.lastWasBlank)
    ensures |FlushItem(st).items| == |st.items|
  {
  }

  lemma StartListMirrors(st: State, stack: seq<Level>, start: Option<nat>)
    requires Mirrors(st, stack)
    ensures Mirrors(StartList(st, start), stack + [Level(List(start), 0)])
  {
    PushDepths(stack, Level(List(start), 0));
    FlushKeeps(st);
  }

  lemma StartMirrors(st: State, stack: seq<Level>, tag: Tag)
    requires Mirrors(st, stack) && Admits(stack, tag) && !tag.Item?
    ensures Mirrors(StepStart(st, tag), Next(stack, Start(tag)))
  {
    if tag.List? {
      StartListMirrors(st, stack, tag.start);
    } else {
      PushDepths(stack, Level(tag, 0));
    }
  }

  lemma StartItemMirrors(st: State, stack: seq<Level>, id: int)
    requires Mirrors(st, stack) && InList(stack)
    ensures Mirrors(StartItem(st, id), Next(stack, Start(Item(id))))
    ensures NextLabel(st) == TopLabel(stack) && st.listDepth > 0
  {
    var bumped := stack[|stack| - 1 := stack[|stack| - 1].(items := stack[|stack| - 1].items + 1)];
    BumpedDepths(stack, bumped);
    PushDepths(bumped, Level(Item(id), 0));
  }

  lemma EndBlockMirrors(style: Style, st: State, stack: seq<Level>, end: TagEnd)
    requires Mirrors(st, stack) && Allowed(stack, End(end))
    requires end == HeadingEnd || end == CodeBlockEnd || end == BlockQuoteEnd
    ensures Mirrors(StepEnd(style, st, end), Next(stack, End(end)))
  {
    var rest, top := stack[..|stack| - 1], stack[|stack| - 1];
    assert DepthsOf(stack) == Deeper(DepthsOf(rest), top);
    match end {
      case HeadingEnd => assert top.tag.Heading?;
      case CodeBlockEnd => assert top.tag.CodeBlock?;
      case BlockQuoteEnd => assert top.tag.BlockQuote?;
      case _ =>
    }
  }

  lemma EndListMirrors(style: Style, st: State, stack: seq<Level>, end: TagEnd)
    requires Mirrors(st, stack) && Allowed(stack, End(end))
    requires end == ListEnd || end == ItemEnd
    ensures Mirrors(StepEnd(style, st, end), Next(stack, End(end)))
    ensures !Underflows(st, End(end))
  {
    var rest, top := stack[..|stack| - 1], stack[|stack| - 1];
    assert DepthsOf(stack) == Deeper(DepthsOf(rest), top);
    if end == ListEnd {
      var counters := DepthsOf(rest).counters;
      assert (counters + [Label(top)])[..|counters|] == counters;
    } else {
      EndItemKeeps(st);
    }
  }

  lemma EndItemKeeps(st: State)
    requires st.items != []
    ensures var next := EndItem(st);
            next == st.(output := next.output, items := st.items[..|st.items| - 1], lastWasBlank := next.lastWasBlank)
  {
  }

  lemma EndMirrors(style: Style, st: State, stack: seq<Level>, end: TagEnd)
    requires Mirrors(st, stack) && Allowed(stack, End(end)) && !IsTableEvent(End(end))
    ensures Mirrors(StepEnd(style, st, end), Next(stack, End(end)))
    ensures !Underflows(st, End(end))
  {
    assert DepthsOf(stack) == Deeper(DepthsOf(stack[..|stack| - 1]), stack[|stack| - 1]);
    match end {
      case HeadingEnd => EndBlockMirrors(style, st, stack, end);
      case CodeBlockEnd => EndBlockMirrors(style, st, stack, end);
      case BlockQuoteEnd => EndBlockMirrors(style, st, stack, end);
      case ListEnd => EndListMirrors(style, st, stack, end);
      case ItemEnd => EndListMirrors(style, st, stack, end);
      case _ =>
    }
  }

  lemma LeafMirrors(style: Style, st: State, stack: seq<Level>, event: Event)
    requires Mirrors(st, stack) && !event.Start? && !event.End?
    ensures Mirrors(Step(style, st, event), stack)
  {
  }

  /** Every open tag of an admitted stack is no table part. */
  ghost predicate NoTables(stack: seq<Level>) {
    forall i :: 0 <= i < |stack| ==> !IsTableEvent(Start(stack[i].tag))
  }

  lemma StartKeepsMirror(st: State, stack: seq<Level>, tag: Tag)
    requires Mirrors(st, stack) && NoTables(stack) && Allowed(stack, Start(tag))
    ensures Mirrors(StepStart(st, tag), Next(stack, Start(tag))) && NoTables(Next(stack, Start(tag)))
    ensures tag.Item? ==> NextLabel(st) == TopLabel(stack) && st.listDepth > 0
  {
    if tag.Item? {
      StartItemMirrors(st, stack, tag.id);
    } else {
      StartMirrors(st, stack, tag);
    }
  }

  lemma EndKeepsMirror(style: Style, st: State, stack: seq<Level>, end: TagEnd)
    requires Mirrors(st, stack) && NoTables(stack) && Allowed(stack, End(end))
    ensures Mirrors(StepEnd(style, st, end), Next(stack, End(end))) && NoTables(Next(stack, End(end)))
    ensures !Underflows(st, End(end)) && !IsTableEvent(End(end))
  {
    assert !IsTableEvent(Start(stack[|stack| - 1].tag));
    EndMirrors(style, st, stack, end);
  }

  /** One event keeps the mirror, and none of its subtractions hits the bottom. */
  lemma StepMirrors(style: Style, st: State, stack: seq<Level>, event: Event)
    requires Mirrors(st, stack) && NoTables(stack) && Allowed(stack, event)
    ensures Mirrors(Step(style, st, event), Next(stack, event)) && NoTables(Next(stack, event))
    ensures !Underflows(st, event)
    ensures !IsTableEvent(event)
    ensures event.Start? && event.tag.Item? ==> NextLabel(st) == TopLabel(stack)
  {
    match event {
      case Start(tag) => StartKeepsMirror(st, stack, tag);
      case End(end) => EndKeepsMirror(style, st, stack, end);
      case _ => LeafMirrors(style, st, stack, event);
    }
  }

  lemma NothingDiscarded(st: State, stack: seq<Level>, event: Event)
    requires Mirrors(st, stack) && !Reopens(stack, event)
    ensures Discarded(st, event) == []
  {
  }

  // ---- Whole streams ----

  /** Over any well-nested stretch of events the renderer mirrors the open tags, */
  lemma {:induction false} RunMirrors(style: Style, st: State, stack: seq<Level>, events: seq<Event>)
    requires Mirrors(st, stack) && NoTables(stack) && Nested(stack, events)
    ensures Mirrors(Run(style, st, events), After(stack, events))
    decreases |events|
  {
    if events != [] {
      StepMirrors(style, st, stack, events[0]);
      RunMirrors(style, Step(style, st, events[0]), Next(stack, events[0]), events[1..]);
    }
  }

  /** How much the events throw away. */
  function Lost(m: Line -> nat, style: Style, st: State, events: seq<Event>): nat
    decreases |events|
  {
    if events == [] then 0 else m(Discarded(st, events[0])) + Lost(m, style, Step(style, st, events[0]), events[1..])
  }

  /** and its book grows by exactly what the events bring, less what they throw away. */
  lemma {:induction false} RunBalances(m: Line -> nat, style: Style, st: State, stack: seq<Level>, events: seq<Event>)
    requires Counting(m) && Mirrors(st, stack) && NoTables(stack) && Nested(stack, events)
    ensures Ledger(m, Run(style, st, events)) + Lost(m, style, st, events) == Ledger(m, st) + m(BroughtAll(stack, events))
    decreases |events|
  {
    if events != [] {
      StepMirrors(style, st, stack, events[0]);
      StepBalances(m, style, st, events[0]);
      RunBalances(m, style, Step(style, st, events[0]), Next(stack, events[0]), events[1..]);
    }
  }

  /** No block opens inside one of its own kind. */
  predicate Separate(stack: seq<Level>, events: seq<Event>)
    requires Nested(stack, events)
    decreases |events|
  {
    events == [] || (!Reopens(stack, events[0]) && Separate(Next(stack, events[0]), events[1..]))
  }

  lemma {:induction false} SeparateLosesNothing(m: Line -> nat, style: Style, st: State, stack: seq<Level>, events: seq<Event>)
    requires Counting(m) && Mirrors(st, stack) && NoTables(stack) && Nested(stack, events) && Separate(stack, events)
    ensures Lost(m, style, st, events) == 0
    decreases |events|
  {
    if events != [] {
      StepMirrors(style, st, stack, events[0]);
      NothingDiscarded(st, stack, events[0]);
      SeparateLosesNothing(m, style, Step(style, st, events[0]), Next(stack, events[0]), events[1..]);
    }
  }

  /** Throughout a well-nested stream: after any number of its events the depths, flags,
      counters and frames mirror the tags open at that point, and the event that comes
      next does not underflow. */
  lemma AlwaysMirrors(style: Style, events: seq<Event>, k: nat)
    requires Nested([], events) && k <= |events|
    ensures Nested([], events[..k])
    ensures Mirrors(Run(style, REST, events[..k]), After([], events[..k]))
    ensures k < |events| ==> !Underflows(Run(style, REST, events[..k]), events[k])
  {
    NestedPrefix([], events, k);
    RunMirrors(style, REST, [], events[..k]);
    if k < |events| {
      NextAllowed(events, k);
      NestedNoTables([], events[..k]);
      StepMirrors(style, Run(style, REST, events[..k]), After([], events[..k]), events[k]);
    }
  }

  lemma NextAllowed(events: seq<Event>, k: nat)
    requires Nested([], events) && k < |events| && Nested([], events[..k])
    ensures Allowed(After([], events[..k]), events[k])
  {
    assert events == events[..k] + events[k..];
    NestedAppend([], events[..k], events[k..]);
  }

  lemma {:induction false} NestedNoTables(stack: seq<Level>, events: seq<Event>)
    requires NoTables(stack) && Nested(stack, events)
    ensures NoTables(After(stack, events))
    decreases |events|
  {
    if events != [] {
      NestedNoTables(Next(stack, events[0]), events[1..]);
    }
  }

  /** All buffers and stacks empty, all flags false, all depths zero. */
  predicate AtRest(st: State) {
    && st.emphasisDepth == st.strongDepth == st.listDepth == 0
    && st.orderedCounters == [] && st.items == []
    && !st.inCodeBlock && !st.inHeading && !st.inBlockQuote && !st.table.inTable
    && st.codeBuf == [] && st.headingBuf == [] && st.quoteBuf == [] && st.codeLang == None
  }

  lemma MirrorOfNothing(st: State)
    requires Mirrors(st, [])
    ensures AtRest(st)
  {
  }

  lemma LedgerAtRest(m: Line -> nat, st: State)
    requires Counting(m) && AtRest(st)
    ensures Ledger(m, st) == m(st.output)
  {
  }

  lemma OutputCounts(m: Line -> nat, style: Style, events: seq<Event>)
    requires Counting(m) && Nested([], events) && After([], events) == []
    ensures m(Run(style, REST, events).output) + Lost(m, style, REST, events) == m(BroughtAll([], events))
  {
    RunMirrors(style, REST, [], events);
    MirrorOfNothing(Run(style, REST, events));
    RunBalances(m, style, REST, [], events);
    LedgerAtRest(m, REST);
    LedgerAtRest(m, Run(style, REST, events));
  }

  /** After any well-nested stream, self-nested blocks or not, the renderer is at rest. */
  lemma EndsAtRest(style: Style, events: seq<Event>)
    requires Nested([], events) && After([], events) == []
    ensures AtRest(Run(style, REST, events))
  {
    RunMirrors(style, REST, [], events);
    MirrorOfNothing(Run(style, REST, events));
  }

  lemma SeparateShowsAll(k: Line -> Line, style: Style, events: seq<Event>)
    requires Reading(k, true) && Nested([], events) && After([], events) == [] && Separate([], events)
    ensures multiset(k(Run(style, REST, events).output)) == multiset(k(BroughtAll([], events)))
  {
    forall g: Glyph
      ensures multiset(k(Run(style, REST, events).output))[g] == multiset(k(BroughtAll([], events)))[g]
    {
      CountedCounts(k, true, g);
      OutputCounts(Counted(k, g), style, events);
      SeparateLosesNothing(Counted(k, g), style, REST, [], events);
    }
  }

  /** For every well-nested stream without tables in which no heading, code block or quote
      contains one of its own kind: each letter of each text and inline code and the label of
      each list item reach the output exactly once, and the renderer ends at rest. */
  lemma NothingLostNothingTwice(style: Style, events: seq<Event>)
    requires Nested([], events) && After([], events) == [] && Separate([], events)
    ensures multiset(Keep(Run(style, REST, events).output, true)) == multiset(Keep(BroughtAll([], events), true))
    ensures AtRest(Run(style, REST, events))
  {
    EndsAtRest(style, events);
    KeepReads(true);
    SeparateShowsAll(Keeping(true), style, events);
  }
}
