/** Streams without tables: when letters, and labels if asked for, come out in the order they
    came in, the exact condition read off the stream of events alone. */
module RendererSource {
  import opened Seqs
  import opened Glyphs
  import opened RendererModel
  import opened RendererLedger
  import opened RendererNesting
  import opened RendererTrack
  import opened RendererHeld
  import opened RendererStreams
  import opened RendererLate
  import opened RendererSpills

  /** Nothing is spilt and nothing overtaken. */
  predicate Smooth(t: Track, events: seq<Event>, labels: bool)
    decreases |events|
  {
    events == []
    || (!Spills(t, events[0]) && !Overtakes(t, events[0], labels) && Smooth(Scan(t, events[0]), events[1..], labels))
  }

  /** No inline code stands in a code block. */
  predicate CodeOutsideCode(t: Track, events: seq<Event>)
    decreases |events|
  {
    events == []
    || (!(events[0].Code? && t.code.open) && CodeOutsideCode(Scan(t, events[0]), events[1..]))
  }

  lemma {:induction false} PlainSmooth(style: Style, labels: bool, t: Track, events: seq<Event>)
    ensures var ps := AllPlain(events);
            LosesNothing(style, labels, t, ps) && OvertakesNothing(labels, t, ps) <==> Smooth(t, events, labels)
    decreases |events|
  {
    if events != [] {
      assert AllPlain(events)[1..] == AllPlain(events[1..]);
      PlainSmooth(style, labels, Scan(t, events[0]), events[1..]);
    }
  }

  lemma {:induction false} PlainCode(t: Track, events: seq<Event>)
    ensures CodeOutsidePieces(t, AllPlain(events)) <==> CodeOutsideCode(t, events)
    decreases |events|
  {
    if events != [] {
      assert AllPlain(events)[1..] == AllPlain(events[1..]);
      PlainCode(Scan(t, events[0]), events[1..]);
    }
  }

  /** On a smooth stream the letters, and labels if asked for, come out in the order they came
      in. */
  lemma SmoothComesOutInOrder(style: Style, events: seq<Event>, labels: bool)
    requires Nested([], events) && After([], events) == [] && CodeOutsideCode(NOTHING_OPEN, events)
    requires Smooth(NOTHING_OPEN, events, labels)
    ensures Keep(Run(style, REST, events).output, labels) == Keep(BroughtAll([], events), labels)
  {
    PlainStream(events);
    PlainNesting([], events);
    PlainCode(NOTHING_OPEN, events);
    PlainSmooth(style, labels, NOTHING_OPEN, events);
    SmoothIsInOrder(style, AllPlain(events), labels);
  }

  /** For every well-nested stream without tables and without inline code in code blocks, whose
      letters (and labels) are all different: they come out in the order they came in if and only
      if nothing is spilt and nothing is written while an earlier one is still held. */
  lemma SourceOrderIff(style: Style, events: seq<Event>, labels: bool)
    requires Nested([], events) && After([], events) == [] && CodeOutsideCode(NOTHING_OPEN, events)
    requires Distinct(Keep(BroughtAll([], events), labels))
    ensures Keep(Run(style, REST, events).output, labels) == Keep(BroughtAll([], events), labels)
            <==> Smooth(NOTHING_OPEN, events, labels)
  {
    PlainStream(events);
    PlainNesting([], events);
    PlainCode(NOTHING_OPEN, events);
    PlainSmooth(style, labels, NOTHING_OPEN, events);
    InOrderIff(style, AllPlain(events), labels);
  }

  // ---- A code block in a list item ----

  /** A list with one item, of some text and a code block. */
  function ItemWithCode(held: seq<Letter>, code: seq<Letter>): seq<Event> {
    [Start(List(None))] + ([Start(Item(0))] + ([Text(held)] + CodeAndEnd(code)))
  }

  function CodeAndEnd(code: seq<Letter>): seq<Event> {
    [Start(CodeBlock(Indented))] + ([Text(code)] + ([End(CodeBlockEnd)] + ITEM_END))
  }

  const ITEM_END: seq<Event> := [End(ItemEnd)] + [End(ListEnd)]

  lemma OneMore(style: Style, st: State, event: Event, rest: seq<Event>)
    ensures Run(style, st, [event] + rest) == Run(style, Step(style, st, event), rest)
  {
    assert ([event] + rest)[1..] == rest;
  }

  lemma CodeIsNested(stack: seq<Level>, code: seq<Letter>)
    requires stack == [Level(List(None), 1), Level(Item(0), 0)]
    ensures Nested(stack, CodeAndEnd(code)) && After(stack, CodeAndEnd(code)) == []
    ensures BroughtAll(stack, CodeAndEnd(code)) == Inked(code)
  {
    var list, block := [stack[0]], stack + [Level(CodeBlock(Indented), 0)];
    assert Nested(list, [End(ListEnd)]) && After(list, [End(ListEnd)]) == [];
    assert stack[..1] == list && block[..2] == stack;
    NestedMore(stack, End(ItemEnd), [End(ListEnd)]);
    NestedMore(block, End(CodeBlockEnd), ITEM_END);
    NestedMore(block, Text(code), [End(CodeBlockEnd)] + ITEM_END);
    NestedMore(stack, Start(CodeBlock(Indented)), [Text(code)] + ([End(CodeBlockEnd)] + ITEM_END));
    assert BroughtAll(list, [End(ListEnd)]) == [] + [] && Inked(code) + [] == Inked(code);
  }

  lemma ItemIsNested(held: seq<Letter>, rest: seq<Event>)
    requires Nested([Level(List(None), 1), Level(Item(0), 0)], rest) && After([Level(List(None), 1), Level(Item(0), 0)], rest) == []
    ensures var events := [Start(List(None))] + ([Start(Item(0))] + ([Text(held)] + rest));
            Nested([], events) && After([], events) == []
            && BroughtAll([], events) == [Mark(0, 0)] + (Inked(held) + BroughtAll([Level(List(None), 1), Level(Item(0), 0)], rest))
  {
    var list, item := Level(List(None), 1), Level(Item(0), 0);
    NestedMore([list, item], Text(held), rest);
    assert Next([Level(List(None), 0)], Start(Item(0))) == [list, item];
    NestedMore([Level(List(None), 0)], Start(Item(0)), [Text(held)] + rest);
    assert Next([], Start(List(None))) == [Level(List(None), 0)];
    NestedMore([], Start(List(None)), [Start(Item(0))] + ([Text(held)] + rest));
  }

  function HeldFrame(held: seq<Letter>): Frame {
    Frame(ItemPrefix(1, 0, 0).0, ItemPrefix(1, 0, 0).1, Inked(held), false)
  }

  /** In the item, with its text. */
  function Holding(held: seq<Letter>): State {
    REST.(listDepth := 1, orderedCounters := [0], items := [HeldFrame(held)])
  }

  lemma RunToHolding(style: Style, held: seq<Letter>, code: seq<Letter>)
    ensures Run(style, REST, ItemWithCode(held, code)) == Run(style, Holding(held), CodeAndEnd(code))
  {
    var listed := REST.(listDepth := 1, orderedCounters := [0]);
    OneMore(style, REST, Start(List(None)), [Start(Item(0))] + ([Text(held)] + CodeAndEnd(code)));
    assert Step(style, REST, Start(List(None))) == listed;
    OneMore(style, listed, Start(Item(0)), [Text(held)] + CodeAndEnd(code));
    ItemBegun(style, listed);
    OneMore(style, Holding([]), Text(held), CodeAndEnd(code));
    TextHeld(style, held);
  }

  lemma TextHeld(style: Style, held: seq<Letter>)
    ensures Step(style, Holding([]), Text(held)) == Holding(held)
  {
    assert Inked([]) + Inked(held) == Inked(held);
    assert AppendToItem(Holding([]), Inked(held)).items == [HeldFrame(held)];
  }

  lemma ItemBegun(style: Style, listed: State)
    requires listed == REST.(listDepth := 1, orderedCounters := [0])
    ensures Step(style, listed, Start(Item(0))) == Holding([])
  {
    assert Inked([]) == [];
  }

  lemma RunPastCode(style: Style, st: State, code: seq<Letter>)
    requires st.output == [] && st.codeBuf == [] && !st.inCodeBlock && st.codeLang == None && !st.table.inTable
    ensures Run(style, st, CodeAndEnd(code))
         == Run(style, st.(output := CodeLines(None, Inked(code)), lastWasBlank := false), ITEM_END)
  {
    var coding := st.(inCodeBlock := true);
    assert [] + Inked(code) == Inked(code) && [] + CodeLines(None, Inked(code)) == CodeLines(None, Inked(code));
    OneMore(style, st, Start(CodeBlock(Indented)), [Text(code)] + ([End(CodeBlockEnd)] + ITEM_END));
    OneMore(style, coding, Text(code), [End(CodeBlockEnd)] + ITEM_END);
    OneMore(style, coding.(codeBuf := Inked(code)), End(CodeBlockEnd), ITEM_END);
  }

  lemma RunToEnd(style: Style, st: State, frame: Frame)
    requires st.items == [frame] && !frame.emitted
    ensures Run(style, st, ITEM_END).output == st.output + ItemLines(frame)
  {
    OneMore(style, st, End(ItemEnd), [End(ListEnd)]);
    assert [End(ListEnd)] == [End(ListEnd)] + [];
    OneMore(style, EndItem(st), End(ListEnd), []);
  }

  lemma ReadItemWithCode(k: Line -> Line, style: Style, held: seq<Letter>, code: seq<Letter>)
    requires Reading(k, false)
    ensures k(Run(style, REST, ItemWithCode(held, code)).output) == k(Inked(code)) + k(Inked(held))
  {
    var st, frame := Holding(held), HeldFrame(held);
    RunToHolding(style, held, code);
    RunPastCode(style, st, code);
    RunToEnd(style, st.(output := CodeLines(None, Inked(code)), lastWasBlank := false), frame);
    assert k(frame.prefix) == k([Mark(0, 0)]);
    assert k(CodeLines(None, Inked(code)) + ItemLines(frame)) == k(Inked(code)) + ([] + k(Inked(held)));
  }

  lemma KeepBehindMark(a: Line, b: Line)
    ensures Keep([Mark(0, 0)] + (a + b), false) == Keep(a, false) + Keep(b, false)
  {
    KeepAppend(a, b, false);
    KeepNothing([Mark(0, 0)], false);
    KeepAppend([Mark(0, 0)], a + b, false);
  }

  /** The code block comes out before the text in front of it. */
  lemma CodeOvertakesItem(style: Style, held: seq<Letter>, code: seq<Letter>)
    ensures Nested([], ItemWithCode(held, code)) && After([], ItemWithCode(held, code)) == []
    ensures Keep(Run(style, REST, ItemWithCode(held, code)).output, false) == Keep(Inked(code), false) + Keep(Inked(held), false)
    ensures Keep(BroughtAll([], ItemWithCode(held, code)), false) == Keep(Inked(held), false) + Keep(Inked(code), false)
  {
    CodeIsNested([Level(List(None), 1), Level(Item(0), 0)], code);
    ItemIsNested(held, CodeAndEnd(code));
    KeepReads(false);
    ReadItemWithCode(Keeping(false), style, held, code);
    KeepBehindMark(Inked(held), Inked(code));
  }

  // ---- An item that begins with a list ----

  const OUTER := Level(Item(0), 0)
  const INNER := Level(Item(1), 0)
  const BEGUN := Level(List(None), 0)
  const LISTED := Level(List(None), 1)

  /** "- - a": a list in an item that has no text of its own. */
  function ListInItem(text: seq<Letter>): seq<Event> {
    [Start(List(None))] + ([Start(Item(0))] + InnerList(text))
  }

  function InnerList(text: seq<Letter>): seq<Event> {
    [Start(List(None))] + ([Start(Item(1))] + ([Text(text)] + BOTH_END))
  }

  const BOTH_END: seq<Event> := [End(ItemEnd)] + ([End(ListEnd)] + ITEM_END)

  lemma BothEnd()
    ensures var stack := [LISTED, OUTER, LISTED, INNER];
            Nested(stack, BOTH_END) && After(stack, BOTH_END) == [] && BroughtAll(stack, BOTH_END) == []
  {
    assert Nested([LISTED], [End(ListEnd)]) && After([LISTED], [End(ListEnd)]) == []
           && BroughtAll([LISTED], [End(ListEnd)]) == [] + [];
    assert [LISTED, OUTER][..1] == [LISTED] && [LISTED, OUTER, LISTED][..2] == [LISTED, OUTER];
    assert [LISTED, OUTER, LISTED, INNER][..3] == [LISTED, OUTER, LISTED];
    NestedMore([LISTED, OUTER], End(ItemEnd), [End(ListEnd)]);
    NestedMore([LISTED, OUTER, LISTED], End(ListEnd), ITEM_END);
    NestedMore([LISTED, OUTER, LISTED, INNER], End(ItemEnd), [End(ListEnd)] + ITEM_END);
  }

  lemma InnerListIsNested(text: seq<Letter>)
    ensures var stack := [LISTED, OUTER];
            Nested(stack, InnerList(text)) && After(stack, InnerList(text)) == []
            && BroughtAll(stack, InnerList(text)) == [Mark(0, 1)] + Inked(text)
  {
    BothEnd();
    NestedMore([LISTED, OUTER, LISTED, INNER], Text(text), BOTH_END);
    assert Next([LISTED, OUTER, BEGUN], Start(Item(1))) == [LISTED, OUTER, LISTED, INNER];
    NestedMore([LISTED, OUTER, BEGUN], Start(Item(1)), [Text(text)] + BOTH_END);
    assert Next([LISTED, OUTER], Start(List(None))) == [LISTED, OUTER, BEGUN];
    NestedMore([LISTED, OUTER], Start(List(None)), [Start(Item(1))] + ([Text(text)] + BOTH_END));
    assert Inked(text) + [] == Inked(text);
  }

  lemma ListInItemIsNested(text: seq<Letter>)
    ensures Nested([], ListInItem(text)) && After([], ListInItem(text)) == []
    ensures BroughtAll([], ListInItem(text)) == [Mark(0, 0)] + ([Mark(0, 1)] + Inked(text))
  {
    InnerListIsNested(text);
    assert Next([BEGUN], Start(Item(0))) == [LISTED, OUTER];
    NestedMore([BEGUN], Start(Item(0)), InnerList(text));
    assert Next([], Start(List(None))) == [BEGUN];
    NestedMore([], Start(List(None)), [Start(Item(0))] + InnerList(text));
  }

  function InnerFrame(text: seq<Letter>): Frame {
    Frame(ItemPrefix(2, 0, 1).0, ItemPrefix(2, 0, 1).1, Inked(text), false)
  }

  /** In the inner item, with its text. */
  function InBoth(text: seq<Letter>): State {
    REST.(listDepth := 2, orderedCounters := [0, 0], items := [HeldFrame([]), InnerFrame(text)])
  }

  lemma InnerBegins(style: Style)
    ensures Step(style, Step(style, Holding([]), Start(List(None))), Start(Item(1))) == InBoth([])
  {
    assert Inked([]) == [];
    assert FlushItem(Holding([])) == Holding([]);
  }

  lemma InnerText(style: Style, text: seq<Letter>)
    ensures Step(style, InBoth([]), Text(text)) == InBoth(text)
  {
    assert Inked([]) + Inked(text) == Inked(text);
    assert AppendToItem(InBoth([]), Inked(text)).items == [HeldFrame([]), InnerFrame(text)];
  }

  lemma RunToInBoth(style: Style, text: seq<Letter>)
    ensures Run(style, REST, ListInItem(text)) == Run(style, InBoth(text), BOTH_END)
  {
    var listed := REST.(listDepth := 1, orderedCounters := [0]);
    OneMore(style, REST, Start(List(None)), [Start(Item(0))] + InnerList(text));
    assert Step(style, REST, Start(List(None))) == listed;
    OneMore(style, listed, Start(Item(0)), InnerList(text));
    ItemBegun(style, listed);
    OneMore(style, Holding([]), Start(List(None)), [Start(Item(1))] + ([Text(text)] + BOTH_END));
    OneMore(style, Step(style, Holding([]), Start(List(None))), Start(Item(1)), [Text(text)] + BOTH_END);
    InnerBegins(style);
    OneMore(style, InBoth([]), Text(text), BOTH_END);
    InnerText(style, text);
  }

  lemma RunBothEnd(style: Style, text: seq<Letter>)
    ensures Run(style, InBoth(text), BOTH_END).output == ItemLines(InnerFrame(text)) + ItemLines(HeldFrame([]))
  {
    var st := InBoth(text);
    OneMore(style, st, End(ItemEnd), [End(ListEnd)] + ITEM_END);
    var popped := EndItem(st);
    assert popped.items == [HeldFrame([])] && popped.output == [] + ItemLines(InnerFrame(text));
    OneMore(style, popped, End(ListEnd), ITEM_END);
    RunToEnd(style, Step(style, popped, End(ListEnd)), HeldFrame([]));
  }

  lemma ReadListInItem(k: Line -> Line, style: Style, text: seq<Letter>)
    requires Reading(k, true)
    ensures k(Run(style, REST, ListInItem(text)).output) == k([Mark(0, 1)]) + k(Inked(text)) + k([Mark(0, 0)])
  {
    RunToInBoth(style, text);
    RunBothEnd(style, text);
    var first, last := InnerFrame(text), HeldFrame([]);
    assert k(first.prefix) == k([Mark(0, 1)]) && k(last.prefix) == k([Mark(0, 0)]);
    assert Inked([]) == [] && k([Mark(0, 0)]) + [] == k([Mark(0, 0)]);
    assert k(ItemLines(first) + ItemLines(last)) == k(ItemLines(first)) + k(ItemLines(last));
  }

  lemma KeepMark(id: int)
    ensures Keep([Mark(0, id)], true) == [Mark(0, id)]
  {
    assert [Mark(0, id)][1..] == [];
  }

  /** The label of the inner item comes out before that of the item it is in. */
  lemma InnerLabelIsFirst(style: Style, text: seq<Letter>)
    ensures Nested([], ListInItem(text)) && After([], ListInItem(text)) == []
    ensures Keep(Run(style, REST, ListInItem(text)).output, true) == [Mark(0, 1)] + Keep(Inked(text), true) + [Mark(0, 0)]
    ensures Keep(BroughtAll([], ListInItem(text)), true) == [Mark(0, 0)] + ([Mark(0, 1)] + Keep(Inked(text), true))
  {
    ListInItemIsNested(text);
    KeepReads(true);
    ReadListInItem(Keeping(true), style, text);
    KeepMark(0);
    KeepMark(1);
    KeepAppend([Mark(0, 1)], Inked(text), true);
    KeepAppend([Mark(0, 0)], [Mark(0, 1)] + Inked(text), true);
  }
}
