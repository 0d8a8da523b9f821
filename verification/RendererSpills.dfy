/** Streams without tables: when every letter and every item label is shown exactly once, the
    exact condition read off the stream of events alone. */
module RendererSpills {
  import opened Seqs
  import opened Glyphs
  import opened RendererModel
  import opened RendererLedger
  import opened RendererNesting
  import opened RendererTrack
  import opened RendererStreams

  // ---- A stream of events alone ----

  function AllPlain(events: seq<Event>): seq<Piece> {
    if events == [] then [] else [Plain(events[0])] + AllPlain(events[1..])
  }

  lemma {:induction false} PlainStream(events: seq<Event>)
    ensures Stream(AllPlain(events)) == events
  {
    if events != [] {
      assert AllPlain(events)[1..] == AllPlain(events[1..]);
      PlainStream(events[1..]);
    }
  }

  lemma {:induction false} PlainNesting(stack: seq<Level>, events: seq<Event>)
    requires Nested(stack, events)
    ensures var ps := AllPlain(events);
            NestedPieces(stack, ps) && AfterPieces(stack, ps) == After(stack, events)
            && GivenAll(stack, ps) == BroughtAll(stack, events)
    decreases |events|
  {
    if events != [] {
      assert AllPlain(events)[1..] == AllPlain(events[1..]);
      PlainNesting(Next(stack, events[0]), events[1..]);
    }
  }

  lemma {:induction false} PlainLoses(style: Style, labels: bool, t: Track, events: seq<Event>)
    ensures LosesNothing(style, labels, t, AllPlain(events)) <==> SpillsNothing(t, events)
    decreases |events|
  {
    if events != [] {
      assert AllPlain(events)[1..] == AllPlain(events[1..]);
      PlainLoses(style, labels, Scan(t, events[0]), events[1..]);
    }
  }

  /** For every well-nested stream without tables: each letter of each text and inline code and
      the label of each list item reach the output exactly once, and nothing else is shown as
      such, if and only if no heading, code block or quote opens while a block of its own kind
      around it holds letters. */
  lemma AllShownIffNothingSpilt(style: Style, events: seq<Event>)
    requires Nested([], events) && After([], events) == []
    ensures multiset(Keep(Run(style, REST, events).output, true)) == multiset(Keep(BroughtAll([], events), true))
            <==> SpillsNothing(NOTHING_OPEN, events)
  {
    PlainStream(events);
    PlainNesting([], events);
    PlainLoses(style, true, NOTHING_OPEN, events);
    AllShownIff(style, AllPlain(events));
  }

  // ---- A quote in a quote ----

  /** A quote with a paragraph, and in it another quote with a paragraph. */
  function QuoteInQuote(outer: seq<Letter>, inner: seq<Letter>): seq<Event> {
    [Start(BlockQuote)] + (ParagraphOf(outer)
    + ([Start(BlockQuote)] + (ParagraphOf(inner)
    + ([End(BlockQuoteEnd)] + [End(BlockQuoteEnd)]))))
  }

  function ParagraphOf(text: seq<Letter>): seq<Event> {
    [Start(Paragraph)] + ([Text(text)] + [End(ParagraphEnd)])
  }

  lemma NestedMore(stack: seq<Level>, event: Event, rest: seq<Event>)
    requires Allowed(stack, event) && Nested(Next(stack, event), rest)
    ensures Nested(stack, [event] + rest) && After(stack, [event] + rest) == After(Next(stack, event), rest)
    ensures BroughtAll(stack, [event] + rest) == Brought(event, TopLabel(stack)) + BroughtAll(Next(stack, event), rest)
  {
    assert ([event] + rest)[1..] == rest;
  }

  lemma ParagraphIsNested(stack: seq<Level>, text: seq<Letter>, rest: seq<Event>)
    requires Nested(stack, rest)
    ensures Nested(stack, ParagraphOf(text) + rest) && After(stack, ParagraphOf(text) + rest) == After(stack, rest)
  {
    var inner := stack + [Level(Paragraph, 0)];
    assert inner[..|stack|] == stack;
    NestedMore(inner, End(ParagraphEnd), rest);
    NestedMore(inner, Text(text), [End(ParagraphEnd)] + rest);
    NestedMore(stack, Start(Paragraph), [Text(text)] + ([End(ParagraphEnd)] + rest));
    assert ParagraphOf(text) + rest == [Start(Paragraph)] + ([Text(text)] + ([End(ParagraphEnd)] + rest));
  }

  lemma QuoteInQuoteIsNested(outer: seq<Letter>, inner: seq<Letter>)
    ensures Nested([], QuoteInQuote(outer, inner)) && After([], QuoteInQuote(outer, inner)) == []
  {
    var quote, close := Level(BlockQuote, 0), [End(BlockQuoteEnd)];
    assert Nested([quote], close) && After([quote], close) == [];
    assert Next([quote, quote], End(BlockQuoteEnd)) == [quote];
    NestedMore([quote, quote], End(BlockQuoteEnd), close);
    ParagraphIsNested([quote, quote], inner, close + close);
    assert Next([quote], Start(BlockQuote)) == [quote, quote];
    NestedMore([quote], Start(BlockQuote), ParagraphOf(inner) + (close + close));
    ParagraphIsNested([quote], outer, [Start(BlockQuote)] + (ParagraphOf(inner) + (close + close)));
    assert Next([], Start(BlockQuote)) == [quote];
    NestedMore([], Start(BlockQuote), ParagraphOf(outer) + ([Start(BlockQuote)] + (ParagraphOf(inner) + (close + close))));
  }

  lemma SpillsLater(t: Track, event: Event, rest: seq<Event>)
    requires !SpillsNothing(Scan(t, event), rest)
    ensures !SpillsNothing(t, [event] + rest)
  {
    assert ([event] + rest)[1..] == rest;
  }

  lemma ParagraphSpills(t: Track, text: seq<Letter>, rest: seq<Event>)
    requires t == NOTHING_OPEN.(quote := OPENED) && HasLetters(text)
    requires !SpillsNothing(t.(quote := Buffer(true, true)), rest)
    ensures !SpillsNothing(t, ParagraphOf(text) + rest)
  {
    SpillsLater(t.(quote := Buffer(true, true)), End(ParagraphEnd), rest);
    SpillsLater(t, Text(text), [End(ParagraphEnd)] + rest);
    SpillsLater(t, Start(Paragraph), [Text(text)] + ([End(ParagraphEnd)] + rest));
    assert ParagraphOf(text) + rest == [Start(Paragraph)] + ([Text(text)] + ([End(ParagraphEnd)] + rest));
  }

  /** The text of a quote before a quote inside it is lost. */
  lemma QuoteInQuoteLosesText(style: Style, outer: seq<Letter>, inner: seq<Letter>)
    requires HasLetters(outer)
    ensures var events := QuoteInQuote(outer, inner);
            && Nested([], events) && After([], events) == []
            && multiset(Keep(Run(style, REST, events).output, true)) != multiset(Keep(BroughtAll([], events), true))
  {
    QuoteInQuoteIsNested(outer, inner);
    AllShownIffNothingSpilt(style, QuoteInQuote(outer, inner));
    var rest := [Start(BlockQuote)] + (ParagraphOf(inner) + ([End(BlockQuoteEnd)] + [End(BlockQuoteEnd)]));
    assert !SpillsNothing(NOTHING_OPEN.(quote := Buffer(true, true)), rest);
    ParagraphSpills(NOTHING_OPEN.(quote := OPENED), outer, rest);
    SpillsLater(NOTHING_OPEN, Start(BlockQuote), ParagraphOf(outer) + rest);
  }
}
