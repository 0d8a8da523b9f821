/** The line structure of what the renderer writes: which letters stand side by side, and
    where a line ends between them.

    This reading keeps letters and line ends, whether the document brought them or the
    renderer added them, and sees nothing else. */
module RendererLines {
  import opened Seqs
  import opened Glyphs
  import opened RendererModel

  datatype Sign = Shown(letter: Letter) | LineEnd

  function SignOf(g: Glyph): seq<Sign> {
    if Is(g, '\n') then [LineEnd]
    else if g.Ink? && g.letter.ch != '\r' then [Shown(g.letter)]
    else []
  }

  function Signs(gs: Line): seq<Sign> {
    if gs == [] then [] else SignOf(gs[0]) + Signs(gs[1..])
  }

  /** What a reader needs at the end of a text for its last line to be ended. */
  function Ending(text: Line): seq<Sign> {
    if text == [] || Is(text[|text| - 1], '\n') then [] else [LineEnd]
  }

  lemma {:induction false} SignsAppend(a: Line, b: Line)
    ensures Signs(a + b) == Signs(a) + Signs(b)
  {
    if a == [] {
      assert a + b == b;
    } else {
      assert (a + b)[1..] == a[1..] + b;
      SignsAppend(a[1..], b);
    }
  }

  lemma SignsAppend3(a: Line, b: Line, c: Line)
    ensures Signs(a + b + c) == Signs(a) + Signs(b) + Signs(c)
  {
    SignsAppend(a + b, c);
    SignsAppend(a, b);
  }

  lemma {:induction false} NoSigns(gs: Line)
    requires forall i :: 0 <= i < |gs| ==> SignOf(gs[i]) == []
    ensures Signs(gs) == []
  {
    if gs != [] {
      NoSigns(gs[1..]);
    }
  }

  lemma OneSign(g: Glyph)
    ensures Signs([g]) == SignOf(g)
  {
    assert [g][1..] == [];
  }

  lemma SignsStyled(face: Face, text: Line)
    ensures Signs(Styled(face, text)) == Signs(text)
  {
    SignsAppend3([Open(face)], text, [Close(face)]);
    OneSign(Open(face));
    OneSign(Close(face));
  }

  // ---- Lines ----

  /** The lines one by one, each with its end. */
  function EachEnded(lines: seq<Line>): seq<Sign> {
    if lines == [] then [] else Signs(lines[0]) + [LineEnd] + EachEnded(lines[1..])
  }

  lemma {:induction false} EachEndedSnoc(lines: seq<Line>, last: Line)
    ensures EachEnded(lines + [last]) == EachEnded(lines) + (Signs(last) + [LineEnd])
  {
    if lines == [] {
      assert (lines + [last])[1..] == [];
    } else {
      EachEndedSnoc(lines[1..], last);
      assert (lines + [last])[1..] == lines[1..] + [last];
      Associate(Signs(lines[0]) + [LineEnd], EachEnded(lines[1..]), Signs(last) + [LineEnd]);
    }
  }

  /** Splitting a text leaves its lines, and every cut is a line end. */
  lemma {:induction false} SignsSplit(gs: Line)
    ensures EachEnded(Split(gs)) == Signs(gs) + [LineEnd]
  {
    if gs != [] {
      var rest := Split(gs[1..]);
      SignsSplit(gs[1..]);
      if Is(gs[0], '\n') {
        assert Split(gs)[0] == [] && Split(gs)[1..] == rest;
      } else {
        assert Split(gs)[0] == [gs[0]] + rest[0] && Split(gs)[1..] == rest[1..];
        SignsAppend([gs[0]], rest[0]);
        OneSign(gs[0]);
        Associate(SignOf(gs[0]), Signs(rest[0]), [LineEnd]);
        Associate(SignOf(gs[0]), Signs(rest[0]) + [LineEnd], EachEnded(rest[1..]));
        Associate(SignOf(gs[0]), Signs(gs[1..]), [LineEnd]);
      }
    } else {
      assert Split(gs)[0] == [] && Split(gs)[1..] == [];
    }
  }

  lemma SignsWithoutReturn(line: Line)
    ensures Signs(WithoutReturn(line)) == Signs(line)
  {
    if WithoutReturn(line) != line {
      var n := |line| - 1;
      assert line == line[..n] + [line[n]];
      SignsAppend(line[..n], [line[n]]);
      OneSign(line[n]);
    }
  }

  lemma {:induction false} WithoutReturnsEnded(lines: seq<Line>)
    ensures EachEnded(WithoutReturns(lines)) == EachEnded(lines)
  {
    if lines != [] {
      WithoutReturnsEnded(lines[1..]);
      SignsWithoutReturn(lines[0]);
    }
  }

  function Last<T>(items: seq<T>): T
    requires items != []
  {
    items[|items| - 1]
  }

  lemma SplitNext(g: Glyph, rest: Line)
    ensures var pieces := Split(rest);
            Split([g] + rest) == if Is(g, '\n') then [[]] + pieces else [[g] + pieces[0]] + pieces[1..]
  {
    assert ([g] + rest)[1..] == rest;
  }

  lemma LastOfNext(first: Line, g: Glyph, pieces: seq<Line>)
    requires pieces != []
    ensures Last([first] + pieces) == Last(pieces)
    ensures Last([[g] + pieces[0]] + pieces[1..]) == (if |pieces| == 1 then [g] + pieces[0] else Last(pieces))
  {
  }

  lemma LastPieceNext(g: Glyph, rest: Line)
    requires rest != []
    requires Last(Split(rest)) == [] <==> Is(Last(rest), '\n')
    ensures Last(Split([g] + rest)) == [] <==> Is(Last(rest), '\n')
  {
    var pieces := Split(rest);
    SplitNext(g, rest);
    LastOfNext([], g, pieces);
    if |pieces| == 1 {
      NoPieceNoEnd(rest);
    }
  }

  lemma {:induction false} NoPieceNoEnd(gs: Line)
    requires |Split(gs)| == 1 && gs != []
    ensures !Is(Last(gs), '\n')
  {
    if |gs| > 1 {
      NoPieceNoEnd(gs[1..]);
    }
  }

  /** The last piece is empty exactly if the text is, or ends with a line end. */
  lemma {:induction false} LastPiece(gs: Line)
    ensures Last(Split(gs)) == [] <==> gs == [] || Is(Last(gs), '\n')
  {
    if |gs| == 1 {
      assert gs[1..] == [] && Split(gs[1..]) == [[]];
    } else if gs != [] {
      LastPiece(gs[1..]);
      LastPieceNext(gs[0], gs[1..]);
      assert gs == [gs[0]] + gs[1..];
    }
  }

  lemma SameFront<T>(a: seq<T>, b: seq<T>, last: T)
    requires a + [last] == b + [last]
    ensures a == b
  {
    assert |a| == |b|;
    forall i | 0 <= i < |a| ensures a[i] == b[i] {
      assert (a + [last])[i] == (b + [last])[i];
    }
  }

  lemma AllButLast(front: seq<Line>, last: Line, all: seq<Sign>)
    requires EachEnded(front + [last]) == all + [LineEnd]
    ensures EachEnded(front) + Signs(last) == all
  {
    EachEndedSnoc(front, last);
    Associate(EachEnded(front), Signs(last), [LineEnd]);
    SameFront(EachEnded(front) + Signs(last), all, LineEnd);
  }

  lemma EndedLines(front: seq<Line>, last: Line)
    ensures EachEnded(WithoutReturns(front) + (if last == [] then [] else [last]))
         == EachEnded(front) + Signs(last) + (if last == [] then [] else [LineEnd])
  {
    WithoutReturnsEnded(front);
    if last == [] {
      assert WithoutReturns(front) + [] == WithoutReturns(front);
    } else {
      EachEndedSnoc(WithoutReturns(front), last);
      Associate(EachEnded(front), Signs(last), [LineEnd]);
    }
  }

  lemma SplitFront(gs: Line, front: seq<Line>, last: Line)
    requires Split(gs) == front + [last]
    ensures Signs(gs) == EachEnded(front) + Signs(last)
    ensures last == [] <==> Ending(gs) == []
  {
    SignsSplit(gs);
    AllButLast(front, last, Signs(gs));
    LastPiece(gs);
    assert Last(front + [last]) == last;
  }

  lemma LinesFront(gs: Line) returns (front: seq<Line>, last: Line)
    ensures Split(gs) == front + [last]
    ensures Lines(gs) == WithoutReturns(front) + (if last == [] then [] else [last])
  {
    var pieces := Split(gs);
    front, last := pieces[..|pieces| - 1], pieces[|pieces| - 1];
  }

  /** Reading a text by lines leaves its lines, with the last of them ended. */
  lemma SignsLines(gs: Line)
    ensures EachEnded(Lines(gs)) == Signs(gs) + Ending(gs)
  {
    var front, last := LinesFront(gs);
    SplitFront(gs, front, last);
    EndedLines(front, last);
  }

  lemma SignsOfOne(before: Line, line: Line, after: Line)
    requires Signs(before) == [] && Signs(after) == [LineEnd]
    ensures Signs(before + line + after) == Signs(line) + [LineEnd]
  {
    SignsAppend3(before, line, after);
    assert [] + Signs(line) == Signs(line);
  }

  lemma {:induction false} SignsWrapped(before: Line, lines: seq<Line>, after: Line)
    requires Signs(before) == [] && Signs(after) == [LineEnd]
    ensures Signs(Wrapped(before, lines, after)) == EachEnded(lines)
  {
    if lines != [] {
      SignsWrapped(before, lines[1..], after);
      SignsOfOne(before, lines[0], after);
      SignsAppend(before + lines[0] + after, Wrapped(before, lines[1..], after));
    }
  }

  // ---- Pieces of output ----

  lemma SignsNewline()
    ensures Signs(NEWLINE) == [LineEnd] && Signs(BLANK) == [] && Signs(MARGIN) == [] && Signs(TICK) == []
  {
    OneSign(Chrome('\n'));
    NoSigns(BLANK);
    NoSigns(MARGIN);
    NoSigns(TICK);
  }

  lemma SignsBefore(before: Line, text: Line)
    requires Signs(before) == []
    ensures Signs(before + text) == Signs(text)
  {
    SignsAppend(before, text);
  }

  lemma SignsItemHead(item: Frame, line: Line)
    ensures Signs(ItemHead(item, line)) == (if item.emitted then [] else Signs(item.prefix)) + Signs(line) + [LineEnd]
  {
    var head := if item.emitted then Spaces(item.prefixWidth) else item.prefix;
    SignsNewline();
    NoSigns(Spaces(item.prefixWidth));
    SignsAppend(MARGIN + head + line, NEWLINE);
    SignsAppend3(MARGIN, head, line);
  }

  /** An item is its text with its last line ended, behind the label. */
  lemma SignsItemLines(item: Frame)
    ensures Signs(ItemLines(item)) == (if item.emitted then [] else Signs(item.prefix)) + (Signs(item.content) + [LineEnd])
  {
    var lines := Split(item.content);
    var head := if item.emitted then [] else Signs(item.prefix);
    var before := MARGIN + Spaces(item.prefixWidth);
    SignsNewline();
    NoSigns(before);
    SignsWrapped(before, lines[1..], NEWLINE);
    SignsItemHead(item, lines[0]);
    SignsAppend(ItemHead(item, lines[0]), Wrapped(before, lines[1..], NEWLINE));
    SignsSplit(item.content);
    Associate(head, Signs(lines[0]) + [LineEnd], EachEnded(lines[1..]));
    Associate(head, Signs(lines[0]), [LineEnd]);
  }

  lemma SignsHeadingLines(level: nat, text: Line)
    ensures Signs(HeadingLines(level, text)) == [LineEnd] + Signs(text) + [LineEnd]
  {
    var marked := Plain(Hashes(level) + " ") + text;
    SignsNewline();
    NoSigns(Plain(Hashes(level) + " "));
    SignsBefore(Plain(Hashes(level) + " "), text);
    SignsStyled(HeadingFace, marked);
    SignsAppend3(NEWLINE, Styled(HeadingFace, marked), NEWLINE);
  }

  /** What the name of a language reads as. */
  function LangSigns(lang: Option<string>): seq<Sign> {
    Signs(Plain(lang.GetOr("")))
  }

  lemma SignsCodeHeader(lang: Option<string>)
    ensures Signs(CodeHeader(lang)) == LangSigns(lang) + [LineEnd]
  {
    var fence := MARGIN + Styled(RuleFace, Plain("```"));
    var name := if lang.Some? then BLANK + Styled(RuleFace, Plain(lang.value)) else [];
    SignsNewline();
    NoSigns(fence);
    SignsAppend3(fence, name, NEWLINE);
    if lang.Some? {
      SignsBefore(BLANK, Styled(RuleFace, Plain(lang.value)));
      SignsStyled(RuleFace, Plain(lang.value));
    }
  }

  lemma SignsCodeBody(code: Line)
    ensures Signs(Wrapped(CODE_OPEN, Lines(code), CODE_CLOSE)) == Signs(code) + Ending(code)
  {
    SignsNewline();
    NoSigns(CODE_OPEN);
    OneSign(Close(CodeFace));
    SignsAppend([Close(CodeFace)], NEWLINE);
    SignsWrapped(CODE_OPEN, Lines(code), CODE_CLOSE);
    SignsLines(code);
  }

  lemma SignsCodeFooter()
    ensures Signs(CODE_FOOTER) == [LineEnd]
  {
    var fence := MARGIN + Styled(RuleFace, Plain("```"));
    SignsNewline();
    NoSigns(fence);
    SignsBefore(fence, NEWLINE);
  }

  lemma SignsCodeLines(lang: Option<string>, code: Line)
    ensures Signs(CodeLines(lang, code)) == LangSigns(lang) + [LineEnd] + (Signs(code) + Ending(code)) + [LineEnd]
  {
    SignsCodeHeader(lang);
    SignsCodeBody(code);
    SignsCodeFooter();
    SignsAppend3(CodeHeader(lang), Wrapped(CODE_OPEN, Lines(code), CODE_CLOSE), CODE_FOOTER);
  }

  lemma SignsQuoteLines(text: Line)
    ensures Signs(QuoteLines(text)) == Signs(text) + Ending(text)
  {
    SignsNewline();
    NoSigns(QUOTE_OPEN);
    OneSign(Close(QuoteFace));
    SignsAppend([Close(QuoteFace)], NEWLINE);
    SignsWrapped(QUOTE_OPEN, Lines(text), QUOTE_CLOSE);
    SignsLines(text);
  }

  lemma SignsRule(width: nat)
    ensures Signs(RuleLine(width)) == [LineEnd]
  {
    var rule := RuleLine(width)[..|RuleLine(width)| - 1];
    SignsNewline();
    NoSigns(rule);
    assert RuleLine(width) == rule + NEWLINE;
    SignsBefore(rule, NEWLINE);
  }

  lemma SignsInline(st: State, text: seq<Letter>)
    ensures Signs(InlineStyled(st, text)) == Signs(Inked(text))
  {
    SignsStyled(BoldFace, Inked(text));
    SignsStyled(EmphasisFace, Inked(text));
  }

  lemma SignsInlineCode(text: seq<Letter>)
    ensures Signs(InlineCode(text)) == Signs(Inked(text))
    ensures Signs(Styled(CodeFace, InlineCode(text))) == Signs(Inked(text))
  {
    SignsNewline();
    SignsAppend3(TICK, Inked(text), TICK);
    SignsStyled(CodeFace, InlineCode(text));
  }

  lemma SignsItemPrefix(depth: nat, counter: nat, id: int)
    ensures Signs(ItemPrefix(depth, counter, id).0) == []
  {
    NoSigns(ItemPrefix(depth, counter, id).0);
  }

  // ---- Where text goes ----

  datatype Spot = ToCell | ToCode | ToHeading | ToQuote | ToItem | ToPage

  /** Where the renderer puts text: the innermost of cell, code block, heading and quote, whatever
      the order they were opened in, or else the innermost item, or else the page. */
  function SpotOf(st: State): Spot {
    if st.table.inTable then ToCell
    else if st.inCodeBlock then ToCode
    else if st.inHeading then ToHeading
    else if st.inBlockQuote then ToQuote
    else Outer(st)
  }

  /** Where line ends go that pass by headings and quotes. */
  function Outer(st: State): Spot {
    if st.items != [] then ToItem else ToPage
  }

  function Put(st: State, spot: Spot, text: Line): State {
    match spot
    case ToCell => st.(table := st.table.(cell := st.table.cell + text))
    case ToCode => st.(codeBuf := st.codeBuf + text)
    case ToHeading => st.(headingBuf := st.headingBuf + text)
    case ToQuote => st.(quoteBuf := st.quoteBuf + text)
    case ToItem =>
      if st.items == [] then st
      else
        var top := st.items[|st.items| - 1];
        st.(items := st.items[..|st.items| - 1] + [top.(content := top.content + text)])
    case ToPage => st.(output := st.output + text)
  }

  /** The same but for the note whether a blank line was just written. */
  ghost predicate Like(st: State, other: State) {
    st == other.(lastWasBlank := st.lastWasBlank)
  }

  lemma RunPair(style: Style, st: State, x: Event, y: Event)
    ensures Run(style, st, [x, y]) == Step(style, Step(style, st, x), y)
  {
    var next := Step(style, st, x);
    assert [x, y][1..] == [y] && [y][1..] == [];
    assert Run(style, next, [y]) == Run(style, Step(style, next, y), []);
  }

  lemma RunThree(style: Style, st: State, x: Event, y: Event, z: Event)
    ensures Run(style, st, [x, y, z]) == Step(style, Step(style, Step(style, st, x), y), z)
  {
    assert [x, y, z][1..] == [y, z];
    RunPair(style, Step(style, st, x), y, z);
  }

  lemma TextGoesToItsSpot(st: State, text: seq<Letter>) returns (shown: Line)
    ensures Like(StepText(st, text), Put(st, SpotOf(st), shown))
    ensures SpotOf(st) != ToItem && SpotOf(st) != ToPage ==> shown == Inked(text)
    ensures Signs(shown) == Signs(Inked(text))
  {
    SignsInline(st, text);
    shown := if SpotOf(st) == ToItem || SpotOf(st) == ToPage then InlineStyled(st, text) else Inked(text);
  }

  lemma PutTwice(st: State, spot: Spot, a: Line, b: Line)
    ensures Put(Put(st, spot, a), spot, b) == Put(st, spot, a + b)
    ensures SpotOf(Put(st, spot, a)) == SpotOf(st)
  {
    match spot {
      case ToCell => Associate(st.table.cell, a, b);
      case ToCode => Associate(st.codeBuf, a, b);
      case ToHeading => Associate(st.headingBuf, a, b);
      case ToQuote => Associate(st.quoteBuf, a, b);
      case ToItem => PutTwiceInItem(st, a, b);
      case ToPage => Associate(st.output, a, b);
    }
  }

  lemma PutTwiceInItem(st: State, a: Line, b: Line)
    ensures Put(Put(st, ToItem, a), ToItem, b) == Put(st, ToItem, a + b)
    ensures SpotOf(Put(st, ToItem, a)) == SpotOf(st)
  {
    if st.items != [] {
      var n := |st.items| - 1;
      var top := st.items[n];
      Associate(top.content, a, b);
      assert (st.items[..n] + [top.(content := top.content + a)])[..n] == st.items[..n];
    }
  }

  lemma LikeStays(st: State, other: State, spot: Spot, text: Line)
    requires Like(st, other)
    ensures Like(Put(st, spot, text), Put(other, spot, text)) && SpotOf(st) == SpotOf(other)
  {
  }

  /** One put after the other. */
  lemma PutOn(st: State, next: State, last: State, spot: Spot, a: Line, b: Line)
    requires Like(next, Put(st, spot, a)) && Like(last, Put(next, spot, b))
    ensures Like(last, Put(st, spot, a + b))
  {
    LikeStays(next, Put(st, spot, a), spot, b);
    PutTwice(st, spot, a, b);
  }

  lemma PutKeepsSpot(st: State, next: State, spot: Spot, text: Line)
    requires Like(next, Put(st, spot, text))
    ensures SpotOf(next) == SpotOf(st)
  {
    PutTwice(st, spot, text, []);
    LikeStays(next, Put(st, spot, text), spot, []);
  }

  // ---- What stands between two texts ----

  /** Two texts with nothing between them stand side by side. */
  lemma TextsAreClose(style: Style, st: State, a: seq<Letter>, b: seq<Letter>) returns (added: Line)
    ensures Like(Run(style, st, [Text(a), Text(b)]), Put(st, SpotOf(st), added))
    ensures Signs(added) == Signs(Inked(a)) + Signs(Inked(b))
  {
    RunPair(style, st, Text(a), Text(b));
    var first := TextGoesToItsSpot(st, a);
    var next := StepText(st, a);
    LikeStays(next, Put(st, SpotOf(st), first), SpotOf(st), []);
    var second := TextGoesToItsSpot(next, b);
    PutTwice(st, SpotOf(st), first, second);
    LikeStays(next, Put(st, SpotOf(st), first), SpotOf(st), second);
    SignsAppend(first, second);
    added := first + second;
  }

  lemma TextBreakText(st: State, broken: State, spot: Spot, a: seq<Letter>, between: Line, b: seq<Letter>) returns (added: Line)
    requires spot == SpotOf(st) && Like(broken, Put(StepText(st, a), spot, between))
    ensures Like(StepText(broken, b), Put(st, spot, added))
    ensures Signs(added) == Signs(Inked(a)) + Signs(between) + Signs(Inked(b))
    ensures spot != ToItem && spot != ToPage ==> added == Inked(a) + between + Inked(b)
  {
    var first := TextGoesToItsSpot(st, a);
    LikeStays(StepText(st, a), Put(st, spot, first), spot, between);
    PutTwice(st, spot, first, between);
    assert Like(broken, Put(st, spot, first + between));
    PutTwice(st, spot, first + between, []);
    LikeStays(broken, Put(st, spot, first + between), spot, []);
    var second := TextGoesToItsSpot(broken, b);
    LikeStays(broken, Put(st, spot, first + between), spot, second);
    PutTwice(st, spot, first + between, second);
    SignsAppend3(first, between, second);
    added := first + between + second;
  }

  lemma SoftBreakIsPut(st: State)
    ensures var spot := SpotOf(st);
            StepSoftBreak(st) == Put(st, spot, if spot == ToCell || spot == ToHeading then BLANK else NEWLINE)
  {
  }

  /** In every state, two texts with a soft break between them are put where the text goes with a
      line end between them, or with a blank in a heading or a cell, and nothing else changes. */
  lemma SoftBreakSeparates(style: Style, st: State, a: seq<Letter>, b: seq<Letter>) returns (added: Line)
    ensures Like(Run(style, st, [Text(a), SoftBreak, Text(b)]), Put(st, SpotOf(st), added))
    ensures if SpotOf(st) == ToCell || SpotOf(st) == ToHeading then added == Inked(a) + [Chrome(' ')] + Inked(b)
            else Signs(added) == Signs(Inked(a)) + [LineEnd] + Signs(Inked(b))
  {
    RunThree(style, st, Text(a), SoftBreak, Text(b));
    var spot, next := SpotOf(st), StepText(st, a);
    var between := if spot == ToCell || spot == ToHeading then BLANK else NEWLINE;
    var first := TextGoesToItsSpot(st, a);
    PutKeepsSpot(st, next, spot, first);
    SoftBreakIsPut(next);
    SignsNewline();
    added := TextBreakText(st, StepSoftBreak(next), spot, a, between, b);
  }

  lemma HardBreakPassesBy(st: State, a: seq<Letter>, b: seq<Letter>)
    requires SpotOf(st) == ToHeading || SpotOf(st) == ToQuote
    ensures Like(StepText(StepHardBreak(StepText(st, a)), b),
                 Put(Put(st, Outer(st), [Chrome('\n')]), SpotOf(st), Inked(a) + Inked(b)))
  {
    Associate(if SpotOf(st) == ToHeading then st.headingBuf else st.quoteBuf, Inked(a), Inked(b));
  }

  /** A hard break does so too, except where the text goes to a heading or a quote: there the two
      texts stand side by side, and the line end goes to the item or the page around. */
  lemma HardBreakSeparatesIff(style: Style, st: State, a: seq<Letter>, b: seq<Letter>) returns (added: Line)
    ensures var spot, next := SpotOf(st), Run(style, st, [Text(a), HardBreak, Text(b)]);
            if spot == ToHeading || spot == ToQuote
            then Like(next, Put(Put(st, Outer(st), [Chrome('\n')]), spot, added)) && added == Inked(a) + Inked(b)
            else Like(next, Put(st, spot, added))
                 && (if spot == ToCell then added == Inked(a) + [Chrome(' ')] + Inked(b)
                     else Signs(added) == Signs(Inked(a)) + [LineEnd] + Signs(Inked(b)))
  {
    RunThree(style, st, Text(a), HardBreak, Text(b));
    var spot, next := SpotOf(st), StepText(st, a);
    if spot == ToHeading || spot == ToQuote {
      HardBreakPassesBy(st, a, b);
      added := Inked(a) + Inked(b);
    } else {
      var first := TextGoesToItsSpot(st, a);
      PutKeepsSpot(st, next, spot, first);
      SignsNewline();
      added := TextBreakText(st, StepHardBreak(next), spot, a, if spot == ToCell then BLANK else NEWLINE, b);
    }
  }

  function ParagraphOf(text: seq<Letter>): seq<Event> {
    [Start(Paragraph), Text(text), End(ParagraphEnd)]
  }

  lemma OneParagraph(style: Style, st: State, text: seq<Letter>) returns (added: Line)
    requires SpotOf(st) in {ToItem, ToQuote, ToPage}
    ensures var spot, next := SpotOf(st), Run(style, st, ParagraphOf(text));
            && Like(next, Put(st, spot, added))
            && (spot != ToPage ==> Signs(added) == Signs(Inked(text)))
            && (spot == ToPage ==> next.lastWasBlank)
            && (spot == ToPage ==>
                  Signs(added) == (if st.lastWasBlank then [] else [LineEnd]) + Signs(Inked(text)) + [LineEnd])
  {
    RunThree(style, st, Start(Paragraph), Text(text), End(ParagraphEnd));
    var spot := SpotOf(st);
    var begun := StepStart(st, Paragraph);
    var shown := TextGoesToItsSpot(begun, text);
    SignsNewline();
    if spot == ToPage {
      var gap := if st.lastWasBlank then [] else NEWLINE;
      assert begun == Put(st, ToPage, gap);
      PutTwice(st, ToPage, gap, shown);
      PutTwice(st, ToPage, gap + shown, NEWLINE);
      added := gap + shown + NEWLINE;
      SignsAppend3(gap, shown, NEWLINE);
    } else {
      added := shown;
    }
  }

  /** In items, headings and quotes a paragraph begins without a gap. */
  lemma NoGapInside(style: Style, st: State)
    requires st.items != [] || st.inHeading || st.inBlockQuote
    ensures Run(style, st, [Start(Paragraph)]) == st
  {
    assert [Start(Paragraph)][1..] == [];
    assert Run(style, StepStart(st, Paragraph), []) == StepStart(st, Paragraph);
  }

  lemma JoinParagraphs(gap: seq<Sign>, a: seq<Sign>, b: seq<Sign>)
    ensures gap + a + [LineEnd] + ([] + b + [LineEnd]) == gap + a + [LineEnd] + b + [LineEnd]
  {
  }

  /** Two paragraphs one after the other are separated exactly on the page: in an item or a quote
      their texts stand side by side. */
  lemma ParagraphsSeparateIff(style: Style, st: State, a: seq<Letter>, b: seq<Letter>) returns (added: Line)
    requires SpotOf(st) in {ToItem, ToQuote, ToPage}
    ensures Like(Run(style, st, ParagraphOf(a) + ParagraphOf(b)), Put(st, SpotOf(st), added))
    ensures var gap := if st.lastWasBlank then [] else [LineEnd];
            Signs(added) == if SpotOf(st) == ToPage then gap + Signs(Inked(a)) + [LineEnd] + Signs(Inked(b)) + [LineEnd]
                            else Signs(Inked(a)) + Signs(Inked(b))
  {
    var spot, gap := SpotOf(st), if st.lastWasBlank then [] else [LineEnd];
    var next := Run(style, st, ParagraphOf(a));
    RunAppend(style, st, ParagraphOf(a), ParagraphOf(b));
    var first := OneParagraph(style, st, a);
    PutKeepsSpot(st, next, spot, first);
    var second := OneParagraph(style, next, b);
    PutOn(st, next, Run(style, next, ParagraphOf(b)), spot, first, second);
    SignsAppend(first, second);
    JoinParagraphs(gap, Signs(Inked(a)), Signs(Inked(b)));
    added := first + second;
  }
}
