/** How the lines look: where their text begins, and in which face each letter is shown. */
module RendererLayout {
  import opened Seqs
  import G = Glyphs
  import opened Glyphs
  import opened TableLayout
  import opened RendererModel
  import opened RendererLedger
  import opened RendererLines

  // ---- Characters ----

  const BULLET := '\U{2022}'

  /** What a glyph puts on the screen. */
  function Spelled(g: Glyph): string {
    match g
    case Ink(letter) => [letter.ch]
    case Chrome(ch) => [ch]
    case Mark(number, _) => if number == 0 then [BULLET] else Digits(number) + ". "
    case _ => ""
  }

  function Screen(gs: Line): string {
    if gs == [] then "" else Spelled(gs[0]) + Screen(gs[1..])
  }

  function Blanks(n: nat): string {
    seq(n, _ => ' ')
  }

  lemma {:induction false} ScreenAppend(a: Line, b: Line)
    ensures Screen(a + b) == Screen(a) + Screen(b)
  {
    if a == [] {
      assert a + b == b;
    } else {
      assert (a + b)[1..] == a[1..] + b;
      ScreenAppend(a[1..], b);
    }
  }

  lemma OneGlyph(g: Glyph)
    ensures Screen([g]) == Spelled(g)
  {
    assert [g][1..] == [];
  }

  lemma {:induction false} ScreenOfPlain(s: string)
    ensures Screen(G.Plain(s)) == s
  {
    if s != "" {
      ScreenOfPlain(s[1..]);
      assert G.Plain(s)[1..] == G.Plain(s[1..]);
      assert s == [s[0]] + s[1..];
    }
  }

  lemma ScreenOfSpaces(n: nat)
    ensures Screen(Spaces(n)) == Blanks(n)
  {
    ScreenOfPlain(Blanks(n));
    assert Spaces(n) == G.Plain(Blanks(n));
  }

  lemma ScreenOfStyled(face: Face, text: Line)
    ensures Screen(Styled(face, text)) == Screen(text)
  {
    ScreenAppend([Open(face)] + text, [Close(face)]);
    ScreenAppend([Open(face)], text);
    OneGlyph(Open(face));
    OneGlyph(Close(face));
  }

  // ---- Items ----

  /** The lines, each behind its own lead. */
  function Laid(leads: seq<Line>, lines: seq<Line>): Line
    requires |leads| == |lines|
  {
    if lines == [] then [] else leads[0] + lines[0] + NEWLINE + Laid(leads[1..], lines[1..])
  }

  lemma {:induction false} WrappedIsLaid(lead: Line, lines: seq<Line>)
    ensures Wrapped(lead, lines, NEWLINE) == Laid(seq(|lines|, _ => lead), lines)
  {
    if lines != [] {
      WrappedIsLaid(lead, lines[1..]);
      assert seq(|lines|, _ => lead)[1..] == seq(|lines| - 1, _ => lead);
    }
  }

  function LabelText(number: nat): string {
    if number == 0 then [BULLET] + " " else Digits(number) + ". "
  }

  lemma ScreenOfPrefix(depth: nat, number: nat, id: int)
    ensures var (prefix, width) := ItemPrefix(depth, number, id);
            && Screen(prefix) == Blanks(2 * SaturatingSub(depth, 1)) + LabelText(number)
            && width == |Screen(prefix)|
  {
    var indent := Spaces(2 * SaturatingSub(depth, 1));
    ScreenOfSpaces(2 * SaturatingSub(depth, 1));
    ScreenAppend(indent, [Mark(number, id)]);
    ScreenAppend(indent + [Mark(number, id)], [Chrome(' ')]);
    OneGlyph(Mark(number, id));
    OneGlyph(Chrome(' '));
  }

  lemma ScreenInMargin(depth: nat, text: Line, mark: string)
    requires Screen(text) == Blanks(2 * SaturatingSub(depth, 1)) + mark
    ensures Screen(MARGIN + text) == Blanks(2 * Max(depth, 1)) + mark
  {
    ScreenAppend(MARGIN, text);
    ScreenOfSpaces(2);
    assert MARGIN == Spaces(2);
    assert Blanks(2) + Blanks(2 * SaturatingSub(depth, 1)) == Blanks(2 * Max(depth, 1));
    Associate(Blanks(2), Blanks(2 * SaturatingSub(depth, 1)), mark);
  }

  lemma ScreenOfBlankLead(depth: nat, width: nat, mark: string)
    requires width == 2 * SaturatingSub(depth, 1) + |mark|
    ensures Screen(MARGIN + Spaces(width)) == Blanks(2 * Max(depth, 1) + |mark|)
  {
    ScreenAppend(MARGIN, Spaces(width));
    ScreenOfSpaces(2);
    ScreenOfSpaces(width);
    assert MARGIN == Spaces(2);
    assert Blanks(2) + Blanks(width) == Blanks(2 * Max(depth, 1) + |mark|);
  }

  lemma RunSingle(style: Style, st: State, event: Event)
    ensures Run(style, st, [event]) == Step(style, st, event)
  {
    assert [event][1..] == [];
    assert Run(style, Step(style, st, event), []) == Step(style, st, event);
  }

  /** What stands in front of the lines of an item: the label in front of the first, unless it is
      out already, and blanks of the same width in front of the others, two more for every level. */
  ghost predicate LeadsTell(leads: seq<Line>, depth: nat, number: nat, shown: bool) {
    var mark := LabelText(number);
    forall i :: 0 <= i < |leads| ==>
      Screen(leads[i]) == if i == 0 && !shown then Blanks(2 * Max(depth, 1)) + mark
                          else Blanks(2 * Max(depth, 1) + |mark|)
  }

  function LeadsOf(first: Line, rest: Line, n: nat): (r: seq<Line>)
    requires n > 0
    ensures |r| == n
  {
    [first] + seq(n - 1, _ => rest)
  }

  lemma ItemIsLaid(item: Frame)
    ensures var rest := MARGIN + Spaces(item.prefixWidth);
            var first := if item.emitted then rest else MARGIN + item.prefix;
            ItemLines(item) == Laid(LeadsOf(first, rest, |Split(item.content)|), Split(item.content))
  {
    var lines, rest := Split(item.content), MARGIN + Spaces(item.prefixWidth);
    var first := if item.emitted then rest else MARGIN + item.prefix;
    WrappedIsLaid(rest, lines[1..]);
    assert LeadsOf(first, rest, |lines|)[1..] == seq(|lines| - 1, _ => rest);
    assert ItemHead(item, lines[0]) == first + lines[0] + NEWLINE;
  }

  lemma LeadsAreTold(depth: nat, number: nat, id: int, n: nat, shown: bool)
    requires n > 0
    ensures var (prefix, width) := ItemPrefix(depth, number, id);
            var rest := MARGIN + Spaces(width);
            LeadsTell(LeadsOf(if shown then rest else MARGIN + prefix, rest, n), depth, number, shown)
  {
    var (prefix, width) := ItemPrefix(depth, number, id);
    ScreenOfPrefix(depth, number, id);
    ScreenInMargin(depth, prefix, LabelText(number));
    ScreenOfBlankLead(depth, width, LabelText(number));
  }

  /** Whatever an item that begins now will hold, its text starts in one column on all its lines. */
  lemma ItemIsAligned(style: Style, st: State, id: int, content: Line, shown: bool) returns (leads: seq<Line>)
    ensures var begun := Run(style, st, [Start(Item(id))]);
            && |begun.items| == |st.items| + 1
            && var item := begun.items[|st.items|].(content := content, emitted := shown);
               && |leads| == |Split(content)| && ItemLines(item) == Laid(leads, Split(content))
               && LeadsTell(leads, st.listDepth, NextLabel(st), shown)
  {
    var (prefix, width) := ItemPrefix(st.listDepth, NextLabel(st), id);
    var rest := MARGIN + Spaces(width);
    RunSingle(style, st, Start(Item(id)));
    ItemIsLaid(Frame(prefix, width, content, shown));
    LeadsAreTold(st.listDepth, NextLabel(st), id, |Split(content)|, shown);
    leads := LeadsOf(if shown then rest else MARGIN + prefix, rest, |Split(content)|);
  }

  // ---- Faces ----

  /** The face that is on after a text. */
  function FaceAfter(face: Option<Face>, gs: Line): Option<Face>
    decreases |gs|
  {
    if gs == [] then face
    else FaceAfter(match gs[0] case Open(f) => Some(f) case Close(_) => None case _ => face, gs[1..])
  }

  /** The letters of a text, each with the face it is shown in. */
  function Worn(face: Option<Face>, gs: Line): seq<(Letter, Option<Face>)>
    decreases |gs|
  {
    if gs == [] then []
    else
      match gs[0]
      case Open(f) => Worn(Some(f), gs[1..])
      case Close(_) => Worn(None, gs[1..])
      case Ink(letter) => [(letter, face)] + Worn(face, gs[1..])
      case _ => Worn(face, gs[1..])
  }

  function AllIn(face: Option<Face>, text: seq<Letter>): seq<(Letter, Option<Face>)> {
    seq(|text|, i requires 0 <= i < |text| => (text[i], face))
  }

  function LettersOf(gs: Line): seq<Letter> {
    if gs == [] then [] else (if gs[0].Ink? then [gs[0].letter] else []) + LettersOf(gs[1..])
  }

  /** Without any face of its own. */
  predicate Bare(gs: Line) {
    forall g :: g in gs ==> !g.Open? && !g.Close?
  }

  lemma {:induction false} WornAppend(face: Option<Face>, a: Line, b: Line)
    ensures Worn(face, a + b) == Worn(face, a) + Worn(FaceAfter(face, a), b)
    ensures FaceAfter(face, a + b) == FaceAfter(FaceAfter(face, a), b)
    decreases |a|
  {
    if a == [] {
      assert a + b == b;
    } else {
      var next := match a[0] case Open(f) => Some(f) case Close(_) => None case _ => face;
      assert (a + b)[1..] == a[1..] + b;
      WornAppend(next, a[1..], b);
    }
  }

  lemma {:induction false} BareWears(face: Option<Face>, gs: Line)
    requires Bare(gs)
    ensures Worn(face, gs) == AllIn(face, LettersOf(gs)) && FaceAfter(face, gs) == face
  {
    if gs != [] {
      BareWears(face, gs[1..]);
    }
  }

  lemma StyledWears(before: Option<Face>, face: Face, text: Line)
    requires Bare(text)
    ensures Worn(before, Styled(face, text)) == AllIn(Some(face), LettersOf(text)) && FaceAfter(before, Styled(face, text)) == None
  {
    WornAppend(before, [Open(face)] + text, [Close(face)]);
    WornAppend(before, [Open(face)], text);
    BareWears(Some(face), text);
    assert [Open(face)][1..] == [] && [Close(face)][1..] == [];
  }

  lemma {:induction false} LettersOfInked(text: seq<Letter>)
    ensures LettersOf(Inked(text)) == text && Bare(Inked(text))
  {
    if text != [] {
      LettersOfInked(text[1..]);
      assert Inked(text)[1..] == Inked(text[1..]);
    }
  }

  lemma {:induction false} LettersOfAppend(a: Line, b: Line)
    ensures LettersOf(a + b) == LettersOf(a) + LettersOf(b)
  {
    if a == [] {
      assert a + b == b;
    } else {
      var first := if a[0].Ink? then [a[0].letter] else [];
      LettersOfAppend(a[1..], b);
      assert (a + b)[1..] == a[1..] + b && (a + b)[0] == a[0];
      Associate(first, LettersOf(a[1..]), LettersOf(b));
    }
  }

  lemma {:induction false} NoLetters(gs: Line)
    requires forall g :: g in gs ==> !g.Ink?
    ensures LettersOf(gs) == []
  {
    if gs != [] {
      NoLetters(gs[1..]);
    }
  }

  /** Text on the page or in an item is bold inside strong spans, else emphasised inside emphasis,
      else plain; inline code is shown as code; whatever face was on before, none is afterwards. */
  lemma TextWears(style: Style, st: State, text: seq<Letter>) returns (shown: Line, code: Line)
    requires SpotOf(st) == ToPage || SpotOf(st) == ToItem
    ensures Like(Run(style, st, [Text(text)]), Put(st, SpotOf(st), shown))
    ensures Like(Run(style, st, [Code(text)]), Put(st, SpotOf(st), code))
    ensures Worn(None, shown) == AllIn(if st.strongDepth > 0 then Some(BoldFace)
                                       else if st.emphasisDepth > 0 then Some(EmphasisFace) else None, text)
    ensures Worn(None, code) == AllIn(Some(CodeFace), text)
    ensures FaceAfter(None, shown) == None && FaceAfter(None, code) == None
  {
    shown, code := InlineStyled(st, text), Styled(CodeFace, InlineCode(text));
    RunSingle(style, st, Text(text));
    RunSingle(style, st, Code(text));
    LettersOfInked(text);
    BareWears(None, Inked(text));
    StyledWears(None, BoldFace, Inked(text));
    StyledWears(None, EmphasisFace, Inked(text));
    InlineCodeLetters(text);
    StyledWears(None, CodeFace, InlineCode(text));
  }

  lemma InlineCodeLetters(text: seq<Letter>)
    ensures LettersOf(InlineCode(text)) == text && Bare(InlineCode(text))
  {
    LettersOfAppend(TICK + Inked(text), TICK);
    LettersOfAppend(TICK, Inked(text));
    NoLetters(TICK);
    LettersOfInked(text);
    assert [] + text + [] == text;
  }

  /** No buffer of a block has a face of its own, at any moment of any run. */
  ghost predicate BareBuffers(st: State) {
    Bare(st.codeBuf) && Bare(st.headingBuf) && Bare(st.quoteBuf)
  }

  lemma BareMore(a: Line, b: Line)
    requires Bare(a) && Bare(b)
    ensures Bare(a + b)
  {
  }

  lemma TextStaysBare(st: State, text: seq<Letter>)
    requires BareBuffers(st)
    ensures BareBuffers(StepText(st, text))
  {
    LettersOfInked(text);
    BareMore(st.codeBuf, Inked(text));
    BareMore(st.headingBuf, Inked(text));
    BareMore(st.quoteBuf, Inked(text));
  }

  lemma CodeStaysBare(st: State, text: seq<Letter>)
    requires BareBuffers(st)
    ensures BareBuffers(StepCode(st, text))
  {
    LettersOfInked(text);
    InlineCodeLetters(text);
    BareMore(st.headingBuf, Inked(text));
    BareMore(st.quoteBuf, InlineCode(text));
  }

  lemma BreakStaysBare(st: State)
    requires BareBuffers(st)
    ensures BareBuffers(StepSoftBreak(st)) && BareBuffers(StepHardBreak(st))
  {
    BareMore(st.codeBuf, NEWLINE);
    BareMore(st.headingBuf, BLANK);
    BareMore(st.quoteBuf, NEWLINE);
  }

  lemma StartStaysBare(st: State, tag: Tag)
    requires BareBuffers(st)
    ensures BareBuffers(StepStart(st, tag))
  {
    match tag {
      case List(start) => assert StartList(st, start).codeBuf == st.codeBuf && StartList(st, start).quoteBuf == st.quoteBuf;
      case _ =>
    }
  }

  lemma EndStaysBare(style: Style, st: State, end: TagEnd)
    requires BareBuffers(st)
    ensures BareBuffers(StepEnd(style, st, end))
  {
    match end {
      case HeadingEnd =>
      case CodeBlockEnd =>
      case BlockQuoteEnd =>
      case _ => assert StepEnd(style, st, end).codeBuf == st.codeBuf && StepEnd(style, st, end).quoteBuf == st.quoteBuf;
    }
  }

  lemma StepStaysBare(style: Style, st: State, event: Event)
    requires BareBuffers(st)
    ensures BareBuffers(Step(style, st, event))
  {
    match event {
      case Start(tag) => StartStaysBare(st, tag);
      case End(end) => EndStaysBare(style, st, end);
      case Text(text) => TextStaysBare(st, text);
      case Code(text) => CodeStaysBare(st, text);
      case SoftBreak => BreakStaysBare(st);
      case HardBreak => BreakStaysBare(st);
      case Rule =>
      case OtherEvent =>
    }
  }

  lemma {:induction false} RunStaysBare(style: Style, st: State, events: seq<Event>)
    requires BareBuffers(st)
    ensures BareBuffers(Run(style, st, events))
    decreases |events|
  {
    if events != [] {
      StepStaysBare(style, st, events[0]);
      RunStaysBare(style, Step(style, st, events[0]), events[1..]);
    }
  }

  /** All its letters are shown in one face, and no face is on afterwards. */
  ghost predicate Wears(face: Face, gs: Line) {
    FaceAfter(None, gs) == None && forall p :: p in Worn(None, gs) ==> p.1 == Some(face)
  }

  lemma WearsAppend(face: Face, a: Line, b: Line)
    requires Wears(face, a) && Wears(face, b)
    ensures Wears(face, a + b)
  {
    WornAppend(None, a, b);
  }

  lemma StyledWearsIt(face: Face, text: Line)
    requires Bare(text)
    ensures Wears(face, Styled(face, text))
  {
    StyledWears(None, face, text);
  }

  lemma {:induction false} NoLettersWear(face: Face, gs: Line)
    requires forall g :: g in gs ==> g.Chrome?
    ensures Wears(face, gs)
  {
    if gs != [] {
      NoLettersWear(face, gs[1..]);
    }
  }

  lemma NothingWorn(face: Face, style: Face, gs: Line)
    requires forall g :: g in gs ==> g.Chrome?
    ensures Wears(face, Styled(style, gs))
  {
    StyledWears(None, style, gs);
    NoLetters(gs);
  }

  lemma {:induction false} PiecesBare(gs: Line)
    requires Bare(gs)
    ensures forall line :: line in Split(gs) ==> Bare(line)
  {
    if gs != [] {
      PiecesBare(gs[1..]);
      var rest := Split(gs[1..]);
      if !Is(gs[0], '\n') {
        BareMore([gs[0]], rest[0]);
      }
    }
  }

  lemma WithoutReturnBare(line: Line)
    requires Bare(line)
    ensures Bare(WithoutReturn(line))
  {
    assert forall g :: g in WithoutReturn(line) ==> g in line;
  }

  lemma {:induction false} WithoutReturnsBare(lines: seq<Line>)
    requires forall line :: line in lines ==> Bare(line)
    ensures forall line :: line in WithoutReturns(lines) ==> Bare(line)
  {
    if lines != [] {
      WithoutReturnsBare(lines[1..]);
      assert lines[0] in lines;
      WithoutReturnBare(lines[0]);
    }
  }

  lemma LinesBare(gs: Line)
    requires Bare(gs)
    ensures forall line :: line in Lines(gs) ==> Bare(line)
  {
    var pieces := Split(gs);
    PiecesBare(gs);
    WithoutReturnsBare(pieces[..|pieces| - 1]);
  }

  lemma {:induction false} WrappedWears(face: Face, lead: Line, lines: seq<Line>)
    requires Wears(face, lead) && forall line :: line in lines ==> Bare(line)
    ensures Wears(face, Wrapped(lead + [Open(face)], lines, [Close(face)] + NEWLINE))
  {
    if lines != [] {
      var line := Styled(face, lines[0]);
      WrappedWears(face, lead, lines[1..]);
      StyledWearsIt(face, lines[0]);
      NoLettersWear(face, NEWLINE);
      WearsAppend(face, lead, line);
      WearsAppend(face, lead + line, NEWLINE);
      assert lead + [Open(face)] + lines[0] + ([Close(face)] + NEWLINE) == lead + line + NEWLINE;
      WearsAppend(face, lead + line + NEWLINE, Wrapped(lead + [Open(face)], lines[1..], [Close(face)] + NEWLINE));
    }
  }

  lemma HeadingWears(level: nat, text: Line)
    requires Bare(text)
    ensures Wears(HeadingFace, HeadingLines(level, text))
  {
    var marked := G.Plain(Hashes(level) + " ") + text;
    BareMore(G.Plain(Hashes(level) + " "), text);
    StyledWearsIt(HeadingFace, marked);
    NoLettersWear(HeadingFace, NEWLINE);
    WearsAppend(HeadingFace, NEWLINE, Styled(HeadingFace, marked));
    WearsAppend(HeadingFace, NEWLINE + Styled(HeadingFace, marked), NEWLINE);
  }

  lemma QuoteWears(text: Line)
    requires Bare(text)
    ensures Wears(QuoteFace, QuoteLines(text))
  {
    var bar := Styled(QuoteFace, [Chrome(BAR)]);
    LinesBare(text);
    NoLettersWear(QuoteFace, MARGIN);
    NoLettersWear(QuoteFace, BLANK);
    NothingWorn(QuoteFace, QuoteFace, [Chrome(BAR)]);
    WearsAppend(QuoteFace, MARGIN, bar);
    WearsAppend(QuoteFace, MARGIN + bar, BLANK);
    WrappedWears(QuoteFace, MARGIN + bar + BLANK, Lines(text));
  }

  lemma FenceWears(face: Face)
    ensures Wears(face, CODE_FOOTER) && Wears(face, MARGIN + Styled(RuleFace, G.Plain("```")))
  {
    NoLettersWear(face, MARGIN);
    NoLettersWear(face, NEWLINE);
    NothingWorn(face, RuleFace, G.Plain("```"));
    WearsAppend(face, MARGIN, Styled(RuleFace, G.Plain("```")));
    WearsAppend(face, MARGIN + Styled(RuleFace, G.Plain("```")), NEWLINE);
  }

  lemma CodeHeaderWears(face: Face, lang: Option<string>)
    ensures Wears(face, CodeHeader(lang))
  {
    var fence := MARGIN + Styled(RuleFace, G.Plain("```"));
    var name := if lang.Some? then BLANK + Styled(RuleFace, G.Plain(lang.value)) else [];
    FenceWears(face);
    NoLettersWear(face, BLANK);
    NoLettersWear(face, NEWLINE);
    if lang.Some? {
      NothingWorn(face, RuleFace, G.Plain(lang.value));
      WearsAppend(face, BLANK, Styled(RuleFace, G.Plain(lang.value)));
    }
    WearsAppend(face, fence, name);
    WearsAppend(face, fence + name, NEWLINE);
  }

  lemma CodeWears(lang: Option<string>, code: Line)
    requires Bare(code)
    ensures Wears(CodeFace, CodeLines(lang, code))
  {
    var body := Wrapped(CODE_OPEN, Lines(code), CODE_CLOSE);
    LinesBare(code);
    NoLettersWear(CodeFace, MARGIN);
    WrappedWears(CodeFace, MARGIN, Lines(code));
    CodeHeaderWears(CodeFace, lang);
    FenceWears(CodeFace);
    WearsAppend(CodeFace, CodeHeader(lang), body);
    WearsAppend(CodeFace, CodeHeader(lang) + body, CODE_FOOTER);
  }

  /** The end of a heading, code block or quote, after any run from rest, writes all its letters in
      the face of its kind, and leaves no face on. */
  lemma BlocksWear(style: Style, events: seq<Event>, end: TagEnd) returns (written: Line, face: Face)
    requires end == HeadingEnd || end == CodeBlockEnd || end == BlockQuoteEnd
    ensures var st := Run(style, REST, events);
            Run(style, st, [End(end)]).output == st.output + written
    ensures face == match end case HeadingEnd => HeadingFace case CodeBlockEnd => CodeFace case _ => QuoteFace
    ensures Wears(face, written)
  {
    var st := Run(style, REST, events);
    RunStaysBare(style, REST, events);
    RunSingle(style, st, End(end));
    HeadingWears(st.headingLevel, st.headingBuf);
    CodeWears(st.codeLang, st.codeBuf);
    QuoteWears(st.quoteBuf);
    match end {
      case HeadingEnd => written, face := HeadingLines(st.headingLevel, st.headingBuf), HeadingFace;
      case CodeBlockEnd => written, face := CodeLines(st.codeLang, st.codeBuf), CodeFace;
      case _ => written, face := QuoteLines(st.quoteBuf), QuoteFace;
    }
  }

  // ---- What text looks like ----

  function Chars(text: seq<Letter>): string {
    seq(|text|, i requires 0 <= i < |text| => text[i].ch)
  }

  lemma {:induction false} ScreenOfInked(text: seq<Letter>)
    ensures Screen(Inked(text)) == Chars(text)
  {
    if text != [] {
      ScreenOfInked(text[1..]);
      assert Inked(text)[1..] == Inked(text[1..]);
      assert Chars(text) == [text[0].ch] + Chars(text[1..]);
    }
  }

  lemma ScreenOfTicked(text: seq<Letter>)
    ensures Screen(InlineCode(text)) == "`" + Chars(text) + "`"
  {
    ScreenOfInked(text);
    OneGlyph(Chrome('`'));
    ScreenAppend(TICK + Inked(text), TICK);
    ScreenAppend(TICK, Inked(text));
  }

  /** Text is put where text goes as it is, and inline code between back quotes, but in a heading
      without. */
  lemma TextLooks(style: Style, st: State, text: seq<Letter>) returns (shown: Line, code: Line)
    requires SpotOf(st) != ToCode
    ensures Like(Run(style, st, [Text(text)]), Put(st, SpotOf(st), shown)) && Screen(shown) == Chars(text)
    ensures Like(Run(style, st, [Code(text)]), Put(st, SpotOf(st), code))
    ensures Screen(code) == if SpotOf(st) == ToHeading then Chars(text) else "`" + Chars(text) + "`"
  {
    var spot := SpotOf(st);
    RunSingle(style, st, Text(text));
    RunSingle(style, st, Code(text));
    ScreenOfInked(text);
    ScreenOfTicked(text);
    ScreenOfStyled(BoldFace, Inked(text));
    ScreenOfStyled(EmphasisFace, Inked(text));
    ScreenOfStyled(CodeFace, InlineCode(text));
    shown := if spot == ToItem || spot == ToPage then InlineStyled(st, text) else Inked(text);
    code := if spot == ToHeading then Inked(text)
            else if spot == ToItem || spot == ToPage then Styled(CodeFace, InlineCode(text)) else InlineCode(text);
  }

  // ---- What blocks look like ----

  /** A heading is written between line ends as its level in hashes, a blank and its text; a rule is
      a line of dashes as wide as the screen, at most 72. */
  lemma HeadingAndRuleLook(style: Style, level: nat, text: Line)
    ensures Screen(HeadingLines(level, text)) == "\n" + seq(level, _ => '#') + " " + Screen(text) + "\n"
    ensures Screen(Run(style, REST, [Rule]).output) == seq(if style.width < 72 then style.width else 72, _ => DASH) + "\n"
  {
    var hashes := Hashes(level) + " ";
    var marked := G.Plain(hashes) + text;
    ScreenOfPlain(hashes);
    ScreenAppend(G.Plain(hashes), text);
    ScreenOfStyled(HeadingFace, marked);
    OneGlyph(Chrome('\n'));
    ScreenAppend(NEWLINE + Styled(HeadingFace, marked), NEWLINE);
    ScreenAppend(NEWLINE, Styled(HeadingFace, marked));
    RuleLooks(style);
  }

  lemma RuleLooks(style: Style)
    ensures Screen(Run(style, REST, [Rule]).output) == seq(if style.width < 72 then style.width else 72, _ => DASH) + "\n"
  {
    var n := Min(style.width, 72);
    var dashes := seq(n, _ => DASH);
    RunSingle(style, REST, Rule);
    assert [] + RuleLine(style.width) == RuleLine(style.width);
    ScreenOfPlain(dashes);
    assert Repeated(n, DASH) == G.Plain(dashes);
    ScreenOfStyled(RuleFace, Repeated(n, DASH));
    OneGlyph(Chrome('\n'));
    ScreenAppend(Styled(RuleFace, Repeated(n, DASH)), NEWLINE);
  }

  lemma QuoteOpens()
    ensures Screen(QUOTE_OPEN) == "  " + [BAR] + " "
  {
    var bar := Styled(QuoteFace, [Chrome(BAR)]);
    ScreenOfPlain("  ");
    assert MARGIN == G.Plain("  ");
    OneGlyph(Chrome(' '));
    OneGlyph(Chrome(BAR));
    ScreenOfStyled(QuoteFace, [Chrome(BAR)]);
    OneGlyph(Open(QuoteFace));
    ScreenAppend(MARGIN + bar + BLANK, [Open(QuoteFace)]);
    ScreenAppend(MARGIN + bar, BLANK);
    ScreenAppend(MARGIN, bar);
  }

  /** The lines of a quote stand behind a bar. */
  lemma QuoteLooks(text: Line)
    ensures Screen(QuoteLines(text)) == ScreenLines("  " + [BAR] + " ", Lines(text))
  {
    QuoteOpens();
    ScreenOfWrapped(QUOTE_OPEN, Lines(text), QuoteFace);
  }

  function ScreenLines(lead: string, lines: seq<Line>): string {
    if lines == [] then "" else lead + Screen(lines[0]) + "\n" + ScreenLines(lead, lines[1..])
  }

  lemma {:induction false} ScreenOfWrapped(before: Line, lines: seq<Line>, face: Face)
    ensures Screen(Wrapped(before, lines, [Close(face)] + NEWLINE)) == ScreenLines(Screen(before), lines)
  {
    if lines != [] {
      var after := [Close(face)] + NEWLINE;
      ScreenOfWrapped(before, lines[1..], face);
      ScreenAppend(before + lines[0] + after, Wrapped(before, lines[1..], after));
      ScreenAppend(before + lines[0], after);
      ScreenAppend(before, lines[0]);
      OneGlyph(Close(face));
      OneGlyph(Chrome('\n'));
      ScreenAppend([Close(face)], NEWLINE);
    }
  }

  /** The lines of a code block stand in the margin between two fences, the first with the language. */
  lemma CodeLooks(lang: Option<string>, code: Line)
    ensures Screen(CodeLines(lang, code))
         == "  ```" + (if lang.Some? then " " + lang.value else "") + "\n" + ScreenLines("  ", Lines(code)) + "  ```\n"
  {
    CodeHeaderLooks(lang);
    CodeFooterLooks();
    ScreenOfPlain("  ");
    assert MARGIN == G.Plain("  ");
    OneGlyph(Open(CodeFace));
    ScreenAppend(MARGIN, [Open(CodeFace)]);
    assert Screen(CODE_OPEN) == "  " + "";
    ScreenOfWrapped(CODE_OPEN, Lines(code), CodeFace);
    ScreenAppend(CodeHeader(lang) + Wrapped(CODE_OPEN, Lines(code), CODE_CLOSE), CODE_FOOTER);
    ScreenAppend(CodeHeader(lang), Wrapped(CODE_OPEN, Lines(code), CODE_CLOSE));
  }

  lemma FenceLooks()
    ensures Screen(MARGIN + Styled(RuleFace, G.Plain("```"))) == "  ```"
  {
    ScreenOfPlain("  ");
    ScreenOfPlain("```");
    assert MARGIN == G.Plain("  ");
    ScreenOfStyled(RuleFace, G.Plain("```"));
    ScreenAppend(MARGIN, Styled(RuleFace, G.Plain("```")));
    assert "  " + "```" == "  ```";
  }

  lemma CodeFooterLooks()
    ensures Screen(CODE_FOOTER) == "  ```\n"
  {
    FenceLooks();
    OneGlyph(Chrome('\n'));
    ScreenAppend(MARGIN + Styled(RuleFace, G.Plain("```")), NEWLINE);
    assert "  ```" + "\n" == "  ```\n";
  }

  lemma CodeHeaderLooks(lang: Option<string>)
    ensures Screen(CodeHeader(lang)) == "  ```" + (if lang.Some? then " " + lang.value else "") + "\n"
  {
    var fence := MARGIN + Styled(RuleFace, G.Plain("```"));
    var name := if lang.Some? then BLANK + Styled(RuleFace, G.Plain(lang.value)) else [];
    FenceLooks();
    OneGlyph(Chrome(' '));
    OneGlyph(Chrome('\n'));
    if lang.Some? {
      ScreenOfPlain(lang.value);
      ScreenOfStyled(RuleFace, G.Plain(lang.value));
      ScreenAppend(BLANK, Styled(RuleFace, G.Plain(lang.value)));
    }
    ScreenAppend(fence, name);
    ScreenAppend(fence + name, NEWLINE);
  }
}
