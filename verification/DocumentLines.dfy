/** Documents line by line: the letters and line ends a document comes out with, computed from
    its tree alone, without buffers or flags, and the proof that the renderer writes them. */
module DocumentLines {
  import opened Seqs
  import opened Glyphs
  import opened RendererModel
  import opened RendererNesting
  import opened Documents
  import opened DocumentOrder
  import opened RendererLines

  // ---- Inline text ----

  /** The text of some inline content, with what stands for soft and hard breaks in it. */
  function WordsOf(node: Node, soft: Line, hard: Line): Line
    decreases node, 1
  {
    match node
    case Leaf(Text(text)) => Inked(text)
    case Leaf(Code(text)) => InlineCode(text)
    case Leaf(SoftBreak) => soft
    case Leaf(HardBreak) => hard
    case Leaf(_) => []
    case Elem(_, kids) => WordsAll(kids, soft, hard)
  }

  function WordsAll(nodes: seq<Node>, soft: Line, hard: Line): Line
    decreases nodes, 0
  {
    if nodes == [] then [] else WordsOf(nodes[0], soft, hard) + WordsAll(nodes[1..], soft, hard)
  }

  /** A line end for each hard break. */
  function HardsOf(node: Node): Line
    decreases node, 1
  {
    match node
    case Leaf(event) => if event == HardBreak then NEWLINE else []
    case Elem(_, kids) => HardsAll(kids)
  }

  function HardsAll(nodes: seq<Node>): Line
    decreases nodes, 0
  {
    if nodes == [] then [] else HardsOf(nodes[0]) + HardsAll(nodes[1..])
  }

  /** Whether it puts anything into an item: styled text does even if it is empty. */
  predicate Fills(node: Node, styled: bool)
    decreases node, 1
  {
    match node
    case Leaf(Text(text)) => text != [] || styled
    case Leaf(event) => event.Code? || event == SoftBreak || event == HardBreak
    case Elem(tag, kids) => FillsAny(kids, styled || tag == Strong || tag == Emphasis)
  }

  predicate FillsAny(nodes: seq<Node>, styled: bool)
    decreases nodes, 0
  {
    nodes != [] && (Fills(nodes[0], styled) || FillsAny(nodes[1..], styled))
  }

  /** Whether there is any text in it, be it empty. */
  predicate Writes(node: Node)
    decreases node, 1
  {
    match node
    case Leaf(event) => event.Text? || event.Code?
    case Elem(_, kids) => WritesAny(kids)
  }

  predicate WritesAny(nodes: seq<Node>)
    decreases nodes, 0
  {
    nodes != [] && (Writes(nodes[0]) || WritesAny(nodes[1..]))
  }

  // ---- What inline content does to the renderer ----

  predicate InBlock(spot: Spot) {
    spot == ToHeading || spot == ToQuote
  }

  function SoftIn(spot: Spot): Line {
    if spot == ToHeading then [] else NEWLINE
  }

  function HardIn(spot: Spot): Line {
    if InBlock(spot) then [] else NEWLINE
  }

  predicate InStyle(st: State) {
    st.strongDepth > 0 || st.emphasisDepth > 0
  }

  /** `text` is put where text goes, and `passed` where line ends go that pass by. */
  ghost predicate Grew(st: State, next: State, text: Line, passed: Line) {
    Like(next, Put(Put(st, Outer(st), passed), SpotOf(st), text))
  }

  /** What some content brings about, told by its words, its hard breaks, and whether it fills an
      item or writes on the page. */
  ghost predicate Told(
    st: State, next: State, words: Line, hards: Line, fills: bool, writes: bool, text: Line, passed: Line)
  {
    && Grew(st, next, text, passed)
    && Signs(text) == Signs(words) && (SpotOf(st) == ToQuote ==> text == words)
    && passed == (if InBlock(SpotOf(st)) then hards else [])
    && (SpotOf(st) == ToItem ==> (text != [] <==> fills))
    && (SpotOf(st) == ToPage ==> next.lastWasBlank == (st.lastWasBlank && !writes))
  }

  ghost predicate Open(spot: Spot) {
    spot != ToCell && spot != ToCode
  }

  lemma PutNothing(st: State, spot: Spot)
    ensures Put(st, spot, []) == st
  {
    match spot {
      case ToCell => assert st.table.cell + [] == st.table.cell;
      case ToCode => assert st.codeBuf + [] == st.codeBuf;
      case ToHeading => assert st.headingBuf + [] == st.headingBuf;
      case ToQuote => assert st.quoteBuf + [] == st.quoteBuf;
      case ToItem =>
        if st.items != [] {
          var n := |st.items| - 1;
          var top := st.items[n];
          assert top.content + [] == top.content;
          assert st.items[..n] + [top] == st.items;
        }
      case ToPage => assert st.output + [] == st.output;
    }
  }

  lemma PutApart(st: State, a: Line, b: Line)
    requires InBlock(SpotOf(st))
    ensures Put(Put(st, SpotOf(st), a), Outer(st), b) == Put(Put(st, Outer(st), b), SpotOf(st), a)
    ensures SpotOf(Put(st, Outer(st), b)) == SpotOf(st) && Outer(Put(st, Outer(st), b)) == Outer(st)
    ensures Outer(Put(st, SpotOf(st), a)) == Outer(st)
  {
  }

  lemma GrewKeepsPlace(st: State, next: State, text: Line, passed: Line)
    requires Grew(st, next, text, passed) && Open(SpotOf(st))
    ensures SpotOf(next) == SpotOf(st) && Outer(next) == Outer(st) && InStyle(next) == InStyle(st)
  {
  }

  lemma GrewInBlock(st: State, mid: State, next: State, a: Line, p: Line, b: Line, q: Line)
    requires InBlock(SpotOf(st)) && Grew(st, mid, a, p) && Grew(mid, next, b, q)
    ensures Grew(st, next, a + b, p + q)
  {
    var spot, outer := SpotOf(st), Outer(st);
    var passed := Put(st, outer, p);
    GrewKeepsPlace(st, mid, a, p);
    PutApart(st, a, p);
    LikeStays(mid, Put(passed, spot, a), outer, q);
    PutApart(passed, a, q);
    PutTwice(st, outer, p, q);
    assert Like(Put(mid, outer, q), Put(Put(st, outer, p + q), spot, a));
    LikeStays(Put(mid, outer, q), Put(Put(st, outer, p + q), spot, a), spot, b);
    PutTwice(Put(st, outer, p + q), spot, a, b);
  }

  lemma GrewOutside(st: State, mid: State, next: State, a: Line, b: Line)
    requires SpotOf(st) == ToItem || SpotOf(st) == ToPage
    requires Grew(st, mid, a, []) && Grew(mid, next, b, [])
    ensures Grew(st, next, a + b, [])
  {
    GrewKeepsPlace(st, mid, a, []);
    PutNothing(st, Outer(st));
    PutNothing(mid, Outer(st));
    PutOn(st, mid, next, SpotOf(st), a, b);
  }

  lemma ToldBoth(
    st: State, mid: State, next: State,
    w: Line, h: Line, f: bool, r: bool, a: Line, p: Line,
    v: Line, g: Line, e: bool, t: bool, b: Line, q: Line)
    requires Open(SpotOf(st)) && Told(st, mid, w, h, f, r, a, p) && Told(mid, next, v, g, e, t, b, q)
    ensures Told(st, next, w + v, h + g, f || e, r || t, a + b, p + q)
  {
    GrewKeepsPlace(st, mid, a, p);
    SignsAppend(a, b);
    SignsAppend(w, v);
    if InBlock(SpotOf(st)) {
      GrewInBlock(st, mid, next, a, p, b, q);
    } else {
      GrewOutside(st, mid, next, a, b);
    }
  }

  lemma NothingTold(st: State)
    ensures Told(st, st, [], [], false, false, [], [])
  {
    PutNothing(st, Outer(st));
    PutNothing(st, SpotOf(st));
  }

  lemma PutOne(st: State, next: State, spot: Spot, text: Line)
    requires Like(next, Put(st, spot, text)) && spot == SpotOf(st)
    ensures Grew(st, next, text, [])
  {
    PutNothing(st, Outer(st));
  }

  lemma TextTold(st: State, words: seq<Letter>) returns (text: Line)
    requires Open(SpotOf(st))
    ensures Told(st, StepText(st, words), Inked(words), [], words != [] || InStyle(st), true, text, [])
  {
    SignsInline(st, words);
    text := if InBlock(SpotOf(st)) then Inked(words) else InlineStyled(st, words);
    PutOne(st, StepText(st, words), SpotOf(st), text);
  }

  lemma CodeTold(st: State, words: seq<Letter>) returns (text: Line)
    requires Open(SpotOf(st))
    ensures Told(st, StepCode(st, words), InlineCode(words), [], true, true, text, [])
  {
    SignsInlineCode(words);
    text := if SpotOf(st) == ToHeading then Inked(words) else if SpotOf(st) == ToQuote then InlineCode(words)
            else Styled(CodeFace, InlineCode(words));
    PutOne(st, StepCode(st, words), SpotOf(st), text);
  }

  lemma SoftTold(st: State) returns (text: Line)
    requires Open(SpotOf(st))
    ensures Told(st, StepSoftBreak(st), SoftIn(SpotOf(st)), [], true, false, text, [])
  {
    SignsNewline();
    SoftBreakIsPut(st);
    text := if SpotOf(st) == ToHeading then BLANK else NEWLINE;
    PutOne(st, StepSoftBreak(st), SpotOf(st), text);
  }

  lemma HardTold(st: State) returns (text: Line, passed: Line)
    requires Open(SpotOf(st))
    ensures Told(st, StepHardBreak(st), HardIn(SpotOf(st)), NEWLINE, true, false, text, passed)
  {
    if InBlock(SpotOf(st)) {
      text, passed := [], NEWLINE;
      PutNothing(Put(st, Outer(st), NEWLINE), SpotOf(st));
    } else {
      text, passed := NEWLINE, [];
      PutOne(st, StepHardBreak(st), SpotOf(st), NEWLINE);
    }
  }

  /** What a piece of inline content brings about. */
  ghost predicate NodeTold(st: State, next: State, node: Node, text: Line, passed: Line) {
    Told(st, next, WordsOf(node, SoftIn(SpotOf(st)), HardIn(SpotOf(st))), HardsOf(node),
         Fills(node, InStyle(st)), Writes(node), text, passed)
  }

  ghost predicate NodesTold(st: State, next: State, nodes: seq<Node>, text: Line, passed: Line) {
    Told(st, next, WordsAll(nodes, SoftIn(SpotOf(st)), HardIn(SpotOf(st))), HardsAll(nodes),
         FillsAny(nodes, InStyle(st)), WritesAny(nodes), text, passed)
  }

  lemma LeafTold(style: Style, st: State, event: Event) returns (text: Line, passed: Line)
    requires Inline(Leaf(event)) && Open(SpotOf(st))
    ensures NodeTold(st, Run(style, st, [event]), Leaf(event), text, passed)
  {
    text, passed := [], [];
    assert [event][1..] == [];
    assert Run(style, st, [event]) == Step(style, st, event);
    match event {
      case Text(words) => text := TextTold(st, words);
      case Code(words) => text := CodeTold(st, words);
      case SoftBreak => text := SoftTold(st);
      case HardBreak => text, passed := HardTold(st);
      case _ => NothingTold(st);
    }
  }

  function Restyled(st: State, strong: nat, emphasis: nat): State {
    st.(strongDepth := strong, emphasisDepth := emphasis)
  }

  lemma PutRestyled(st: State, spot: Spot, text: Line, strong: nat, emphasis: nat)
    ensures Put(Restyled(st, strong, emphasis), spot, text) == Restyled(Put(st, spot, text), strong, emphasis)
  {
  }

  lemma RestyledBack(st: State, last: State, done: State, strong: nat, emphasis: nat)
    requires Like(last, Restyled(done, strong, emphasis))
    requires done.strongDepth == st.strongDepth && done.emphasisDepth == st.emphasisDepth
    ensures Like(Restyled(last, st.strongDepth, st.emphasisDepth), done)
    ensures last.strongDepth == strong && last.emphasisDepth == emphasis
  {
  }

  lemma PutKeepsStyle(st: State, spot: Spot, text: Line)
    ensures Put(st, spot, text).strongDepth == st.strongDepth && Put(st, spot, text).emphasisDepth == st.emphasisDepth
  {
  }

  lemma RestyledGrows(st: State, last: State, strong: nat, emphasis: nat, text: Line, passed: Line)
    requires Grew(Restyled(st, strong, emphasis), last, text, passed)
    ensures Grew(st, Restyled(last, st.strongDepth, st.emphasisDepth), text, passed)
    ensures last.strongDepth == strong && last.emphasisDepth == emphasis
  {
    var outer, spot := Outer(st), SpotOf(st);
    var ended := Put(st, outer, passed);
    PutRestyled(st, outer, passed, strong, emphasis);
    PutRestyled(ended, spot, text, strong, emphasis);
    PutKeepsStyle(st, outer, passed);
    PutKeepsStyle(ended, spot, text);
    RestyledBack(st, last, Put(ended, spot, text), strong, emphasis);
  }

  lemma SpanIsStyle(style: Style, st: State, tag: Tag, last: State)
    requires IsSpan(tag)
    ensures var inner := StepStart(st, tag);
            && inner == Restyled(st, inner.strongDepth, inner.emphasisDepth)
            && InStyle(inner) == (InStyle(st) || tag == Strong || tag == Emphasis)
            && (last.strongDepth == inner.strongDepth && last.emphasisDepth == inner.emphasisDepth ==>
                  StepEnd(style, last, EndOf(tag)) == Restyled(last, st.strongDepth, st.emphasisDepth))
  {
  }

  /** A span changes nothing but the styles, and closes as it opened. */
  lemma SpanTold(style: Style, st: State, tag: Tag, last: State, kids: seq<Node>, text: Line, passed: Line)
    requires IsSpan(tag) && Open(SpotOf(st)) && NodesTold(StepStart(st, tag), last, kids, text, passed)
    ensures NodeTold(st, StepEnd(style, last, EndOf(tag)), Elem(tag, kids), text, passed)
  {
    var inner := StepStart(st, tag);
    SpanIsStyle(style, st, tag, last);
    RestyledGrows(st, last, inner.strongDepth, inner.emphasisDepth, text, passed);
  }

  lemma RunElem(style: Style, st: State, tag: Tag, kids: seq<Node>)
    ensures var last := Run(style, StepStart(st, tag), EventsAll(kids));
            Run(style, st, EventsOf(Elem(tag, kids))) == StepEnd(style, last, EndOf(tag))
  {
    var start, end := [Start(tag)], [End(EndOf(tag))];
    assert start[1..] == [] && end[1..] == [];
    assert Run(style, st, start) == StepStart(st, tag);
    RunAppend(style, st, start + EventsAll(kids), end);
    RunAppend(style, st, start, EventsAll(kids));
    var last := Run(style, StepStart(st, tag), EventsAll(kids));
    assert Run(style, last, end) == Step(style, last, End(EndOf(tag)));
  }

  lemma {:induction false} InlineTold(style: Style, st: State, node: Node) returns (text: Line, passed: Line)
    requires Inline(node) && Open(SpotOf(st))
    ensures NodeTold(st, Run(style, st, EventsOf(node)), node, text, passed)
    decreases node, 1
  {
    match node {
      case Leaf(event) => text, passed := LeafTold(style, st, event);
      case Elem(tag, kids) =>
        RunElem(style, st, tag, kids);
        text, passed := InlinesTold(style, StepStart(st, tag), kids);
        SpanTold(style, st, tag, Run(style, StepStart(st, tag), EventsAll(kids)), kids, text, passed);
    }
  }

  lemma {:induction false} InlinesTold(style: Style, st: State, nodes: seq<Node>) returns (text: Line, passed: Line)
    requires InlineAll(nodes) && Open(SpotOf(st))
    ensures NodesTold(st, Run(style, st, EventsAll(nodes)), nodes, text, passed)
    decreases nodes, 0
  {
    if nodes == [] {
      text, passed := [], [];
      NothingTold(st);
    } else {
      var first, past := InlineTold(style, st, nodes[0]);
      var mid := Run(style, st, EventsOf(nodes[0]));
      GrewKeepsPlace(st, mid, first, past);
      RunAppend(style, st, EventsOf(nodes[0]), EventsAll(nodes[1..]));
      text, passed := InlinesTold(style, mid, nodes[1..]);
      JoinTold(st, mid, Run(style, mid, EventsAll(nodes[1..])), nodes, first, past, text, passed);
      text, passed := first + text, past + passed;
    }
  }

  lemma JoinTold(st: State, mid: State, next: State, nodes: seq<Node>, first: Line, past: Line, text: Line, passed: Line)
    requires nodes != [] && Open(SpotOf(st))
    requires SpotOf(mid) == SpotOf(st) && InStyle(mid) == InStyle(st)
    requires NodeTold(st, mid, nodes[0], first, past) && NodesTold(mid, next, nodes[1..], text, passed)
    ensures NodesTold(st, next, nodes, first + text, past + passed)
  {
    var soft, hard, styled := SoftIn(SpotOf(st)), HardIn(SpotOf(st)), InStyle(st);
    ToldBoth(st, mid, next,
             WordsOf(nodes[0], soft, hard), HardsOf(nodes[0]), Fills(nodes[0], styled), Writes(nodes[0]), first, past,
             WordsAll(nodes[1..], soft, hard), HardsAll(nodes[1..]), FillsAny(nodes[1..], styled), WritesAny(nodes[1..]), text, passed);
  }

  // ---- The grammar ----

  predicate Buffered(node: Node) {
    || node == Leaf(Rule)
    || (node.Elem? && node.tag.Heading? && InlineAll(node.kids))
    || (node.Elem? && node.tag.CodeBlock? && CodeText(node.kids))
    || (node.Elem? && node.tag.BlockQuote? && TextBlocks(node.kids))
  }

  /** Inline text, paragraphs, headings, code blocks, quotes of text, rules, and lists, whose items
      hold any such blocks again. */
  predicate Block(node: Node)
    decreases node, 1
  {
    TextBlock(node) || Buffered(node) || (node.Elem? && node.tag.List? && Entries(node.kids))
  }

  predicate Blocks(nodes: seq<Node>)
    decreases nodes, 0
  {
    nodes == [] || (Block(nodes[0]) && Blocks(nodes[1..]))
  }

  predicate Entries(nodes: seq<Node>)
    decreases nodes, 0
  {
    nodes == [] || (nodes[0].Elem? && nodes[0].tag.Item? && Blocks(nodes[0].kids) && Entries(nodes[1..]))
  }

  // ---- Lines of a document ----

  /** A line end for a gap, unless a blank line is there already. */
  function Gap(blank: bool): seq<Sign> {
    if blank then [] else [LineEnd]
  }

  /** What a heading, code block, quote or rule comes out as: all of them end their last line, a
      heading also the line before, and a code block stands between two fences. */
  function Now(node: Node): seq<Sign> {
    if node.Leaf? then [LineEnd]
    else match node.tag
      case Heading(_) => [LineEnd] + Signs(WordsAll(node.kids, [], [])) + [LineEnd]
      case CodeBlock(kind) =>
        var code := WordsAll(node.kids, [], []);
        (if kind.Fenced? then Signs(Plain(kind.info)) else []) + [LineEnd] + (Signs(code) + Ending(code)) + [LineEnd]
      case _ =>
        var quoted := WordsAll(node.kids, NEWLINE, []);
        Signs(quoted) + Ending(quoted)
  }

  /** The line ends of its hard breaks, which are not in it. */
  function PassedBy(node: Node): Line {
    if node.Elem? && (node.tag.Heading? || node.tag.BlockQuote?) then HardsAll(node.kids) else []
  }

  /** What is left of an item to come out: `text` is what it holds, if `filled`, and `shown` tells
      that its label is out.  Paragraphs leave no mark; a list sends what is held ahead, if that is
      to carry the label; other blocks come out at once. */
  function ItemSigns(kids: seq<Node>, text: seq<Sign>, filled: bool, shown: bool): seq<Sign>
    decreases kids, 0
  {
    if kids == [] then (if filled || !shown then text + [LineEnd] else [])
    else if Buffered(kids[0]) then
      var passed := PassedBy(kids[0]);
      Now(kids[0]) + ItemSigns(kids[1..], text + Signs(passed), filled || passed != [], shown)
    else if IsList(kids[0]) then
      if filled && !shown then text + [LineEnd] + ListSigns(kids[0]) + ItemSigns(kids[1..], [], false, true)
      else ListSigns(kids[0]) + ItemSigns(kids[1..], text, filled, shown)
    else
      ItemSigns(kids[1..], text + Signs(WordsOf(kids[0], NEWLINE, NEWLINE)), filled || Fills(kids[0], false), shown)
  }

  predicate IsList(node: Node) {
    node.Elem? && node.tag.List?
  }

  function ListSigns(node: Node): seq<Sign>
    decreases node, 1
  {
    if node.Elem? then EntriesSigns(node.kids) else []
  }

  function EntrySigns(node: Node): seq<Sign>
    decreases node, 1
  {
    if node.Elem? then ItemSigns(node.kids, [], false, false) else []
  }

  function EntriesSigns(nodes: seq<Node>): seq<Sign>
    decreases nodes, 0
  {
    if nodes == [] then [] else EntrySigns(nodes[0]) + EntriesSigns(nodes[1..])
  }

  /** A page of blocks, after a blank line or not. */
  function PageSigns(nodes: seq<Node>, blank: bool): seq<Sign> {
    if nodes == [] then []
    else
      var node := nodes[0];
      if Buffered(node) then Signs(PassedBy(node)) + Now(node) + PageSigns(nodes[1..], node.Leaf?)
      else if IsList(node) then Gap(blank) + ListSigns(node) + PageSigns(nodes[1..], true)
      else if Inline(node) then
        Signs(WordsOf(node, NEWLINE, NEWLINE)) + PageSigns(nodes[1..], blank && !Writes(node))
      else Gap(blank) + Signs(WordsOf(node, NEWLINE, NEWLINE)) + [LineEnd] + PageSigns(nodes[1..], true)
  }

  // ---- Blocks with a buffer ----

  /** No buffer is open and no style is on. */
  ghost predicate AtEase(st: State) {
    && !st.table.inTable && !st.inCodeBlock && !st.inHeading && !st.inBlockQuote
    && st.strongDepth == 0 && st.emphasisDepth == 0 && st.codeLang == None
    && st.codeBuf == [] && st.headingBuf == [] && st.quoteBuf == []
  }

  /** The same but for two notes that do not matter here. */
  ghost predicate Alike(st: State, other: State) {
    st == other.(lastWasBlank := st.lastWasBlank, headingLevel := st.headingLevel)
  }

  /** `now` is written to the page and `passed` put where line ends go that pass by. */
  ghost predicate Emits(st: State, next: State, now: Line, passed: Line) {
    Alike(next, Put(Put(st, Outer(st), passed), ToPage, now))
  }

  lemma HeadingCloses(style: Style, st: State, level: nat, last: State, text: Line, passed: Line)
    requires AtEase(st) && Grew(StepStart(st, Heading(level)), last, text, passed)
    ensures var next := StepEnd(style, last, HeadingEnd);
            Emits(st, next, HeadingLines(level, text), passed) && !next.lastWasBlank
  {
    assert [] + text == text;
  }

  lemma HeadingEmits(style: Style, st: State, level: nat, kids: seq<Node>) returns (now: Line)
    requires AtEase(st) && InlineAll(kids)
    ensures var node := Elem(Heading(level), kids);
            var next := Run(style, st, EventsOf(node));
            Emits(st, next, now, HardsAll(kids)) && Signs(now) == Now(node) && !next.lastWasBlank
  {
    var begun := StepStart(st, Heading(level));
    RunElem(style, st, Heading(level), kids);
    var text, passed := InlinesTold(style, begun, kids);
    HeadingCloses(style, st, level, Run(style, begun, EventsAll(kids)), text, passed);
    now := HeadingLines(level, text);
    SignsHeadingLines(level, text);
  }

  lemma {:induction false} TextBlocksTold(style: Style, st: State, nodes: seq<Node>) returns (text: Line, passed: Line)
    requires TextBlocks(nodes) && SpotOf(st) == ToQuote
    ensures NodesTold(st, Run(style, st, EventsAll(nodes)), nodes, text, passed)
    decreases |nodes|
  {
    if nodes == [] {
      text, passed := [], [];
      NothingTold(st);
    } else {
      var first, past := TextBlockTold(style, st, nodes[0]);
      var mid := Run(style, st, EventsOf(nodes[0]));
      GrewKeepsPlace(st, mid, first, past);
      RunAppend(style, st, EventsOf(nodes[0]), EventsAll(nodes[1..]));
      text, passed := TextBlocksTold(style, mid, nodes[1..]);
      JoinTold(st, mid, Run(style, mid, EventsAll(nodes[1..])), nodes, first, past, text, passed);
      text, passed := first + text, past + passed;
    }
  }

  lemma TextBlockTold(style: Style, st: State, node: Node) returns (text: Line, passed: Line)
    requires TextBlock(node) && (SpotOf(st) == ToQuote || SpotOf(st) == ToItem)
    ensures NodeTold(st, Run(style, st, EventsOf(node)), node, text, passed)
  {
    if Inline(node) {
      text, passed := InlineTold(style, st, node);
    } else {
      RunElem(style, st, Paragraph, node.kids);
      text, passed := InlinesTold(style, st, node.kids);
      GrewKeepsPlace(st, Run(style, st, EventsAll(node.kids)), text, passed);
    }
  }

  lemma QuoteCloses(style: Style, st: State, last: State, text: Line, passed: Line)
    requires AtEase(st) && Grew(StepStart(st, BlockQuote), last, text, passed)
    ensures var next := StepEnd(style, last, BlockQuoteEnd);
            Emits(st, next, QuoteLines(text), passed) && !next.lastWasBlank
  {
    assert [] + text == text;
  }

  lemma QuoteEmits(style: Style, st: State, kids: seq<Node>) returns (now: Line)
    requires AtEase(st) && TextBlocks(kids)
    ensures var node := Elem(BlockQuote, kids);
            var next := Run(style, st, EventsOf(node));
            Emits(st, next, now, HardsAll(kids)) && Signs(now) == Now(node) && !next.lastWasBlank
  {
    var begun := StepStart(st, BlockQuote);
    RunElem(style, st, BlockQuote, kids);
    var text, passed := TextBlocksTold(style, begun, kids);
    QuoteCloses(style, st, Run(style, begun, EventsAll(kids)), text, passed);
    now := QuoteLines(text);
    SignsQuoteLines(text);
  }

  lemma {:induction false} CodeTextRuns(style: Style, st: State, nodes: seq<Node>)
    requires CodeText(nodes) && SpotOf(st) == ToCode
    ensures Run(style, st, EventsAll(nodes)) == Put(st, ToCode, WordsAll(nodes, [], []))
    decreases |nodes|
  {
    if nodes == [] {
      PutNothing(st, ToCode);
    } else {
      var words := Inked(nodes[0].event.text);
      var mid := Put(st, ToCode, words);
      RunAppend(style, st, EventsOf(nodes[0]), EventsAll(nodes[1..]));
      assert Run(style, st, EventsOf(nodes[0])) == Step(style, st, nodes[0].event);
      CodeTextRuns(style, mid, nodes[1..]);
      PutTwice(st, ToCode, words, WordsAll(nodes[1..], [], []));
    }
  }

  lemma CodeEmits(style: Style, st: State, kind: CodeBlockKind, kids: seq<Node>) returns (now: Line)
    requires AtEase(st) && CodeText(kids)
    ensures var node := Elem(CodeBlock(kind), kids);
            var next := Run(style, st, EventsOf(node));
            Emits(st, next, now, []) && Signs(now) == Now(node) && !next.lastWasBlank
  {
    var begun := StepStart(st, CodeBlock(kind));
    var code := WordsAll(kids, [], []);
    RunElem(style, st, CodeBlock(kind), kids);
    CodeTextRuns(style, begun, kids);
    now := CodeLines(begun.codeLang, code);
    SignsCodeLines(begun.codeLang, code);
    assert [] + code == code && Signs(Plain("")) == [];
    PutNothing(st, Outer(st));
  }

  lemma RuleEmits(style: Style, st: State) returns (now: Line)
    ensures var next := Run(style, st, [Rule]);
            Emits(st, next, now, []) && Signs(now) == [LineEnd] && next.lastWasBlank
  {
    now := RuleLine(style.width);
    SignsRule(style.width);
    PutNothing(st, Outer(st));
    assert [Rule][1..] == [];
    assert Run(style, st, [Rule]) == Step(style, st, Rule);
  }

  lemma BufferedEmits(style: Style, st: State, node: Node) returns (now: Line)
    requires AtEase(st) && Buffered(node)
    ensures var next := Run(style, st, EventsOf(node));
            Emits(st, next, now, PassedBy(node)) && Signs(now) == Now(node) && next.lastWasBlank == node.Leaf?
  {
    if node.Leaf? {
      now := RuleEmits(style, st);
    } else {
      if node.tag.Heading? {
        now := HeadingEmits(style, st, node.tag.level, node.kids);
      } else if node.tag.CodeBlock? {
        now := CodeEmits(style, st, node.tag.kind, node.kids);
      } else {
        now := QuoteEmits(style, st, node.kids);
      }
    }
  }

  // ---- Items ----

  function TopItem(st: State): Frame
    requires st.items != []
  {
    st.items[|st.items| - 1]
  }

  /** An item that takes blocks: nothing else is open in it, and its label has no line ends. */
  ghost predicate InEntry(st: State) {
    AtEase(st) && st.items != [] && st.listDepth > 0 && Signs(TopItem(st).prefix) == []
  }

  /** The innermost item is done, and `written` is out. */
  ghost predicate EntryDone(st: State, next: State, written: Line) {
    st.items != [] && Alike(next, st.(items := st.items[..|st.items| - 1], output := st.output + written))
  }

  lemma EndOfEntry(st: State) returns (written: Line)
    requires InEntry(st)
    ensures var top := TopItem(st);
            && EntryDone(st, EndItem(st), written)
            && Signs(written) == ItemSigns([], Signs(top.content), top.content != [], top.emitted)
  {
    var top := TopItem(st);
    SignsItemLines(top);
    written := if top.content != [] || !top.emitted then ItemLines(top) else [];
    assert st.output + [] == st.output;
  }

  lemma HeldInTop(st: State, mid: State, text: Line)
    requires InEntry(st) && Like(mid, Put(st, ToItem, text))
    ensures InEntry(mid) && mid.output == st.output && |mid.items| == |st.items|
    ensures Alike(mid.(items := []), st.(items := [])) && mid.items[..|st.items| - 1] == st.items[..|st.items| - 1]
    ensures TopItem(mid) == TopItem(st).(content := TopItem(st).content + text)
  {
  }

  /** Text in an item is held. */
  lemma TextHeld(style: Style, st: State, node: Node) returns (text: Line)
    requires InEntry(st) && TextBlock(node)
    ensures var mid := Run(style, st, EventsOf(node));
            && InEntry(mid) && mid.output == st.output && |mid.items| == |st.items|
            && Alike(mid.(items := []), st.(items := [])) && mid.items[..|st.items| - 1] == st.items[..|st.items| - 1]
            && TopItem(mid) == TopItem(st).(content := TopItem(st).content + text)
            && Signs(text) == Signs(WordsOf(node, NEWLINE, NEWLINE)) && (text != [] <==> Fills(node, false))
  {
    var passed;
    text, passed := TextBlockTold(style, st, node);
    PutNothing(st, Outer(st));
    HeldInTop(st, Run(style, st, EventsOf(node)), text);
  }

  /** A block with a buffer is out at once; its hard breaks are held. */
  lemma BufferedPasses(style: Style, st: State, node: Node) returns (now: Line)
    requires InEntry(st) && Buffered(node)
    ensures var mid := Run(style, st, EventsOf(node));
            && InEntry(mid) && mid.output == st.output + now && |mid.items| == |st.items|
            && Alike(mid.(items := [], output := []), st.(items := [], output := []))
            && mid.items[..|st.items| - 1] == st.items[..|st.items| - 1]
            && TopItem(mid) == TopItem(st).(content := TopItem(st).content + PassedBy(node))
            && Signs(now) == Now(node)
  {
    now := BufferedEmits(style, st, node);
  }

  lemma DoneAfter(st: State, mid: State, last: State, now: Line, rest: Line)
    requires st.items != [] && EntryDone(mid, last, rest) && mid.output == st.output + now
    requires |mid.items| == |st.items| && mid.items[..|st.items| - 1] == st.items[..|st.items| - 1]
    requires Alike(mid.(items := [], output := []), st.(items := [], output := []))
    ensures EntryDone(st, last, now + rest)
  {
    Associate(st.output, now, rest);
  }

  lemma RunNext(style: Style, st: State, nodes: seq<Node>)
    requires nodes != []
    ensures Run(style, st, EventsAll(nodes)) == Run(style, Run(style, st, EventsOf(nodes[0])), EventsAll(nodes[1..]))
  {
    RunAppend(style, st, EventsOf(nodes[0]), EventsAll(nodes[1..]));
  }

  /** A list is written at once, behind what the item around it holds if that is flushed. */
  ghost predicate ListDone(st: State, next: State, written: Line) {
    Alike(next, FlushItem(st).(output := FlushItem(st).output + written)) && next.lastWasBlank
  }

  lemma FlushFirst(st: State) returns (ahead: Line)
    requires InEntry(st)
    ensures var next, top := FlushItem(st), TopItem(st);
            && next.output == st.output + ahead && InEntry(next) && |next.items| == |st.items|
            && Alike(next.(items := [], output := []), st.(items := [], output := []))
            && next.items[..|st.items| - 1] == st.items[..|st.items| - 1]
            && (if top.content != [] && !top.emitted
                then Signs(ahead) == Signs(top.content) + [LineEnd] && TopItem(next) == top.(content := [], emitted := true)
                else ahead == [] && next == st)
  {
    var top := TopItem(st);
    SignsItemLines(top);
    ahead := if top.content != [] && !top.emitted then ItemLines(top) else [];
    assert st.output + [] == st.output;
  }

  lemma {:induction false} ContentRuns(style: Style, st: State, kids: seq<Node>) returns (written: Line)
    requires Blocks(kids) && InEntry(st)
    ensures EntryDone(st, EndItem(Run(style, st, EventsAll(kids))), written)
    ensures var top := TopItem(st);
            Signs(written) == ItemSigns(kids, Signs(top.content), top.content != [], top.emitted)
    decreases kids, 1
  {
    if kids == [] {
      written := EndOfEntry(st);
    } else {
      var mid := Run(style, st, EventsOf(kids[0]));
      RunNext(style, st, kids);
      if Buffered(kids[0]) {
        var now := BufferedPasses(style, st, kids[0]);
        var rest := ContentRuns(style, mid, kids[1..]);
        SignsAppend(TopItem(st).content, PassedBy(kids[0]));
        SignsAppend(now, rest);
        DoneAfter(st, mid, EndItem(Run(style, mid, EventsAll(kids[1..]))), now, rest);
        written := now + rest;
      } else if IsList(kids[0]) {
        written := ListInEntry(style, st, kids);
      } else {
        var text := TextHeld(style, st, kids[0]);
        written := ContentRuns(style, mid, kids[1..]);
        SignsAppend(TopItem(st).content, text);
        assert mid.output == st.output + [];
        DoneAfter(st, mid, EndItem(Run(style, mid, EventsAll(kids[1..]))), [], written);
        assert [] + written == written;
      }
    }
  }

  lemma ListKeepsEntry(st: State, mid: State, ahead: Line, now: Line)
    requires InEntry(st) && ListDone(st, mid, now) && FlushItem(st).output == st.output + ahead
    requires InEntry(FlushItem(st))
    ensures InEntry(mid) && mid.output == st.output + (ahead + now) && |mid.items| == |st.items|
    ensures Alike(mid.(items := [], output := []), st.(items := [], output := []))
    ensures mid.items[..|st.items| - 1] == st.items[..|st.items| - 1] && TopItem(mid) == TopItem(FlushItem(st))
  {
    Associate(st.output, ahead, now);
  }

  /** What an item with a list first among its blocks comes out as. */
  lemma ListFirst(kids: seq<Node>, text: seq<Sign>, filled: bool, shown: bool)
    requires kids != [] && IsList(kids[0]) && !Buffered(kids[0])
    ensures ItemSigns(kids, text, filled, shown)
         == if filled && !shown then text + [LineEnd] + ListSigns(kids[0]) + ItemSigns(kids[1..], [], false, true)
            else ListSigns(kids[0]) + ItemSigns(kids[1..], text, filled, shown)
  {
  }

  lemma JoinList(ahead: Line, now: Line, rest: Line, flushed: bool, text: seq<Sign>)
    requires if flushed then Signs(ahead) == text + [LineEnd] else ahead == []
    ensures Signs(ahead + now + rest)
         == if flushed then text + [LineEnd] + Signs(now) + Signs(rest) else Signs(now) + Signs(rest)
  {
    SignsAppend3(ahead, now, rest);
    assert [] + Signs(now) == Signs(now);
  }

  lemma SameTail(written: seq<Sign>, text: seq<Sign>, now: seq<Sign>, rest: seq<Sign>, all: seq<Sign>, list: seq<Sign>,
                 flushedRest: seq<Sign>, heldRest: seq<Sign>, flushed: bool)
    requires written == if flushed then text + [LineEnd] + now + rest else now + rest
    requires all == if flushed then text + [LineEnd] + list + flushedRest else list + heldRest
    requires now == list && rest == if flushed then flushedRest else heldRest
    ensures written == all
  {
  }

  lemma ListSignsFirst(kids: seq<Node>, top: Frame, ahead: Line, now: Line, rest: Line)
    requires kids != [] && IsList(kids[0]) && !Buffered(kids[0]) && Signs(now) == ListSigns(kids[0])
    requires var flushed := top.content != [] && !top.emitted;
             && (if flushed then Signs(ahead) == Signs(top.content) + [LineEnd] else ahead == [])
             && Signs(rest) == (if flushed then ItemSigns(kids[1..], [], false, true)
                                else ItemSigns(kids[1..], Signs(top.content), top.content != [], top.emitted))
    ensures Signs(ahead + now + rest) == ItemSigns(kids, Signs(top.content), top.content != [], top.emitted)
  {
    var text, filled, shown := Signs(top.content), top.content != [], top.emitted;
    ListFirst(kids, text, filled, shown);
    JoinList(ahead, now, rest, filled && !shown, text);
    SameTail(Signs(ahead + now + rest), text, Signs(now), Signs(rest), ItemSigns(kids, text, filled, shown),
             ListSigns(kids[0]), ItemSigns(kids[1..], [], false, true), ItemSigns(kids[1..], text, filled, shown), filled && !shown);
  }

  lemma {:induction false} ListInEntry(style: Style, st: State, kids: seq<Node>) returns (written: Line)
    requires Blocks(kids) && InEntry(st) && kids != [] && IsList(kids[0]) && !Buffered(kids[0])
    ensures EntryDone(st, EndItem(Run(style, st, EventsAll(kids))), written)
    ensures Signs(written) == ItemSigns(kids, Signs(TopItem(st).content), TopItem(st).content != [], TopItem(st).emitted)
    decreases kids, 0
  {
    var mid := Run(style, st, EventsOf(kids[0]));
    RunNext(style, st, kids);
    var ahead := FlushFirst(st);
    var now := ListRuns(style, st, kids[0]);
    ListKeepsEntry(st, mid, ahead, now);
    var rest := ContentRuns(style, mid, kids[1..]);
    DoneAfter(st, mid, EndItem(Run(style, mid, EventsAll(kids[1..]))), ahead + now, rest);
    ListSignsFirst(kids, TopItem(st), ahead, now, rest);
    written := ahead + now + rest;
  }

  // ---- Lists ----

  /** The list goes on counting; nothing else has changed but the output. */
  ghost predicate ListGoesOn(st: State, next: State, written: Line) {
    && next == st.(output := st.output + written, orderedCounters := next.orderedCounters,
                   lastWasBlank := next.lastWasBlank, headingLevel := next.headingLevel)
    && SameOuter(st.orderedCounters, next.orderedCounters)
  }

  ghost predicate SameOuter(a: seq<nat>, b: seq<nat>) {
    a != [] && |a| == |b| && a[..|a| - 1] == b[..|a| - 1]
  }

  lemma EntryCloses(st: State, begun: State, next: State, written: Line)
    requires begun == st.(items := begun.items, orderedCounters := begun.orderedCounters)
    requires begun.items != [] && begun.items[..|begun.items| - 1] == st.items
    requires SameOuter(st.orderedCounters, begun.orderedCounters) && EntryDone(begun, next, written)
    ensures ListGoesOn(st, next, written)
  {
  }

  lemma RunEntry(style: Style, st: State, node: Node)
    requires node.Elem? && node.tag.Item?
    ensures Run(style, st, EventsOf(node)) == EndItem(Run(style, StartItem(st, node.tag.id), EventsAll(node.kids)))
  {
    RunElem(style, st, node.tag, node.kids);
  }

  lemma {:induction false} EntryRuns(style: Style, st: State, node: Node) returns (written: Line)
    requires node.Elem? && node.tag.Item? && Blocks(node.kids)
    requires AtEase(st) && st.listDepth > 0 && st.orderedCounters != []
    ensures ListGoesOn(st, Run(style, st, EventsOf(node)), written) && Signs(written) == EntrySigns(node)
    decreases node, 1
  {
    var begun := StartItem(st, node.tag.id);
    RunEntry(style, st, node);
    EntryBegins(st, node.tag.id);
    written := ContentRuns(style, begun, node.kids);
    EntryCloses(st, begun, EndItem(Run(style, begun, EventsAll(node.kids))), written);
  }

  lemma EntryBegins(st: State, id: int)
    requires AtEase(st) && st.listDepth > 0 && st.orderedCounters != []
    ensures var begun := StartItem(st, id);
            && InEntry(begun) && begun.items[..|begun.items| - 1] == st.items
            && TopItem(begun).content == [] && !TopItem(begun).emitted
            && begun == st.(items := begun.items, orderedCounters := begun.orderedCounters)
            && SameOuter(st.orderedCounters, begun.orderedCounters)
  {
    SignsItemPrefix(st.listDepth, st.orderedCounters[|st.orderedCounters| - 1], id);
  }

  lemma {:induction false} EntriesRun(style: Style, st: State, nodes: seq<Node>) returns (written: Line)
    requires Entries(nodes)
    requires AtEase(st) && st.listDepth > 0 && st.orderedCounters != []
    ensures ListGoesOn(st, Run(style, st, EventsAll(nodes)), written) && Signs(written) == EntriesSigns(nodes)
    decreases nodes, 0
  {
    if nodes == [] {
      written := [];
      assert st.output + [] == st.output;
    } else {
      RunNext(style, st, nodes);
      var mid := Run(style, st, EventsOf(nodes[0]));
      var first := EntryRuns(style, st, nodes[0]);
      var rest := EntriesRun(style, mid, nodes[1..]);
      Associate(st.output, first, rest);
      SignsAppend(first, rest);
      written := first + rest;
    }
  }

  lemma {:induction false} ListRuns(style: Style, st: State, node: Node) returns (written: Line)
    requires IsList(node) && Entries(node.kids) && AtEase(st)
    ensures ListDone(st, Run(style, st, EventsOf(node)), written)
    ensures Signs(written) == (if st.listDepth == 0 then Gap(FlushItem(st).lastWasBlank) else []) + ListSigns(node)
    decreases node, 1
  {
    var begun := StepStart(st, node.tag);
    var gap := if st.listDepth == 0 && !FlushItem(st).lastWasBlank then NEWLINE else [];
    RunElem(style, st, node.tag, node.kids);
    ListBegins(st, node.tag.start, gap);
    var entries := EntriesRun(style, begun, node.kids);
    ListEnds(style, st, begun, Run(style, begun, EventsAll(node.kids)), gap, entries);
    SignsAppend(gap, entries);
    SignsNewline();
    written := gap + entries;
  }

  lemma ListBegins(st: State, start: Option<nat>, gap: Line)
    requires AtEase(st)
    requires gap == if st.listDepth == 0 && !FlushItem(st).lastWasBlank then NEWLINE else []
    ensures var begun, flushed := StartList(st, start), FlushItem(st);
            && AtEase(begun) && begun.listDepth > 0
            && begun == flushed.(output := flushed.output + gap, listDepth := st.listDepth + 1,
                                 orderedCounters := st.orderedCounters + [start.GetOr(0)])
  {
    assert FlushItem(st).output + [] == FlushItem(st).output;
  }

  lemma ListEnds(style: Style, st: State, begun: State, last: State, gap: Line, entries: Line)
    requires exists n: nat :: begun == FlushItem(st).(output := FlushItem(st).output + gap, listDepth := st.listDepth + 1,
                                                       orderedCounters := st.orderedCounters + [n])
    requires ListGoesOn(begun, last, entries)
    ensures ListDone(st, StepEnd(style, last, ListEnd), gap + entries)
  {
    Associate(FlushItem(st).output, gap, entries);
    assert begun.orderedCounters[..|st.orderedCounters|] == st.orderedCounters;
  }

  // ---- Pages ----

  /** Nothing is open at all. */
  ghost predicate OnPage(st: State) {
    AtEase(st) && st.items == [] && st.listDepth == 0
  }

  ghost predicate PageGrows(st: State, next: State, written: Line) {
    Alike(next, st.(output := st.output + written))
  }

  lemma PageTwice(st: State, mid: State, next: State, a: Line, b: Line)
    requires PageGrows(st, mid, a) && PageGrows(mid, next, b)
    ensures PageGrows(st, next, a + b)
  {
    Associate(st.output, a, b);
  }

  lemma BufferedOnPage(style: Style, st: State, node: Node) returns (written: Line)
    requires OnPage(st) && Buffered(node)
    ensures var next := Run(style, st, EventsOf(node));
            && OnPage(next) && PageGrows(st, next, written)
            && Signs(written) == Signs(PassedBy(node)) + Now(node) && next.lastWasBlank == node.Leaf?
  {
    var now := BufferedEmits(style, st, node);
    Associate(st.output, PassedBy(node), now);
    SignsAppend(PassedBy(node), now);
    written := PassedBy(node) + now;
  }

  lemma ListOnPage(style: Style, st: State, node: Node) returns (written: Line)
    requires OnPage(st) && IsList(node) && Entries(node.kids)
    ensures var next := Run(style, st, EventsOf(node));
            && OnPage(next) && PageGrows(st, next, written)
            && Signs(written) == Gap(st.lastWasBlank) + ListSigns(node) && next.lastWasBlank
  {
    written := ListRuns(style, st, node);
  }

  lemma InlineOnPage(style: Style, st: State, node: Node) returns (written: Line)
    requires OnPage(st) && Inline(node)
    ensures var next := Run(style, st, EventsOf(node));
            && OnPage(next) && PageGrows(st, next, written)
            && Signs(written) == Signs(WordsOf(node, NEWLINE, NEWLINE)) && next.lastWasBlank == (st.lastWasBlank && !Writes(node))
  {
    var passed;
    written, passed := InlineTold(style, st, node);
    PutNothing(st, ToPage);
  }

  lemma ParagraphOnPage(style: Style, st: State, kids: seq<Node>) returns (written: Line)
    requires OnPage(st) && InlineAll(kids)
    ensures var node := Elem(Paragraph, kids);
            var next := Run(style, st, EventsOf(node));
            && OnPage(next) && PageGrows(st, next, written)
            && Signs(written) == Gap(st.lastWasBlank) + Signs(WordsOf(node, NEWLINE, NEWLINE)) + [LineEnd] && next.lastWasBlank
  {
    var gap := if st.lastWasBlank then [] else NEWLINE;
    var begun := StepStart(st, Paragraph);
    assert st.output + [] == st.output && PageGrows(st, begun, gap);
    RunElem(style, st, Paragraph, kids);
    var text, passed := InlinesTold(style, begun, kids);
    PutNothing(begun, ToPage);
    var last := Run(style, begun, EventsAll(kids));
    PageTwice(st, begun, last, gap, text);
    PageTwice(st, last, StepEnd(style, last, ParagraphEnd), gap + text, NEWLINE);
    SignsNewline();
    SignsAppend3(gap, text, NEWLINE);
    written := gap + text + NEWLINE;
  }

  lemma BlockOnPage(style: Style, st: State, node: Node) returns (written: Line)
    requires OnPage(st) && Block(node)
    ensures var next := Run(style, st, EventsOf(node));
            && OnPage(next) && PageGrows(st, next, written)
            && forall rest: seq<Node> {:trigger PageSigns([node] + rest, st.lastWasBlank)} ::
                 PageSigns([node] + rest, st.lastWasBlank) == Signs(written) + PageSigns(rest, next.lastWasBlank)
  {
    var next := Run(style, st, EventsOf(node));
    if Buffered(node) {
      written := BufferedOnPage(style, st, node);
    } else if IsList(node) {
      written := ListOnPage(style, st, node);
    } else if Inline(node) {
      written := InlineOnPage(style, st, node);
    } else {
      written := ParagraphOnPage(style, st, node.kids);
    }
    forall rest: seq<Node>
      ensures PageSigns([node] + rest, st.lastWasBlank) == Signs(written) + PageSigns(rest, next.lastWasBlank)
    {
      assert ([node] + rest)[1..] == rest;
    }
  }

  lemma {:induction false} PageRuns(style: Style, st: State, nodes: seq<Node>) returns (written: Line)
    requires OnPage(st) && Blocks(nodes)
    ensures PageGrows(st, Run(style, st, EventsAll(nodes)), written) && Signs(written) == PageSigns(nodes, st.lastWasBlank)
    decreases |nodes|
  {
    if nodes == [] {
      written := [];
      assert st.output + [] == st.output;
    } else {
      var mid := Run(style, st, EventsOf(nodes[0]));
      RunNext(style, st, nodes);
      var first := BlockOnPage(style, st, nodes[0]);
      var rest := PageRuns(style, mid, nodes[1..]);
      assert nodes == [nodes[0]] + nodes[1..];
      PageTwice(st, mid, Run(style, mid, EventsAll(nodes[1..])), first, rest);
      SignsAppend(first, rest);
      written := first + rest;
    }
  }

  /** Every document of blocks, with lists and other blocks in items at any depth, comes out line
      by line as its tree says: the renderer's buffers, flags and early flushes make no other line
      ends, and leave none out. */
  lemma PageIsWritten(style: Style, doc: seq<Node>)
    requires Blocks(doc)
    ensures Signs(Run(style, REST, EventsAll(doc)).output) == PageSigns(doc, true)
  {
    var written := PageRuns(style, REST, doc);
    assert REST.output + written == written;
  }

  // ---- Where texts run together ----

  function Words(text: seq<Letter>): Node {
    Leaf(Text(text))
  }

  function Paragraphs(a: seq<Letter>, b: seq<Letter>): seq<Node> {
    [Elem(Paragraph, [Words(a)]), Elem(Paragraph, [Words(b)])]
  }

  lemma WordsTwo(a: Node, b: Node, soft: Line, hard: Line)
    ensures WordsAll([a, b], soft, hard) == WordsOf(a, soft, hard) + WordsOf(b, soft, hard)
    ensures HardsAll([a, b]) == HardsOf(a) + HardsOf(b)
  {
    assert [a, b][1..] == [b] && [b][1..] == [];
    assert WordsAll([b], soft, hard) == WordsOf(b, soft, hard) + [];
    assert HardsAll([b]) == HardsOf(b) + [];
  }

  lemma WordsOne(a: Node, soft: Line, hard: Line)
    ensures WordsAll([a], soft, hard) == WordsOf(a, soft, hard) && HardsAll([a]) == HardsOf(a)
  {
    assert [a][1..] == [];
    assert WordsAll([a], soft, hard) == WordsOf(a, soft, hard) + [];
    assert HardsAll([a]) == HardsOf(a) + [];
  }

  lemma OneBlock(node: Node)
    requires Block(node)
    ensures Blocks([node])
    ensures PageSigns([node], true) ==
            if Buffered(node) then Signs(PassedBy(node)) + Now(node)
            else if IsList(node) then ListSigns(node)
            else Signs(WordsOf(node, NEWLINE, NEWLINE)) + (if Inline(node) then [] else [LineEnd])
  {
    assert [node][1..] == [];
  }

  lemma TwoBlocks(a: Node, b: Node)
    requires TextBlock(a) && TextBlock(b)
    ensures Blocks([a, b]) && TextBlocks([a, b])
  {
    assert [a, b][1..] == [b] && [b][1..] == [];
    assert Blocks([b]) && TextBlocks([b]);
  }

  lemma WordsInline(text: seq<Letter>)
    ensures InlineAll([Words(text)])
  {
    assert [Words(text)][1..] == [] && Inline(Words(text));
    assert InlineAll([]);
  }

  lemma ParagraphsAreBlocks(a: seq<Letter>, b: seq<Letter>)
    ensures Blocks(Paragraphs(a, b)) && TextBlocks(Paragraphs(a, b))
    ensures WordsAll(Paragraphs(a, b), NEWLINE, []) == Inked(a) + Inked(b) && HardsAll(Paragraphs(a, b)) == []
  {
    var ps := Paragraphs(a, b);
    WordsInline(a);
    WordsInline(b);
    TwoBlocks(ps[0], ps[1]);
    WordsTwo(ps[0], ps[1], NEWLINE, []);
    WordsOne(Words(a), NEWLINE, []);
    WordsOne(Words(b), NEWLINE, []);
  }

  /** The two paragraphs of a quote come out as one. */
  lemma QuotedParagraphsRunTogether(style: Style, a: seq<Letter>, b: seq<Letter>)
    ensures Signs(Run(style, REST, EventsAll([Elem(BlockQuote, Paragraphs(a, b))])).output)
         == Signs(Inked(a)) + Signs(Inked(b)) + Ending(Inked(a) + Inked(b))
  {
    var quote := Elem(BlockQuote, Paragraphs(a, b));
    ParagraphsAreBlocks(a, b);
    OneBlock(quote);
    PageIsWritten(style, [quote]);
    SignsAppend(Inked(a), Inked(b));
  }

  /** So do the two paragraphs of an item. */
  lemma ItemParagraphsRunTogether(style: Style, id: int, a: seq<Letter>, b: seq<Letter>)
    ensures Signs(Run(style, REST, EventsAll([Elem(List(None), [Elem(Item(id), Paragraphs(a, b))])])).output)
         == Signs(Inked(a)) + Signs(Inked(b)) + [LineEnd]
  {
    var item := Elem(Item(id), Paragraphs(a, b));
    ParagraphsAreBlocks(a, b);
    OneEntry(item);
    OneBlock(Elem(List(None), [item]));
    PageIsWritten(style, [Elem(List(None), [item])]);
    ItemOfParagraphs(a, b);
  }

  lemma OneEntry(item: Node)
    requires item.Elem? && item.tag.Item? && Blocks(item.kids)
    ensures Entries([item]) && EntriesSigns([item]) == EntrySigns(item)
  {
    assert [item][1..] == [];
    assert EntriesSigns([item]) == EntrySigns(item) + [];
  }

  lemma TextSigns(node: Node, rest: seq<Node>, text: seq<Sign>, filled: bool)
    requires TextBlock(node) && !Buffered(node) && !IsList(node)
    ensures ItemSigns([node] + rest, text, filled, false)
         == ItemSigns(rest, text + Signs(WordsOf(node, NEWLINE, NEWLINE)), filled || Fills(node, false), false)
  {
    assert ([node] + rest)[1..] == rest;
  }

  lemma ItemOfParagraphs(a: seq<Letter>, b: seq<Letter>)
    ensures ItemSigns(Paragraphs(a, b), [], false, false) == Signs(Inked(a)) + Signs(Inked(b)) + [LineEnd]
  {
    var first, second := Paragraphs(a, b)[0], Paragraphs(a, b)[1];
    WordsInline(a);
    WordsInline(b);
    WordsOne(Words(a), NEWLINE, NEWLINE);
    WordsOne(Words(b), NEWLINE, NEWLINE);
    TwoTexts(first, second);
  }

  lemma TwoTexts(a: Node, b: Node)
    requires TextBlock(a) && !Buffered(a) && !IsList(a) && TextBlock(b) && !Buffered(b) && !IsList(b)
    ensures ItemSigns([a, b], [], false, false)
         == Signs(WordsOf(a, NEWLINE, NEWLINE)) + Signs(WordsOf(b, NEWLINE, NEWLINE)) + [LineEnd]
  {
    var x := Signs(WordsOf(a, NEWLINE, NEWLINE));
    TextSigns(a, [b], [], false);
    TextSigns(b, [], x, Fills(a, false));
    assert [a, b] == [a] + [b] && [b] == [b] + [] && [] + x == x;
  }

  lemma JoinHeading(a: seq<Sign>, b: seq<Sign>)
    ensures [LineEnd] + ([LineEnd] + (a + b) + [LineEnd]) == [LineEnd] + [LineEnd] + a + b + [LineEnd]
  {
  }

  lemma HeadingSigns(level: nat, kids: seq<Node>)
    requires InlineAll(kids)
    ensures Blocks([Elem(Heading(level), kids)])
    ensures PageSigns([Elem(Heading(level), kids)], true)
         == Signs(HardsAll(kids)) + ([LineEnd] + Signs(WordsAll(kids, [], [])) + [LineEnd])
  {
    OneBlock(Elem(Heading(level), kids));
  }

  /** The two lines of a heading come out as one, and the line end between them ahead of it. */
  lemma HeadingLinesRunTogether(style: Style, level: nat, a: seq<Letter>, b: seq<Letter>)
    ensures Signs(Run(style, REST, EventsAll([Elem(Heading(level), [Words(a), Leaf(HardBreak), Words(b)])])).output)
         == [LineEnd] + [LineEnd] + Signs(Inked(a)) + Signs(Inked(b)) + [LineEnd]
  {
    var kids := [Words(a), Leaf(HardBreak), Words(b)];
    BrokenWords(a, b);
    HeadingSigns(level, kids);
    PageIsWritten(style, [Elem(Heading(level), kids)]);
    SignsNewline();
    JoinHeading(Signs(Inked(a)), Signs(Inked(b)));
  }

  lemma BrokenWords(a: seq<Letter>, b: seq<Letter>)
    ensures var kids := [Words(a), Leaf(HardBreak), Words(b)];
            && InlineAll(kids) && HardsAll(kids) == NEWLINE
            && Signs(WordsAll(kids, [], [])) == Signs(Inked(a)) + Signs(Inked(b))
  {
    var kids := [Words(a), Leaf(HardBreak), Words(b)];
    assert kids[1..] == [Leaf(HardBreak), Words(b)] && kids[1..][1..] == [Words(b)];
    WordsInline(b);
    assert InlineAll(kids[1..]);
    WordsTwo(Leaf(HardBreak), Words(b), [], []);
    assert WordsAll(kids, [], []) == Inked(a) + Inked(b);
    SignsAppend(Inked(a), Inked(b));
  }
}
