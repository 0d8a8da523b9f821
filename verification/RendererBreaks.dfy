/** Breaks in whole streams: two texts with a break between them are separated in the output,
    wherever their text was held meanwhile and whatever comes before and after. */
module RendererBreaks {
  import opened Seqs
  import G = Glyphs
  import opened Glyphs
  import opened RendererModel
  import opened RendererLedger
  import opened RendererNesting
  import opened RendererTrack
  import opened RendererStreams
  import opened RendererLines

  /** One sequence inside another, in one piece. */
  ghost predicate Within<T(!new)>(w: seq<T>, s: seq<T>) {
    exists x, y :: s == x + w + y
  }

  lemma WithinMore<T(!new)>(w: seq<T>, before: seq<T>, s: seq<T>, after: seq<T>)
    requires Within(w, s)
    ensures Within(w, before + s + after)
  {
    var x, y :| s == x + w + y;
    assert before + s + after == (before + x) + w + (y + after);
  }

  // ---- What lasts ----

  /** Something that, once there, stays there: in a text that grows, and in the lines that are
      made of it, at least if it is in a heading or on the page, or (if `everywhere`) in anything. */
  ghost predicate Lasting(p: Line -> bool, everywhere: bool) {
    && !p([])
    && (forall a: Line, b: Line {:trigger p(a + b)} :: p(a) || p(b) ==> p(a + b))
    && (forall level: nat, text: Line {:trigger p(HeadingLines(level, text))} :: p(text) ==> p(HeadingLines(level, text)))
    && (everywhere ==> LastsInLines(p))
  }

  ghost predicate LastsInLines(p: Line -> bool) {
    && (forall item: Frame {:trigger p(ItemLines(item))} :: p(item.content) ==> p(ItemLines(item)))
    && (forall lang: Option<string>, code: Line {:trigger p(CodeLines(lang, code))} :: p(code) ==> p(CodeLines(lang, code)))
    && (forall text: Line {:trigger p(QuoteLines(text))} :: p(text) ==> p(QuoteLines(text)))
  }

  ghost predicate InItems(p: Line -> bool, items: seq<Frame>) {
    exists i :: 0 <= i < |items| && p(items[i].content)
  }

  ghost predicate Somewhere(p: Line -> bool, everywhere: bool, st: State) {
    || p(st.output) || p(st.headingBuf)
    || (everywhere && (p(st.codeBuf) || p(st.quoteBuf) || InItems(p, st.items)))
  }

  lemma ItemsGrow(p: Line -> bool, items: seq<Frame>, text: Line)
    requires Lasting(p, true) && items != [] && InItems(p, items)
    ensures InItems(p, items[|items| - 1 := items[|items| - 1].(content := items[|items| - 1].content + text)])
  {
    var i :| 0 <= i < |items| && p(items[i].content);
    var top := items[|items| - 1];
    var more := items[|items| - 1 := top.(content := top.content + text)];
    assert p(more[i].content);
  }

  lemma AppendLasts(p: Line -> bool, everywhere: bool, st: State, text: Line)
    requires Lasting(p, everywhere) && Somewhere(p, everywhere, st)
    ensures Somewhere(p, everywhere, AppendToItem(st, text))
  {
    if st.items != [] && everywhere && InItems(p, st.items) {
      ItemsGrow(p, st.items, text);
    }
  }

  lemma TopOrBelow(p: Line -> bool, items: seq<Frame>, top: Frame)
    requires items != [] && InItems(p, items) && !p(items[|items| - 1].content)
    ensures InItems(p, items[..|items| - 1]) && InItems(p, items[|items| - 1 := top])
  {
    var i :| 0 <= i < |items| && p(items[i].content);
    assert p(items[..|items| - 1][i].content) && p(items[|items| - 1 := top][i].content);
  }

  lemma FlushLasts(p: Line -> bool, everywhere: bool, st: State)
    requires Lasting(p, everywhere) && Somewhere(p, everywhere, st)
    ensures Somewhere(p, everywhere, FlushItem(st))
  {
    if st.items != [] && everywhere && InItems(p, st.items) {
      var item := st.items[|st.items| - 1];
      if p(item.content) {
        assert p(ItemLines(item));
      } else {
        TopOrBelow(p, st.items, item.(content := [], emitted := true));
      }
    }
  }

  lemma EndItemLasts(p: Line -> bool, everywhere: bool, st: State)
    requires Lasting(p, everywhere) && Somewhere(p, everywhere, st)
    ensures Somewhere(p, everywhere, EndItem(st))
  {
    if st.items != [] && everywhere && InItems(p, st.items) {
      var item := st.items[|st.items| - 1];
      if p(item.content) {
        assert p(ItemLines(item));
      } else {
        TopOrBelow(p, st.items, item);
      }
    }
  }

  lemma StartItemLasts(p: Line -> bool, everywhere: bool, st: State, id: int)
    requires Lasting(p, everywhere) && Somewhere(p, everywhere, st)
    ensures Somewhere(p, everywhere, StartItem(st, id))
  {
    var next := StartItem(st, id);
    if everywhere && InItems(p, st.items) {
      var i :| 0 <= i < |st.items| && p(st.items[i].content);
      assert p(next.items[i].content);
    }
  }

  lemma StartLasts(p: Line -> bool, everywhere: bool, st: State, tag: Tag)
    requires Lasting(p, everywhere) && Somewhere(p, everywhere, st)
    requires !IsTableEvent(Start(tag)) && !p(Discarded(st, Start(tag)))
    ensures Somewhere(p, everywhere, StepStart(st, tag))
  {
    match tag {
      case List(start) => FlushLasts(p, everywhere, st);
      case Item(id) => StartItemLasts(p, everywhere, st, id);
      case _ =>
    }
  }

  lemma EndLasts(p: Line -> bool, everywhere: bool, style: Style, st: State, end: TagEnd)
    requires Lasting(p, everywhere) && Somewhere(p, everywhere, st) && !IsTableEvent(End(end))
    ensures Somewhere(p, everywhere, StepEnd(style, st, end))
  {
    if end == ItemEnd {
      EndItemLasts(p, everywhere, st);
    }
  }

  lemma LeafLasts(p: Line -> bool, everywhere: bool, style: Style, st: State, event: Event)
    requires Lasting(p, everywhere) && Somewhere(p, everywhere, st)
    requires !event.Start? && !event.End? && !st.table.inTable
    ensures Somewhere(p, everywhere, Step(style, st, event))
  {
    match event {
      case Text(text) => AppendLasts(p, everywhere, st, InlineStyled(st, text));
      case Code(text) => AppendLasts(p, everywhere, st, Styled(CodeFace, InlineCode(text)));
      case SoftBreak => AppendLasts(p, everywhere, st, NEWLINE);
      case HardBreak => AppendLasts(p, everywhere, st, NEWLINE);
      case _ =>
    }
  }

  /** What lasts is only lost with a buffer that is started afresh. */
  lemma StepLasts(p: Line -> bool, everywhere: bool, style: Style, st: State, event: Event)
    requires Lasting(p, everywhere) && Somewhere(p, everywhere, st)
    requires !IsTableEvent(event) && !st.table.inTable && !p(Discarded(st, event))
    ensures Somewhere(p, everywhere, Step(style, st, event))
  {
    match event {
      case Start(tag) => StartLasts(p, everywhere, st, tag);
      case End(end) => EndLasts(p, everywhere, style, st, end);
      case _ => LeafLasts(p, everywhere, style, st, event);
    }
  }

  // ---- To the end of a stream ----

  /** It has letters wherever it is. */
  ghost predicate HasLettersOf(p: Line -> bool, k: Line -> Line) {
    forall text: Line {:trigger p(text)} :: p(text) ==> k(text) != []
  }

  /** Between the pieces of a stream that loses no letters. */
  ghost predicate Going(k: Line -> Line, style: Style, st: State, stack: seq<Level>, ps: seq<Piece>) {
    && Reading(k, false) && SeesLetters(k) && Mirrors(st, stack) && NoTables(stack)
    && NestedPieces(stack, ps) && LosesNothing(style, false, View(k, st), ps)
  }

  lemma GoesOn(k: Line -> Line, style: Style, st: State, stack: seq<Level>, ps: seq<Piece>)
    requires Going(k, style, st, stack, ps) && ps != []
    ensures Going(k, style, Pass(style, st, ps[0]), NextOpen(stack, ps[0]), ps[1..])
    ensures View(k, Pass(style, st, ps[0])) == ScanPiece(View(k, st), ps[0])
  {
    PassMirrors(style, st, stack, ps[0]);
    PassIsScanned(k, false, style, st, stack, ps[0]);
  }

  lemma PassLasts(
    p: Line -> bool, everywhere: bool, k: Line -> Line, style: Style, st: State, stack: seq<Level>, ps: seq<Piece>)
    requires Going(k, style, st, stack, ps) && ps != []
    requires Lasting(p, everywhere) && HasLettersOf(p, k) && Somewhere(p, everywhere, st)
    ensures Somewhere(p, everywhere, Pass(style, st, ps[0]))
  {
    match ps[0] {
      case Plain(event) =>
        NextHasNoTables(stack, event);
        SpillsWhatIsDiscarded(k, st, event);
        StepLasts(p, everywhere, style, st, event);
      case Grid(source) => GridPass(style, st, source);
    }
  }

  lemma {:induction false} LastsToTheEnd(
    p: Line -> bool, everywhere: bool, k: Line -> Line, style: Style, st: State, stack: seq<Level>, ps: seq<Piece>)
    requires Going(k, style, st, stack, ps) && AfterPieces(stack, ps) == []
    requires Lasting(p, everywhere) && HasLettersOf(p, k) && Somewhere(p, everywhere, st)
    ensures p(PassAll(style, st, ps).output)
    decreases |ps|
  {
    if ps == [] {
      MirrorOfNothing(st);
    } else {
      GoesOn(k, style, st, stack, ps);
      PassLasts(p, everywhere, k, style, st, stack, ps);
      LastsToTheEnd(p, everywhere, k, style, Pass(style, st, ps[0]), NextOpen(stack, ps[0]), ps[1..]);
    }
  }

  // ---- Two readings that last ----

  /** The letters and line ends of `w` are there in one piece. */
  ghost function Reads(w: seq<Sign>): Line -> bool {
    gs => Within(w, Signs(gs))
  }

  /** The glyphs of `w` are there in one piece. */
  ghost function Has(w: Line): Line -> bool {
    gs => Within(w, gs)
  }

  lemma ReadsLasts(w: seq<Sign>)
    requires w != []
    ensures Lasting(Reads(w), true)
  {
    forall a: Line, b: Line | Within(w, Signs(a)) || Within(w, Signs(b)) ensures Within(w, Signs(a + b)) {
      SignsAppend(a, b);
      GrowsEitherWay(w, Signs(a), Signs(b));
    }
    forall level: nat, text: Line | Within(w, Signs(text)) ensures Within(w, Signs(HeadingLines(level, text))) {
      SignsHeadingLines(level, text);
      WithinMore(w, [LineEnd], Signs(text), [LineEnd]);
    }
    forall item: Frame | Within(w, Signs(item.content)) ensures Within(w, Signs(ItemLines(item))) {
      SignsItemLines(item);
      var head := if item.emitted then [] else Signs(item.prefix);
      WithinMore(w, head, Signs(item.content), [LineEnd]);
      Associate(head, Signs(item.content), [LineEnd]);
    }
    forall lang: Option<string>, code: Line | Within(w, Signs(code)) ensures Within(w, Signs(CodeLines(lang, code))) {
      SignsCodeLines(lang, code);
      var head := LangSigns(lang) + [LineEnd];
      WithinMore(w, head, Signs(code), Ending(code) + [LineEnd]);
      JoinCode(head, Signs(code), Ending(code), [LineEnd]);
    }
    forall text: Line | Within(w, Signs(text)) ensures Within(w, Signs(QuoteLines(text))) {
      SignsQuoteLines(text);
      WithinMore(w, [], Signs(text), Ending(text));
      assert [] + Signs(text) == Signs(text);
    }
  }

  lemma JoinCode<T>(head: seq<T>, code: seq<T>, ending: seq<T>, last: seq<T>)
    ensures head + code + (ending + last) == head + (code + ending) + last
  {
  }

  lemma GrowsEitherWay<T(!new)>(w: seq<T>, a: seq<T>, b: seq<T>)
    requires Within(w, a) || Within(w, b)
    ensures Within(w, a + b)
  {
    if Within(w, a) {
      WithinMore(w, [], a, b);
      assert [] + a + b == a + b;
    } else {
      WithinMore(w, a, b, []);
      assert a + b + [] == a + b;
    }
  }

  lemma HasLasts(w: Line)
    requires w != []
    ensures Lasting(Has(w), false)
  {
    forall a: Line, b: Line | Within(w, a) || Within(w, b) ensures Within(w, a + b) {
      GrowsEitherWay(w, a, b);
    }
    forall level: nat, text: Line | Within(w, text) ensures Within(w, HeadingLines(level, text)) {
      var marks := G.Plain(Hashes(level) + " ");
      GrowsEitherWay(w, marks, text);
      WithinMore(w, [Open(HeadingFace)], marks + text, [Close(HeadingFace)]);
      WithinMore(w, NEWLINE, Styled(HeadingFace, marks + text), NEWLINE);
    }
  }

  function LettersIn(signs: seq<Sign>): nat {
    if signs == [] then 0 else LettersIn(signs[1..]) + if signs[0].Shown? then 1 else 0
  }

  lemma {:induction false} LettersInAppend(a: seq<Sign>, b: seq<Sign>)
    ensures LettersIn(a + b) == LettersIn(a) + LettersIn(b)
  {
    if a == [] {
      assert a + b == b;
    } else {
      assert (a + b)[1..] == a[1..] + b;
      LettersInAppend(a[1..], b);
    }
  }

  lemma {:induction false} SameLetters(gs: Line)
    ensures LettersIn(Signs(gs)) == |Keep(gs, false)|
  {
    if gs != [] {
      SameLetters(gs[1..]);
      LettersInAppend(SignOf(gs[0]), Signs(gs[1..]));
      if SignOf(gs[0]) != [] {
        assert SignOf(gs[0])[1..] == [];
      }
    }
  }

  lemma ReadsLetters(w: seq<Sign>)
    requires LettersIn(w) > 0
    ensures HasLettersOf(Reads(w), Keeping(false))
  {
    forall text: Line | Within(w, Signs(text)) ensures Keep(text, false) != [] {
      var x, y :| Signs(text) == x + w + y;
      LettersInAppend(x + w, y);
      LettersInAppend(x, w);
      SameLetters(text);
    }
  }

  lemma HasItsLetters(w: Line)
    requires Keep(w, false) != []
    ensures HasLettersOf(Has(w), Keeping(false))
  {
    forall text: Line | Within(w, text) ensures Keep(text, false) != [] {
      var x, y :| text == x + w + y;
      KeepAppend3(x, w, y, false);
    }
  }

  // ---- Breaks in streams ----

  /** How two texts with a break between them stand in the output: separated by a line end, or by a
      blank in a heading; but a hard break in a heading or a quote leaves them side by side. */
  ghost predicate Parted(out: Line, t: Track, brk: Event, a: seq<Letter>, b: seq<Letter>) {
    if !t.code.open && t.heading.open then
      Within(if brk == SoftBreak then Inked(a) + [Chrome(' ')] + Inked(b) else Inked(a) + Inked(b), out)
    else if !t.code.open && t.quote.open && brk == HardBreak then Within(Signs(Inked(a)) + Signs(Inked(b)), Signs(out))
    else Within(Signs(Inked(a)) + [LineEnd] + Signs(Inked(b)), Signs(out))
  }

  function ScanPieces(t: Track, ps: seq<Piece>): Track
    decreases |ps|
  {
    if ps == [] then t else ScanPieces(ScanPiece(t, ps[0]), ps[1..])
  }

  /** Two texts with a break between them, and the rest of the stream. */
  function Broken(a: seq<Letter>, brk: Event, b: seq<Letter>, after: seq<Piece>): seq<Piece> {
    [Plain(Text(a))] + ([Plain(brk)] + ([Plain(Text(b))] + after))
  }

  lemma PutShows(p: Line -> bool, everywhere: bool, st: State, next: State, spot: Spot, added: Line)
    requires Lasting(p, everywhere) && p(added) && Like(next, Put(st, spot, added)) && spot != ToCell
    requires everywhere || spot == ToHeading
    requires spot == ToItem ==> st.items != []
    ensures Somewhere(p, everywhere, next)
  {
    if spot == ToItem {
      assert p(next.items[|st.items| - 1].content);
    }
  }

  /** A stream that loses no letters and closes what is open. */
  ghost predicate Ends(k: Line -> Line, style: Style, st: State, stack: seq<Level>, ps: seq<Piece>) {
    Going(k, style, st, stack, ps) && AfterPieces(stack, ps) == []
  }

  lemma OneOn(k: Line -> Line, style: Style, st: State, stack: seq<Level>, x: Event, rest: seq<Piece>)
    returns (open: seq<Level>)
    requires Ends(k, style, st, stack, [Plain(x)] + rest)
    ensures Ends(k, style, Step(style, st, x), open, rest)
    ensures PassAll(style, st, [Plain(x)] + rest) == PassAll(style, Step(style, st, x), rest)
  {
    GoesOn(k, style, st, stack, [Plain(x)] + rest);
    assert ([Plain(x)] + rest)[1..] == rest;
    open := Next(stack, x);
  }

  lemma TwoOn(k: Line -> Line, style: Style, st: State, stack: seq<Level>, x: Event, y: Event, rest: seq<Piece>)
    returns (open: seq<Level>)
    requires Ends(k, style, st, stack, [Plain(x)] + ([Plain(y)] + rest))
    ensures Ends(k, style, Run(style, st, [x, y]), open, rest)
    ensures PassAll(style, st, [Plain(x)] + ([Plain(y)] + rest)) == PassAll(style, Run(style, st, [x, y]), rest)
  {
    RunPair(style, st, x, y);
    open := OneOn(k, style, st, stack, x, [Plain(y)] + rest);
    open := OneOn(k, style, Step(style, st, x), open, y, rest);
  }

  lemma ThreeOn(k: Line -> Line, style: Style, st: State, stack: seq<Level>, x: Event, y: Event, z: Event, rest: seq<Piece>)
    returns (open: seq<Level>)
    requires Ends(k, style, st, stack, [Plain(x)] + ([Plain(y)] + ([Plain(z)] + rest)))
    ensures Ends(k, style, Run(style, st, [x, y, z]), open, rest)
    ensures PassAll(style, st, [Plain(x)] + ([Plain(y)] + ([Plain(z)] + rest)))
         == PassAll(style, Run(style, st, [x, y, z]), rest)
  {
    RunThree(style, st, x, y, z);
    RunPair(style, st, x, y);
    open := TwoOn(k, style, st, stack, x, y, [Plain(z)] + rest);
    open := OneOn(k, style, Run(style, st, [x, y]), open, z, rest);
  }

  /** Once it is somewhere, it is in the output at the end. */
  lemma LastsIn(p: Line -> bool, everywhere: bool, k: Line -> Line, style: Style, st: State, stack: seq<Level>, ps: seq<Piece>)
    requires Ends(k, style, st, stack, ps)
    requires Lasting(p, everywhere) && HasLettersOf(p, k) && Somewhere(p, everywhere, st)
    ensures p(PassAll(style, st, ps).output)
  {
    LastsToTheEnd(p, everywhere, k, style, st, stack, ps);
  }

  lemma HeadingLasts(style: Style, st: State, next: State, stack: seq<Level>, added: Line, after: seq<Piece>)
    requires Ends(Keeping(false), style, next, stack, after) && Keep(added, false) != []
    requires Like(next, Put(st, ToHeading, added))
    ensures Within(added, PassAll(style, next, after).output)
  {
    HasLasts(added);
    HasItsLetters(added);
    Itself(added);
    PutShows(Has(added), false, st, next, ToHeading, added);
    LastsIn(Has(added), false, Keeping(false), style, next, stack, after);
  }

  lemma SignsLast(style: Style, st: State, next: State, spot: Spot, stack: seq<Level>, added: Line, after: seq<Piece>)
    requires Ends(Keeping(false), style, next, stack, after) && LettersIn(Signs(added)) > 0
    requires Like(next, Put(st, spot, added)) && spot != ToCell && (spot == ToItem ==> st.items != [])
    ensures Within(Signs(added), Signs(PassAll(style, next, after).output))
  {
    var w := Signs(added);
    ReadsLasts(w);
    ReadsLetters(w);
    Itself(w);
    PutShows(Reads(w), true, st, next, spot, added);
    LastsIn(Reads(w), true, Keeping(false), style, next, stack, after);
  }

  lemma SoftLasts(style: Style, st: State, stack: seq<Level>, a: seq<Letter>, b: seq<Letter>, after: seq<Piece>)
    requires HasLetters(a) || HasLetters(b)
    requires Ends(Keeping(false), style, st, stack, Broken(a, SoftBreak, b, after))
    ensures Parted(PassAll(style, st, Broken(a, SoftBreak, b, after)).output, View(Keeping(false), st), SoftBreak, a, b)
  {
    var next, spot := Run(style, st, [Text(a), SoftBreak, Text(b)]), SpotOf(st);
    var open := ThreeOn(Keeping(false), style, st, stack, Text(a), SoftBreak, Text(b), after);
    var added := SoftBreakSeparates(style, st, a, b);
    LettersOfBoth(a, b, [LineEnd]);
    if spot == ToHeading {
      HeadingLasts(style, st, next, open, added, after);
    } else {
      SignsLast(style, st, next, spot, open, added, after);
    }
  }

  lemma HardLasts(style: Style, st: State, stack: seq<Level>, a: seq<Letter>, b: seq<Letter>, after: seq<Piece>)
    requires HasLetters(a) || HasLetters(b)
    requires Ends(Keeping(false), style, st, stack, Broken(a, HardBreak, b, after))
    ensures Parted(PassAll(style, st, Broken(a, HardBreak, b, after)).output, View(Keeping(false), st), HardBreak, a, b)
  {
    var next, spot := Run(style, st, [Text(a), HardBreak, Text(b)]), SpotOf(st);
    var open := ThreeOn(Keeping(false), style, st, stack, Text(a), HardBreak, Text(b), after);
    var added := HardBreakSeparatesIff(style, st, a, b);
    var ended := Put(st, Outer(st), [Chrome('\n')]);
    SignsAppend(Inked(a), Inked(b));
    LettersOfBoth(a, b, [LineEnd]);
    if spot == ToHeading {
      HeadingLasts(style, ended, next, open, added, after);
    } else if spot == ToQuote {
      SignsLast(style, ended, next, spot, open, added, after);
    } else {
      SignsLast(style, st, next, spot, open, added, after);
    }
  }

  lemma LettersOfBoth(a: seq<Letter>, b: seq<Letter>, between: seq<Sign>)
    requires HasLetters(a) || HasLetters(b)
    ensures LettersIn(Signs(Inked(a)) + between + Signs(Inked(b))) > 0
    ensures LettersIn(Signs(Inked(a)) + Signs(Inked(b))) > 0
    ensures Keep(Inked(a) + [Chrome(' ')] + Inked(b), false) != [] && Keep(Inked(a) + Inked(b), false) != []
  {
    SameLetters(Inked(a));
    SameLetters(Inked(b));
    LettersInAppend(Signs(Inked(a)) + between, Signs(Inked(b)));
    LettersInAppend(Signs(Inked(a)), between);
    LettersInAppend(Signs(Inked(a)), Signs(Inked(b)));
    KeepAppend3(Inked(a), [Chrome(' ')], Inked(b), false);
    KeepAppend(Inked(a), Inked(b), false);
  }

  lemma Itself<T(!new)>(w: seq<T>)
    ensures Within(w, w)
  {
    assert w == [] + w + [];
  }

  /** Where a stream is after its first pieces. */
  lemma {:induction false} Reached(
    k: Line -> Line, style: Style, st: State, stack: seq<Level>, before: seq<Piece>, rest: seq<Piece>)
    returns (next: State, open: seq<Level>)
    requires Ends(k, style, st, stack, before + rest)
    ensures Ends(k, style, next, open, rest)
    ensures View(k, next) == ScanPieces(View(k, st), before)
    ensures PassAll(style, st, before + rest) == PassAll(style, next, rest)
    decreases |before|
  {
    if before == [] {
      assert before + rest == rest;
      next, open := st, stack;
    } else {
      assert (before + rest)[0] == before[0] && (before + rest)[1..] == before[1..] + rest;
      GoesOn(k, style, st, stack, before + rest);
      next, open := Reached(k, style, Pass(style, st, before[0]), NextOpen(stack, before[0]), before[1..], rest);
    }
  }

  lemma FromTheStart(style: Style, ps: seq<Piece>)
    requires NestedPieces([], ps) && AfterPieces([], ps) == [] && LosesNothing(style, false, NOTHING_OPEN, ps)
    ensures Ends(Keeping(false), style, REST, [], ps) && View(Keeping(false), REST) == NOTHING_OPEN
    ensures PassAll(style, REST, ps) == Run(style, REST, Stream(ps))
  {
    KeepReads(false);
    KeepSeesLetters(false);
    NothingIsOpen(Keeping(false));
    PassAllIsRun(style, REST, ps);
  }

  /** In every stream that loses no letters, with tables or without: two texts with a break between
      them come out with a line end between them, or with a blank in a heading, wherever they were
      held and however often; but a hard break in a heading or a quote leaves them side by side. */
  lemma BreaksAreSeen(style: Style, before: seq<Piece>, a: seq<Letter>, brk: Event, b: seq<Letter>, after: seq<Piece>)
    requires brk == SoftBreak || brk == HardBreak
    requires HasLetters(a) || HasLetters(b)
    requires var ps := before + Broken(a, brk, b, after);
             NestedPieces([], ps) && AfterPieces([], ps) == [] && LosesNothing(style, false, NOTHING_OPEN, ps)
    ensures Parted(Run(style, REST, Stream(before + Broken(a, brk, b, after))).output, ScanPieces(NOTHING_OPEN, before), brk, a, b)
  {
    var rest := Broken(a, brk, b, after);
    FromTheStart(style, before + rest);
    var st, stack := Reached(Keeping(false), style, REST, [], before, rest);
    if brk == SoftBreak {
      SoftLasts(style, st, stack, a, b, after);
    } else {
      HardLasts(style, st, stack, a, b, after);
    }
  }

  /** Two texts with nothing between them come out side by side. */
  lemma NothingComesBetween(style: Style, before: seq<Piece>, a: seq<Letter>, b: seq<Letter>, after: seq<Piece>)
    requires HasLetters(a) || HasLetters(b)
    requires var ps := before + ([Plain(Text(a))] + ([Plain(Text(b))] + after));
             NestedPieces([], ps) && AfterPieces([], ps) == [] && LosesNothing(style, false, NOTHING_OPEN, ps)
    ensures var ps := before + ([Plain(Text(a))] + ([Plain(Text(b))] + after));
            Within(Signs(Inked(a)) + Signs(Inked(b)), Signs(Run(style, REST, Stream(ps)).output))
  {
    var rest := [Plain(Text(a))] + ([Plain(Text(b))] + after);
    FromTheStart(style, before + rest);
    var st, stack := Reached(Keeping(false), style, REST, [], before, rest);
    var open := TwoOn(Keeping(false), style, st, stack, Text(a), Text(b), after);
    var added := TextsAreClose(style, st, a, b);
    LettersOfBoth(a, b, []);
    SignsLast(style, st, Run(style, st, [Text(a), Text(b)]), SpotOf(st), open, added, after);
  }
}
