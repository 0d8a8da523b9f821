/** Whole streams, with tables anywhere among their other events: exactly when everything is
    shown, and exactly when it is shown in order.  A table writes its body to the output at once,
    past whatever waits. */
module RendererStreams {
  import opened Seqs
  import G = Glyphs
  import opened Glyphs
  import opened TableLayout
  import opened RendererModel
  import opened RendererLedger
  import opened RendererNesting
  import opened RendererTrack
  import opened RendererHeld
  import opened DocumentTables

  // ---- Streams in pieces ----

  /** An event outside tables, or a whole table. */
  datatype Piece = Plain(event: Event) | Grid(source: Source)

  function PieceEvents(p: Piece): seq<Event> {
    match p
    case Plain(event) => [event]
    case Grid(source) => TableEvents(source)
  }

  function Stream(ps: seq<Piece>): seq<Event> {
    if ps == [] then [] else PieceEvents(ps[0]) + Stream(ps[1..])
  }

  /** What a piece leaves of the tags that are open. */
  function NextOpen(stack: seq<Level>, p: Piece): seq<Level>
    requires p.Plain? ==> Allowed(stack, p.event)
  {
    match p
    case Plain(event) => Next(stack, event)
    case Grid(_) => stack
  }

  predicate Fitting(stack: seq<Level>, p: Piece) {
    match p
    case Plain(event) => Allowed(stack, event)
    case Grid(source) => source.Valid()
  }

  /** Well nested but for the tables, which may stand anywhere. */
  predicate NestedPieces(stack: seq<Level>, ps: seq<Piece>)
    decreases |ps|
  {
    ps == [] || (Fitting(stack, ps[0]) && NestedPieces(NextOpen(stack, ps[0]), ps[1..]))
  }

  function AfterPieces(stack: seq<Level>, ps: seq<Piece>): seq<Level>
    requires NestedPieces(stack, ps)
    decreases |ps|
  {
    if ps == [] then stack else AfterPieces(NextOpen(stack, ps[0]), ps[1..])
  }

  /** All letters of a table, those of its head first. */
  function TableGiven(source: Source): Line {
    Flatten(RowGlyphs(source.head)) + Flatten(RowTexts(BodyGlyphs(source.body)))
  }

  function Given(p: Piece, number: nat): Line {
    match p
    case Plain(event) => Brought(event, number)
    case Grid(source) => TableGiven(source)
  }

  /** All texts, item labels and cells of a stream, in order. */
  function GivenAll(stack: seq<Level>, ps: seq<Piece>): Line
    requires NestedPieces(stack, ps)
    decreases |ps|
  {
    if ps == [] then [] else Given(ps[0], TopLabel(stack)) + GivenAll(NextOpen(stack, ps[0]), ps[1..])
  }

  // ---- One piece after the other ----

  function Pass(style: Style, st: State, p: Piece): State {
    match p
    case Plain(event) => Step(style, st, event)
    case Grid(source) => Run(style, st, TableEvents(source))
  }

  function PassAll(style: Style, st: State, ps: seq<Piece>): State
    decreases |ps|
  {
    if ps == [] then st else PassAll(style, Pass(style, st, ps[0]), ps[1..])
  }

  lemma {:induction false} PassAllIsRun(style: Style, st: State, ps: seq<Piece>)
    ensures PassAll(style, st, ps) == Run(style, st, Stream(ps))
    decreases |ps|
  {
    if ps != [] {
      if ps[0].Plain? {
        RunOne(style, st, ps[0].event);
      }
      RunAppend(style, st, PieceEvents(ps[0]), Stream(ps[1..]));
      PassAllIsRun(style, Pass(style, st, ps[0]), ps[1..]);
    }
  }

  /** What is drawn of a table. */
  function Sheet(style: Style, source: Source): Line {
    TableLayout.Table(style.charWidth, style.width, BodyGlyphs(source.body), source.columns)
  }

  /** A table touches nothing but the output. */
  lemma GridPass(style: Style, st: State, source: Source)
    requires source.Valid()
    ensures var next := Run(style, st, TableEvents(source));
            && next.output == st.output + Sheet(style, source) && !next.table.inTable
            && next == st.(output := next.output, table := next.table, lastWasBlank := next.lastWasBlank)
  {
    RunTable(style, st, source);
    TableShowsBody(style, st, source);
  }

  // ---- What a table shows ----

  /** The head of the table has no letters and every cell of its body fits its column. */
  ghost predicate Whole(style: Style, source: Source, labels: bool) {
    var rows := BodyGlyphs(source.body);
    var ws := Widths(style.charWidth, style.width, rows, source.columns);
    && Keep(Flatten(RowGlyphs(source.head)), labels) == []
    && Covers(ws, rows) && AllFit(style.charWidth, ws, rows, labels)
  }

  lemma SheetShows(style: Style, source: Source, labels: bool)
    ensures var shown, given := Keep(Sheet(style, source), labels), Keep(TableGiven(source), labels);
            && |shown| <= |given| && (|shown| == |given| <==> Whole(style, source, labels))
            && (Whole(style, source, labels) ==> shown == given)
  {
    var rows := BodyGlyphs(source.body);
    TableShowsAllIff(style.charWidth, style.width, rows, source.columns, labels);
    KeepAppend(Flatten(RowGlyphs(source.head)), Flatten(RowTexts(rows)), labels);
  }

  /** A reading sees of a table no more than it has, and all of it exactly if it is whole. */
  ghost predicate ReadsSheets(k: Line -> Line, style: Style, labels: bool) {
    forall source: Source {:trigger k(Sheet(style, source))} {:trigger Whole(style, source, labels)} ::
      && |k(Sheet(style, source))| <= |k(TableGiven(source))|
      && (|k(Sheet(style, source))| == |k(TableGiven(source))| <==> Whole(style, source, labels))
      && (Whole(style, source, labels) ==> k(Sheet(style, source)) == k(TableGiven(source)))
  }

  lemma KeepReadsSheets(style: Style, labels: bool)
    ensures ReadsSheets(Keeping(labels), style, labels)
  {
    forall source: Source
      ensures var shown, given := Keep(Sheet(style, source), labels), Keep(TableGiven(source), labels);
              && |shown| <= |given| && (|shown| == |given| <==> Whole(style, source, labels))
              && (Whole(style, source, labels) ==> shown == given)
    {
      SheetShows(style, source, labels);
    }
  }

  // ---- The renderer mirrors the open tags, tables or not ----

  lemma NextHasNoTables(stack: seq<Level>, event: Event)
    requires NoTables(stack) && Allowed(stack, event)
    ensures NoTables(Next(stack, event)) && !IsTableEvent(event)
  {
    if event.End? {
      assert !IsTableEvent(Start(stack[|stack| - 1].tag));
    }
  }

  lemma PassMirrors(style: Style, st: State, stack: seq<Level>, p: Piece)
    requires Mirrors(st, stack) && NoTables(stack) && Fitting(stack, p)
    ensures Mirrors(Pass(style, st, p), NextOpen(stack, p)) && NoTables(NextOpen(stack, p))
    ensures p.Plain? ==> !IsTableEvent(p.event) && Brought(p.event, NextLabel(st)) == Brought(p.event, TopLabel(stack))
  {
    match p {
      case Plain(event) =>
        NextHasNoTables(stack, event);
        StepMirrors(style, st, stack, event);
      case Grid(source) => GridPass(style, st, source);
    }
  }

  lemma {:induction false} PiecesMirror(style: Style, st: State, stack: seq<Level>, ps: seq<Piece>)
    requires Mirrors(st, stack) && NoTables(stack) && NestedPieces(stack, ps)
    ensures Mirrors(PassAll(style, st, ps), AfterPieces(stack, ps))
    decreases |ps|
  {
    if ps != [] {
      PassMirrors(style, st, stack, ps[0]);
      PiecesMirror(style, Pass(style, st, ps[0]), NextOpen(stack, ps[0]), ps[1..]);
    }
  }

  // ---- The book ----

  /** What a piece loses, in some count: the buffer it clears, or what a table does not draw. */
  function LostBy(m: Line -> nat, style: Style, st: State, p: Piece): int {
    match p
    case Plain(event) => m(Discarded(st, event))
    case Grid(source) => m(TableGiven(source)) - m(Sheet(style, source))
  }

  function LostIn(m: Line -> nat, style: Style, st: State, ps: seq<Piece>): int
    decreases |ps|
  {
    if ps == [] then 0 else LostBy(m, style, st, ps[0]) + LostIn(m, style, Pass(style, st, ps[0]), ps[1..])
  }

  lemma PassBalances(m: Line -> nat, style: Style, st: State, stack: seq<Level>, p: Piece)
    requires Counting(m) && Mirrors(st, stack) && NoTables(stack) && Fitting(stack, p)
    ensures Ledger(m, Pass(style, st, p)) + LostBy(m, style, st, p) == Ledger(m, st) + m(Given(p, TopLabel(stack)))
  {
    PassMirrors(style, st, stack, p);
    match p {
      case Plain(event) => StepBalances(m, style, st, event);
      case Grid(source) =>
        GridPass(style, st, source);
        assert m(st.output + Sheet(style, source)) == m(st.output) + m(Sheet(style, source));
    }
  }

  lemma {:induction false} PiecesBalance(m: Line -> nat, style: Style, st: State, stack: seq<Level>, ps: seq<Piece>)
    requires Counting(m) && Mirrors(st, stack) && NoTables(stack) && NestedPieces(stack, ps)
    ensures Ledger(m, PassAll(style, st, ps)) + LostIn(m, style, st, ps) == Ledger(m, st) + m(GivenAll(stack, ps))
    decreases |ps|
  {
    if ps != [] {
      PassMirrors(style, st, stack, ps[0]);
      PassBalances(m, style, st, stack, ps[0]);
      PiecesBalance(m, style, Pass(style, st, ps[0]), NextOpen(stack, ps[0]), ps[1..]);
      assert m(GivenAll(stack, ps)) == m(Given(ps[0], TopLabel(stack))) + m(GivenAll(NextOpen(stack, ps[0]), ps[1..]));
    }
  }

  lemma WholeRunBalances(m: Line -> nat, style: Style, ps: seq<Piece>)
    requires Counting(m) && NestedPieces([], ps) && AfterPieces([], ps) == []
    ensures m(PassAll(style, REST, ps).output) + LostIn(m, style, REST, ps) == m(GivenAll([], ps))
  {
    PiecesMirror(style, REST, [], ps);
    MirrorOfNothing(PassAll(style, REST, ps));
    PiecesBalance(m, style, REST, [], ps);
    LedgerAtRest(m, REST);
    LedgerAtRest(m, PassAll(style, REST, ps));
  }

  // ---- When everything is shown ----

  function ScanPiece(t: Track, p: Piece): Track {
    match p
    case Plain(event) => Scan(t, event)
    case Grid(_) => t
  }

  /** A spill, or a table that is not shown whole. */
  ghost predicate Loses(style: Style, labels: bool, t: Track, p: Piece) {
    match p
    case Plain(event) => Spills(t, event)
    case Grid(source) => !Whole(style, source, labels)
  }

  ghost predicate LosesNothing(style: Style, labels: bool, t: Track, ps: seq<Piece>)
    decreases |ps|
  {
    ps == [] || (!Loses(style, labels, t, ps[0]) && LosesNothing(style, labels, ScanPiece(t, ps[0]), ps[1..]))
  }

  lemma PassIsScanned(k: Line -> Line, labels: bool, style: Style, st: State, stack: seq<Level>, p: Piece)
    requires Reading(k, labels) && SeesLetters(k) && Mirrors(st, stack) && NoTables(stack) && Fitting(stack, p)
    ensures View(k, Pass(style, st, p)) == ScanPiece(View(k, st), p)
  {
    match p {
      case Plain(event) =>
        NextHasNoTables(stack, event);
        StepIsScanned(k, labels, style, st, event);
      case Grid(source) => GridPass(style, st, source);
    }
  }

  /** A piece loses nothing in length exactly if the scan says so, and then nothing in any count. */
  lemma LossIsSeen(k: Line -> Line, labels: bool, style: Style, st: State, p: Piece)
    requires Reading(k, labels) && ReadsSheets(k, style, labels)
    ensures LostBy(Length(k), style, st, p) >= 0
    ensures LostBy(Length(k), style, st, p) == 0 <==> !Loses(style, labels, View(k, st), p)
    ensures !Loses(style, labels, View(k, st), p) ==> forall g: G.Glyph :: LostBy(Counted(k, g), style, st, p) == 0
  {
    if p.Plain? {
      SpillsWhatIsDiscarded(k, st, p.event);
    }
  }

  lemma {:induction false} LossesAreSeen(
    k: Line -> Line, labels: bool, style: Style, st: State, stack: seq<Level>, ps: seq<Piece>)
    requires Reading(k, labels) && SeesLetters(k) && ReadsSheets(k, style, labels)
    requires Mirrors(st, stack) && NoTables(stack) && NestedPieces(stack, ps)
    ensures LostIn(Length(k), style, st, ps) >= 0
    ensures LostIn(Length(k), style, st, ps) == 0 <==> LosesNothing(style, labels, View(k, st), ps)
    decreases |ps|
  {
    if ps != [] {
      PassMirrors(style, st, stack, ps[0]);
      PassIsScanned(k, labels, style, st, stack, ps[0]);
      LossIsSeen(k, labels, style, st, ps[0]);
      LossesAreSeen(k, labels, style, Pass(style, st, ps[0]), NextOpen(stack, ps[0]), ps[1..]);
    }
  }

  lemma {:induction false} NothingLostOf(
    k: Line -> Line, labels: bool, style: Style, st: State, stack: seq<Level>, ps: seq<Piece>, g: G.Glyph)
    requires Reading(k, labels) && SeesLetters(k) && ReadsSheets(k, style, labels)
    requires Mirrors(st, stack) && NoTables(stack) && NestedPieces(stack, ps)
    requires LosesNothing(style, labels, View(k, st), ps)
    ensures LostIn(Counted(k, g), style, st, ps) == 0
    decreases |ps|
  {
    if ps != [] {
      PassMirrors(style, st, stack, ps[0]);
      PassIsScanned(k, labels, style, st, stack, ps[0]);
      LossIsSeen(k, labels, style, st, ps[0]);
      NothingLostOf(k, labels, style, Pass(style, st, ps[0]), NextOpen(stack, ps[0]), ps[1..], g);
    }
  }

  lemma NothingIsOpen(k: Line -> Line)
    requires k([]) == []
    ensures View(k, REST) == NOTHING_OPEN
  {
  }

  lemma ShownIffNothingLost(k: Line -> Line, labels: bool, style: Style, ps: seq<Piece>)
    requires Reading(k, labels) && SeesLetters(k) && ReadsSheets(k, style, labels)
    requires NestedPieces([], ps) && AfterPieces([], ps) == []
    ensures multiset(k(PassAll(style, REST, ps).output)) == multiset(k(GivenAll([], ps)))
            <==> LosesNothing(style, labels, NOTHING_OPEN, ps)
  {
    var out, given := k(PassAll(style, REST, ps).output), k(GivenAll([], ps));
    NothingIsOpen(k);
    LengthCounts(k, labels);
    WholeRunBalances(Length(k), style, ps);
    LossesAreSeen(k, labels, style, REST, [], ps);
    if multiset(out) == multiset(given) {
      assert |multiset(out)| == |out| && |multiset(given)| == |given|;
    }
    if LosesNothing(style, labels, NOTHING_OPEN, ps) {
      forall g: G.Glyph ensures multiset(out)[g] == multiset(given)[g] {
        CountedCounts(k, labels, g);
        WholeRunBalances(Counted(k, g), style, ps);
        NothingLostOf(k, labels, style, REST, [], ps, g);
      }
    }
  }

  /** For every stream, well nested but for tables, which may stand anywhere: each letter of
      each text, inline code and cell and the label of each item reach the output exactly once
      if and only if nothing is spilt, no table has letters in its head and all cells fit. */
  lemma AllShownIff(style: Style, ps: seq<Piece>)
    requires NestedPieces([], ps) && AfterPieces([], ps) == []
    ensures multiset(Keep(Run(style, REST, Stream(ps)).output, true)) == multiset(Keep(GivenAll([], ps), true))
            <==> LosesNothing(style, true, NOTHING_OPEN, ps)
  {
    KeepReads(true);
    KeepSeesLetters(true);
    KeepReadsSheets(style, true);
    PassAllIsRun(style, REST, ps);
    ShownIffNothingLost(Keeping(true), true, style, ps);
  }

  // ---- When everything is in order ----

  predicate TableWaits(source: Source, labels: bool) {
    Keep(TableGiven(source), labels) != []
  }

  predicate AnythingWaits(t: Track, labels: bool) {
    AnyWaits(t.items, labels) || BlocksWait(t)
  }

  /** A table with letters overtakes whatever waits. */
  predicate PieceOvertakes(t: Track, p: Piece, labels: bool) {
    match p
    case Plain(event) => Overtakes(t, event, labels)
    case Grid(source) => AnythingWaits(t, labels) && TableWaits(source, labels)
  }

  predicate OvertakesNothing(labels: bool, t: Track, ps: seq<Piece>)
    decreases |ps|
  {
    ps == [] || (!PieceOvertakes(t, ps[0], labels) && OvertakesNothing(labels, ScanPiece(t, ps[0]), ps[1..]))
  }

  predicate CodeInCode(t: Track, p: Piece) {
    p.Plain? && p.event.Code? && t.code.open
  }

  predicate CodeOutsidePieces(t: Track, ps: seq<Piece>)
    decreases |ps|
  {
    ps == [] || (!CodeInCode(t, ps[0]) && CodeOutsidePieces(ScanPiece(t, ps[0]), ps[1..]))
  }

  function BlockText(k: Line -> Line, st: State): Line {
    k(st.quoteBuf) + k(st.headingBuf) + k(st.codeBuf)
  }

  /** All that waits, in source order. */
  function Waiting(k: Line -> Line, st: State): Line {
    HeldText(k, st.items) + BlockText(k, st)
  }

  lemma OrderIsWaiting(k: Line -> Line, st: State)
    ensures Order(k, st) == k(st.output) + Waiting(k, st)
  {
    AssociateFour(k(st.output), HeldText(k, st.items), k(st.quoteBuf), k(st.headingBuf), k(st.codeBuf));
  }

  lemma AssociateFour(o: Line, h: Line, q: Line, g: Line, c: Line)
    ensures o + h + q + g + c == o + (h + (q + g + c))
  {
  }

  lemma WaitingIsSeen(k: Line -> Line, labels: bool, st: State)
    requires LabelsRead(k, labels, st.items)
    ensures Waiting(k, st) != [] <==> AnythingWaits(View(k, st), labels)
  {
    HeldWaits(k, labels, st.items);
  }

  ghost predicate SeesTables(k: Line -> Line, labels: bool) {
    forall source: Source {:trigger k(TableGiven(source))} {:trigger TableWaits(source, labels)} ::
      k(TableGiven(source)) != [] <==> TableWaits(source, labels)
  }

  /** The readings used here. */
  ghost predicate ReadsAll(k: Line -> Line, labels: bool, style: Style) {
    Reading(k, labels) && SeesLetters(k) && ReadsSheets(k, style, labels) && SeesTables(k, labels)
  }

  lemma KeepReadsAll(labels: bool, style: Style)
    ensures ReadsAll(Keeping(labels), labels, style)
  {
    KeepReads(labels);
    KeepSeesLetters(labels);
    KeepReadsSheets(style, labels);
  }

  /** What holds between the pieces of a stream. */
  ghost predicate Between(k: Line -> Line, labels: bool, st: State, stack: seq<Level>) {
    Closed(k, labels, st) && Mirrors(st, stack) && NoTables(stack)
  }

  lemma GridOrder(k: Line -> Line, labels: bool, style: Style, st: State, source: Source)
    requires Reading(k, labels) && Closed(k, labels, st) && source.Valid()
    ensures var next := Run(style, st, TableEvents(source));
            && Closed(k, labels, next) && st.output <= next.output
            && k(next.output) == k(st.output) + k(Sheet(style, source))
            && Order(k, next) == k(st.output) + k(Sheet(style, source)) + Waiting(k, st)
  {
    GridPass(style, st, source);
    var next := Run(style, st, TableEvents(source));
    assert k(st.output + Sheet(style, source)) == k(st.output) + k(Sheet(style, source));
    OrderIsWaiting(k, next);
  }

  lemma PassStaysBetween(k: Line -> Line, labels: bool, style: Style, st: State, stack: seq<Level>, p: Piece)
    requires ReadsAll(k, labels, style) && Between(k, labels, st, stack) && Fitting(stack, p)
    ensures Between(k, labels, Pass(style, st, p), NextOpen(stack, p))
    ensures View(k, Pass(style, st, p)) == ScanPiece(View(k, st), p)
    ensures st.output <= Pass(style, st, p).output
  {
    PassMirrors(style, st, stack, p);
    PassIsScanned(k, labels, style, st, stack, p);
    match p {
      case Plain(event) =>
        StaysClosed(k, labels, style, st, event);
        StepAppends(style, st, event);
      case Grid(source) => GridOrder(k, labels, style, st, source);
    }
  }

  /** A piece that loses nothing and overtakes nothing adds what it brings at the end. */
  lemma PassKeepsOrder(k: Line -> Line, labels: bool, style: Style, st: State, stack: seq<Level>, p: Piece)
    requires ReadsAll(k, labels, style) && Between(k, labels, st, stack) && Fitting(stack, p)
    requires !CodeInCode(View(k, st), p)
    requires !Loses(style, labels, View(k, st), p) && !PieceOvertakes(View(k, st), p, labels)
    ensures Order(k, Pass(style, st, p)) == Order(k, st) + k(Given(p, TopLabel(stack)))
  {
    match p {
      case Plain(event) =>
        PassMirrors(style, st, stack, p);
        StepKeepsOrder(k, labels, style, st, event);
      case Grid(source) =>
        GridOrder(k, labels, style, st, source);
        WaitingIsSeen(k, labels, st);
        OrderIsWaiting(k, st);
        Past(k(st.output), Waiting(k, st), k(Sheet(style, source)));
    }
  }

  lemma JoinGiven(k: Line -> Line, stack: seq<Level>, ps: seq<Piece>, before: Line)
    requires ReadsThrough(k) && ps != [] && NestedPieces(stack, ps)
    ensures (before + k(Given(ps[0], TopLabel(stack)))) + k(GivenAll(NextOpen(stack, ps[0]), ps[1..]))
         == before + k(GivenAll(stack, ps))
  {
    var first, rest := Given(ps[0], TopLabel(stack)), GivenAll(NextOpen(stack, ps[0]), ps[1..]);
    assert k(first + rest) == k(first) + k(rest);
    Associate(before, k(first), k(rest));
  }

  lemma {:induction false} SmoothKeepsOrder(
    k: Line -> Line, labels: bool, style: Style, st: State, stack: seq<Level>, ps: seq<Piece>)
    requires ReadsAll(k, labels, style) && Between(k, labels, st, stack) && NestedPieces(stack, ps)
    requires CodeOutsidePieces(View(k, st), ps)
    requires LosesNothing(style, labels, View(k, st), ps) && OvertakesNothing(labels, View(k, st), ps)
    ensures Order(k, PassAll(style, st, ps)) == Order(k, st) + k(GivenAll(stack, ps))
    decreases |ps|
  {
    if ps == [] {
      assert k(GivenAll(stack, ps)) == [] && Order(k, st) + [] == Order(k, st);
    } else {
      PassStaysBetween(k, labels, style, st, stack, ps[0]);
      PassKeepsOrder(k, labels, style, st, stack, ps[0]);
      SmoothKeepsOrder(k, labels, style, Pass(style, st, ps[0]), NextOpen(stack, ps[0]), ps[1..]);
      JoinGiven(k, stack, ps, Order(k, st));
    }
  }

  lemma ReadSmooth(k: Line -> Line, labels: bool, style: Style, ps: seq<Piece>)
    requires ReadsAll(k, labels, style) && NestedPieces([], ps) && AfterPieces([], ps) == []
    requires CodeOutsidePieces(NOTHING_OPEN, ps)
    requires LosesNothing(style, labels, NOTHING_OPEN, ps) && OvertakesNothing(labels, NOTHING_OPEN, ps)
    ensures k(PassAll(style, REST, ps).output) == k(GivenAll([], ps))
  {
    NothingIsOpen(k);
    OrderAtRest(k, labels, REST);
    PiecesMirror(style, REST, [], ps);
    MirrorOfNothing(PassAll(style, REST, ps));
    OrderAtRest(k, labels, PassAll(style, REST, ps));
    SmoothKeepsOrder(k, labels, style, REST, [], ps);
    assert k(REST.output) == [] && [] + k(GivenAll([], ps)) == k(GivenAll([], ps));
  }

  /** A stream that loses nothing and overtakes nothing comes out in order, whether or not its
      letters are different. */
  lemma SmoothIsInOrder(style: Style, ps: seq<Piece>, labels: bool)
    requires NestedPieces([], ps) && AfterPieces([], ps) == [] && CodeOutsidePieces(NOTHING_OPEN, ps)
    requires LosesNothing(style, labels, NOTHING_OPEN, ps) && OvertakesNothing(labels, NOTHING_OPEN, ps)
    ensures Keep(Run(style, REST, Stream(ps)).output, labels) == Keep(GivenAll([], ps), labels)
  {
    KeepReadsAll(labels, style);
    PassAllIsRun(style, REST, ps);
    ReadSmooth(Keeping(labels), labels, style, ps);
  }

  // ---- What overtakes is seen in the end ----

  lemma {:induction false} PiecesAppend(
    k: Line -> Line, labels: bool, style: Style, st: State, stack: seq<Level>, ps: seq<Piece>)
    requires ReadsAll(k, labels, style) && Between(k, labels, st, stack) && NestedPieces(stack, ps)
    ensures st.output <= PassAll(style, st, ps).output
    decreases |ps|
  {
    if ps != [] {
      PassStaysBetween(k, labels, style, st, stack, ps[0]);
      PiecesAppend(k, labels, style, Pass(style, st, ps[0]), NextOpen(stack, ps[0]), ps[1..]);
    }
  }

  predicate BeginsItem(p: Piece) {
    p.Plain? && p.event.Start? && p.event.tag.Item?
  }

  lemma PieceJumps(k: Line -> Line, labels: bool, style: Style, st: State, p: Piece, number: nat)
    returns (before: Line, piece: Line)
    requires ReadsAll(k, labels, style) && Closed(k, labels, st) && (p.Grid? ==> p.source.Valid())
    requires PieceOvertakes(View(k, st), p, labels) && !BeginsItem(p) && !Loses(style, labels, View(k, st), p)
    ensures before != [] && piece != [] && k(Pass(style, st, p).output) == k(st.output) + piece
    ensures k(st.output) + before + piece <= Order(k, st) + k(Given(p, number))
  {
    match p {
      case Plain(event) =>
        before, piece := OvertakingJumps(k, labels, style, st, event);
      case Grid(source) =>
        before, piece := Waiting(k, st), k(Sheet(style, source));
        GridOrder(k, labels, style, st, source);
        WaitingIsSeen(k, labels, st);
        OrderIsWaiting(k, st);
    }
  }

  lemma OvertakingIsSeen(
    k: Line -> Line, labels: bool, style: Style, st: State, stack: seq<Level>, ps: seq<Piece>)
    requires ReadsAll(k, labels, style) && Between(k, labels, st, stack) && NestedPieces(stack, ps)
    requires Distinct(Order(k, st) + k(GivenAll(stack, ps)))
    requires ps != [] && PieceOvertakes(View(k, st), ps[0], labels) && !BeginsItem(ps[0])
    requires !Loses(style, labels, View(k, st), ps[0])
    ensures k(PassAll(style, st, ps).output) != Order(k, st) + k(GivenAll(stack, ps))
  {
    var next, open := Pass(style, st, ps[0]), NextOpen(stack, ps[0]);
    var before, piece := PieceJumps(k, labels, style, st, ps[0], TopLabel(stack));
    PassStaysBetween(k, labels, style, st, stack, ps[0]);
    PiecesAppend(k, labels, style, next, open, ps[1..]);
    var final := PassAll(style, st, ps).output;
    ReadsPrefix(k, next.output, final);
    JoinGiven(k, stack, ps, Order(k, st));
    JumpIsSeen(k(st.output), before, piece, Order(k, st) + k(Given(ps[0], TopLabel(stack))),
               k(GivenAll(open, ps[1..])), k(final));
  }
}
