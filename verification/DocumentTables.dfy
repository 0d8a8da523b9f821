/** What becomes of a table in the stream: its body rows are collected and drawn, its head
    is not. */
module DocumentTables {
  import opened Seqs
  import opened Glyphs
  import opened TableLayout
  import opened RendererModel

  /** The content of a cell: its texts, inline codes and breaks. */
  type Cell = seq<Event>

  predicate IsCell(cell: Cell) {
    forall i :: 0 <= i < |cell| ==> cell[i].Text? || cell[i].Code? || cell[i].SoftBreak? || cell[i].HardBreak?
  }

  predicate IsRow(row: seq<Cell>) {
    forall i :: 0 <= i < |row| ==> IsCell(row[i])
  }

  datatype Source = Source(columns: nat, head: seq<Cell>, body: seq<seq<Cell>>) {
    predicate Valid() {
      IsRow(head) && forall i :: 0 <= i < |body| ==> IsRow(body[i])
    }
  }

  function CellEvents(cell: Cell): seq<Event> {
    [Start(TableCell)] + cell + [End(TableCellEnd)]
  }

  function CellsEvents(cells: seq<Cell>): seq<Event> {
    if cells == [] then [] else CellEvents(cells[0]) + CellsEvents(cells[1..])
  }

  function RowEvents(row: seq<Cell>): seq<Event> {
    [Start(TableRow)] + CellsEvents(row) + [End(TableRowEnd)]
  }

  function RowsEvents(rows: seq<seq<Cell>>): seq<Event> {
    if rows == [] then [] else RowEvents(rows[0]) + RowsEvents(rows[1..])
  }

  function HeadEvents(source: Source): seq<Event> {
    [Start(Tag.Table(source.columns)), Start(TableHead)] + CellsEvents(source.head) + [End(TableHeadEnd)]
  }

  /** The head's cells stand directly in the head, without a row of their own. */
  function TableEvents(source: Source): seq<Event> {
    HeadEvents(source) + RowsEvents(source.body) + [End(TableEnd)]
  }

  function Glyph(event: Event): Line {
    match event
    case Text(text) => Inked(text)
    case Code(text) => InlineCode(text)
    case _ => BLANK
  }

  function CellGlyphs(cell: Cell): Line {
    if cell == [] then [] else Glyph(cell[0]) + CellGlyphs(cell[1..])
  }

  function RowGlyphs(row: seq<Cell>): (r: Row)
    ensures |r| == |row|
  {
    if row == [] then [] else [CellGlyphs(row[0])] + RowGlyphs(row[1..])
  }

  /** The rows of the body that have a cell at all. */
  function BodyGlyphs(rows: seq<seq<Cell>>): seq<Row> {
    if rows == [] then []
    else (if rows[0] == [] then [] else [RowGlyphs(rows[0])]) + BodyGlyphs(rows[1..])
  }

  // ---- The renderer collects the rows ----

  lemma StepInCell(style: Style, st: State, event: Event)
    requires st.table.inTable && IsCell([event])
    ensures Step(style, st, event) == st.(table := st.table.(cell := st.table.cell + Glyph(event)))
  {
    assert [event][0].Text? || [event][0].Code? || [event][0].SoftBreak? || [event][0].HardBreak?;
  }

  lemma {:induction false} RunCellContent(style: Style, st: State, cell: Cell)
    requires st.table.inTable && IsCell(cell)
    ensures Run(style, st, cell) == st.(table := st.table.(cell := st.table.cell + CellGlyphs(cell)))
    decreases |cell|
  {
    if cell == [] {
      assert st.table.cell + [] == st.table.cell;
    } else {
      StepInCell(style, st, cell[0]);
      RunCellContent(style, st.(table := st.table.(cell := st.table.cell + Glyph(cell[0]))), cell[1..]);
      Associate(st.table.cell, Glyph(cell[0]), CellGlyphs(cell[1..]));
    }
  }

  lemma RunOne(style: Style, st: State, event: Event)
    ensures Run(style, st, [event]) == Step(style, st, event)
  {
    assert [event][1..] == [];
  }

  lemma RunCell(style: Style, st: State, cell: Cell)
    requires st.table.inTable && IsCell(cell)
    ensures Run(style, st, CellEvents(cell))
            == st.(table := st.table.(row := st.table.row + [CellGlyphs(cell)], cell := []))
  {
    var begun := Step(style, st, Start(TableCell));
    RunOne(style, st, Start(TableCell));
    RunCellContent(style, begun, cell);
    assert [] + CellGlyphs(cell) == CellGlyphs(cell);
    RunAppend(style, st, [Start(TableCell)], cell);
    RunOne(style, Run(style, begun, cell), End(TableCellEnd));
    RunAppend(style, st, [Start(TableCell)] + cell, [End(TableCellEnd)]);
  }

  function WithRow(st: State, row: Row): State {
    st.(table := st.table.(row := row))
  }

  lemma {:induction false} RunCells(style: Style, st: State, row: Row, cells: seq<Cell>)
    requires st.table.inTable && IsRow(cells) && st.table.cell == []
    ensures Run(style, WithRow(st, row), CellsEvents(cells)) == WithRow(st, row + RowGlyphs(cells))
    decreases |cells|
  {
    if cells == [] {
      assert row + [] == row;
    } else {
      var longer := row + [CellGlyphs(cells[0])];
      Associate(row, [CellGlyphs(cells[0])], RowGlyphs(cells[1..]));
      RunCell(style, WithRow(st, row), cells[0]);
      RunAppend(style, WithRow(st, row), CellEvents(cells[0]), CellsEvents(cells[1..]));
      RunCells(style, st, longer, cells[1..]);
    }
  }

  /** A row starts afresh, whatever the row buffer held before. */
  lemma RunRow(style: Style, st: State, row: seq<Cell>)
    requires st.table.inTable && IsRow(row) && st.table.cell == []
    ensures Run(style, st, RowEvents(row))
            == st.(table := st.table.(row := [], rows := st.table.rows + BodyGlyphs([row])))
  {
    var filled := WithRow(st, RowGlyphs(row));
    RunOne(style, st, Start(TableRow));
    RunCells(style, st, [], row);
    assert [] + RowGlyphs(row) == RowGlyphs(row);
    RunAppend(style, st, [Start(TableRow)], CellsEvents(row));
    RunOne(style, filled, End(TableRowEnd));
    RunAppend(style, st, [Start(TableRow)] + CellsEvents(row), [End(TableRowEnd)]);
    assert [row][1..] == [];
  }

  /** The state after some rows: they are in, and the row buffer is free. */
  function Collected(st: State, rows: seq<seq<Cell>>): State {
    if rows == [] then st else st.(table := st.table.(row := [], rows := st.table.rows + BodyGlyphs(rows)))
  }

  lemma BodyOfOne(row: seq<Cell>)
    ensures BodyGlyphs([row]) == if row == [] then [] else [RowGlyphs(row)]
  {
    assert [row][1..] == [];
  }

  lemma CollectedAll(st: State, rows: seq<seq<Cell>>)
    requires rows != []
    ensures Collected(Collected(st, [rows[0]]), rows[1..]) == Collected(st, rows)
  {
    var first, rest := BodyGlyphs([rows[0]]), BodyGlyphs(rows[1..]);
    BodyOfOne(rows[0]);
    Associate(st.table.rows, first, rest);
    assert rest == [] ==> first + rest == first;
  }

  lemma {:induction false} RunRows(style: Style, st: State, rows: seq<seq<Cell>>)
    requires st.table.inTable && st.table.cell == [] && forall i :: 0 <= i < |rows| ==> IsRow(rows[i])
    ensures Run(style, st, RowsEvents(rows)) == Collected(st, rows)
    decreases |rows|
  {
    if rows != [] {
      var next := Collected(st, [rows[0]]);
      RunRow(style, st, rows[0]);
      RunAppend(style, st, RowEvents(rows[0]), RowsEvents(rows[1..]));
      RunRows(style, next, rows[1..]);
      CollectedAll(st, rows);
    }
  }

  lemma RunTwo(style: Style, st: State, first: Event, second: Event)
    ensures Run(style, st, [first, second]) == Step(style, Step(style, st, first), second)
  {
    assert [first, second] == [first] + [second];
    RunAppend(style, st, [first], [second]);
    RunOne(style, st, first);
    RunOne(style, Step(style, st, first), second);
  }

  lemma RunHeadCells(style: Style, st: State, source: Source)
    requires source.Valid()
    ensures Run(style, st, [Start(Tag.Table(source.columns)), Start(TableHead)] + CellsEvents(source.head))
            == st.(table := TableState(true, true, source.columns, [], RowGlyphs(source.head), []))
  {
    var opening := [Start(Tag.Table(source.columns)), Start(TableHead)];
    var begun := st.(table := TableState(true, true, source.columns, [], [], []));
    RunTwo(style, st, opening[0], opening[1]);
    RunAppend(style, st, opening, CellsEvents(source.head));
    RunCells(style, begun, [], source.head);
    assert [] + RowGlyphs(source.head) == RowGlyphs(source.head);
  }

  lemma RunHead(style: Style, st: State, source: Source)
    requires source.Valid()
    ensures Run(style, st, HeadEvents(source))
            == st.(table := TableState(true, false, source.columns, [], RowGlyphs(source.head), []))
  {
    var opening := [Start(Tag.Table(source.columns)), Start(TableHead)] + CellsEvents(source.head);
    RunHeadCells(style, st, source);
    RunAppend(style, st, opening, [End(TableHeadEnd)]);
    RunOne(style, Run(style, st, opening), End(TableHeadEnd));
  }

  lemma RunTable(style: Style, st: State, source: Source)
    requires source.Valid()
    ensures var headed := st.(table := TableState(true, false, source.columns, [], RowGlyphs(source.head), []));
            Run(style, st, TableEvents(source)) == EndTable(style, Collected(headed, source.body))
  {
    var headed := st.(table := TableState(true, false, source.columns, [], RowGlyphs(source.head), []));
    RunHead(style, st, source);
    RunAppend(style, st, HeadEvents(source), RowsEvents(source.body));
    RunRows(style, headed, source.body);
    RunAppend(style, st, HeadEvents(source) + RowsEvents(source.body), [End(TableEnd)]);
    RunOne(style, Collected(headed, source.body), End(TableEnd));
  }

  /** A table adds to the output the drawing of its body rows, and nothing of its head; what comes
      next needs no gap if anything is drawn. */
  lemma TableShowsBody(style: Style, st: State, source: Source)
    requires source.Valid()
    ensures var drawn, next := TableLayout.Table(style.charWidth, style.width, BodyGlyphs(source.body), source.columns),
                               Run(style, st, TableEvents(source));
            next.output == st.output + drawn && next.lastWasBlank == (drawn != [] || st.lastWasBlank)
  {
    RunTable(style, st, source);
    var headed := st.(table := TableState(true, false, source.columns, [], RowGlyphs(source.head), []));
    var collected := Collected(headed, source.body);
    assert collected.output == st.output && collected.table.columns == source.columns;
    assert collected.table.rows == BodyGlyphs(source.body);
    assert st.output + [] == st.output;
  }

  /** All letters of a table come out, each once, exactly if its head has none and every cell
      of its body fits its column. */
  lemma TableIsShownIff(style: Style, st: State, source: Source)
    requires source.Valid()
    ensures var rows := BodyGlyphs(source.body);
            var ws := Widths(style.charWidth, style.width, rows, source.columns);
            var given := Flatten(RowGlyphs(source.head)) + Flatten(RowTexts(rows));
            && Covers(ws, rows)
            && ((multiset(Keep(Run(style, st, TableEvents(source)).output, false))
                 == multiset(Keep(st.output, false)) + multiset(Keep(given, false)))
                <==> (Keep(Flatten(RowGlyphs(source.head)), false) == [] && AllFit(style.charWidth, ws, rows, false)))
  {
    var head, rows := Flatten(RowGlyphs(source.head)), BodyGlyphs(source.body);
    var drawn := TableLayout.Table(style.charWidth, style.width, rows, source.columns);
    TableShowsBody(style, st, source);
    TableShowsAllIff(style.charWidth, style.width, rows, source.columns, false);
    KeepAppend(st.output, drawn, false);
    KeepAppend(head, Flatten(RowTexts(rows)), false);
    SumDecides(Keep(st.output, false), Keep(drawn, false), Keep(head, false), Keep(Flatten(RowTexts(rows)), false));
  }

  lemma SumDecides(before: Line, drawn: Line, head: Line, body: Line)
    requires |drawn| <= |body| && (|drawn| == |body| ==> drawn == body)
    ensures multiset(before + drawn) == multiset(before) + multiset(head + body) <==> head == [] && drawn == body
  {
    assert |multiset(before + drawn)| == |before| + |drawn|;
    assert |multiset(before) + multiset(head + body)| == |before| + |head| + |body|;
    if head == [] {
      assert head + body == body;
    }
  }

  /** A table whose one column is headed "h" and has no rows: the letter is lost. */
  lemma HeadIsLost(style: Style, st: State)
    ensures var source := Source(1, [[Text([Letter('h', 0)])]], []);
            && source.Valid()
            && Keep(Flatten(RowGlyphs(source.head)), false) == [Ink(Letter('h', 0))]
            && Run(style, st, TableEvents(source)).output == st.output
  {
    var text := [Letter('h', 0)];
    var source := Source(1, [[Text(text)]], []);
    TableShowsBody(style, st, source);
    OneCell(text);
    assert Inked(text) == [Ink(text[0])];
    KeepOne(Ink(text[0]), false);
    assert TableLayout.Table(style.charWidth, style.width, [], 1) == [];
  }

  /** A table with one cell of eighty letters: some are lost, however wide the screen is. */
  lemma LongCellLosesText(style: Style, st: State, text: seq<Letter>)
    requires |text| == 80 && forall i :: 0 <= i < 80 ==> text[i] == Letter('x', i)
    requires style.charWidth('x') == 1
    ensures var source := Source(1, [], [[[Text(text)]]]);
            && source.Valid()
            && |Keep(Run(style, st, TableEvents(source)).output, false)| < |Keep(st.output, false)| + 80
  {
    var source := Source(1, [], [[[Text(text)]]]);
    var rows := BodyGlyphs(source.body);
    OneRow(text);
    InkedWidth(style.charWidth, text);
    LongCellIsCut(style.charWidth, style.width, Inked(text), false);
    TableShowsBody(style, st, source);
    TableShowsAllIff(style.charWidth, style.width, rows, 1, false);
    KeepAppend(st.output, TableLayout.Table(style.charWidth, style.width, rows, 1), false);
    assert !Fits(style.charWidth, rows[0][0], Widths(style.charWidth, style.width, rows, 1)[0], false);
    KeepInked(text);
  }

  lemma OneCell(text: seq<Letter>)
    ensures RowGlyphs([[Text(text)]]) == [Inked(text)] && Flatten([Inked(text)]) == Inked(text)
  {
    var cell: Cell := [Text(text)];
    var row: seq<Cell> := [cell];
    assert cell[1..] == [] && row[1..] == [];
    assert CellGlyphs(cell) == Inked(text);
    FlattenSnoc([], Inked(text));
  }

  lemma OneRow(text: seq<Letter>)
    ensures BodyGlyphs([[[Text(text)]]]) == [[Inked(text)]]
    ensures Flatten(RowTexts([[Inked(text)]])) == Inked(text)
  {
    OneCell(text);
    BodyOfOne([[Text(text)]]);
    assert RowTexts([[Inked(text)]]) == [Flatten([Inked(text)])];
  }

  lemma {:induction false} InkedWidth(cw: CharWidth, text: seq<Letter>)
    requires cw('x') == 1 && forall i :: 0 <= i < |text| ==> text[i].ch == 'x'
    ensures TextWidth(cw, Inked(text)) == |text| && LastKept(Inked(text), false) == |text|
  {
    if text != [] {
      assert Inked(text)[1..] == Inked(text[1..]);
      InkedWidth(cw, text[1..]);
    }
  }

  lemma {:induction false} KeepInked(text: seq<Letter>)
    ensures |Keep(Inked(text), false)| <= |text|
  {
    if text != [] {
      assert Inked(text)[1..] == Inked(text[1..]);
      KeepInked(text[1..]);
    }
  }
}
