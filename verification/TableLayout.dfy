/** Drawing a table: measuring the columns, shrinking them to the terminal, and cutting
    the cells that do not fit.

    `cw` is the display width of a character.  The width of a text is the sum over its
    characters; escape codes take no room.  The shrinking is exact, where the program
    rounds a floating point product. */
module TableLayout {
  import opened Seqs
  import opened Glyphs

  type Row = seq<Line>
  type CharWidth = char -> nat

  const BAR := '\U{2502}'
  const DASH := '\U{2500}'
  const ELLIPSIS := '\U{2026}'

  /** The characters a frame is drawn with are one column wide, and a line break takes none. */
  ghost predicate Terminal(cw: CharWidth) {
    && (forall c :: cw(c) <= 2)
    && (forall c :: c in FRAME ==> cw(c) == 1)
    && cw('\n') == 0
  }

  const FRAME: set<char> := {
    ' ', BAR, DASH, ELLIPSIS,
    '\U{250C}', '\U{252C}', '\U{2510}', '\U{251C}', '\U{253C}', '\U{2524}', '\U{2514}', '\U{2534}', '\U{2518}'}

  function GlyphWidth(cw: CharWidth, g: Glyph): nat {
    match g
    case Ink(letter) => cw(letter.ch)
    case Chrome(ch) => cw(ch)
    case _ => 0
  }

  function TextWidth(cw: CharWidth, gs: Line): nat {
    if gs == [] then 0 else GlyphWidth(cw, gs[0]) + TextWidth(cw, gs[1..])
  }

  lemma {:induction false} TextWidthAppend(cw: CharWidth, a: Line, b: Line)
    ensures TextWidth(cw, a + b) == TextWidth(cw, a) + TextWidth(cw, b)
  {
    if a == [] {
      assert a + b == b;
    } else {
      assert (a + b)[1..] == a[1..] + b;
      TextWidthAppend(cw, a[1..], b);
    }
  }

  lemma OneGlyphWidth(cw: CharWidth, g: Glyph)
    ensures TextWidth(cw, [g]) == GlyphWidth(cw, g)
  {
    assert [g][1..] == [];
  }

  lemma {:induction false} RepeatedWidth(cw: CharWidth, n: nat, ch: char)
    requires cw(ch) == 1
    ensures TextWidth(cw, Repeated(n, ch)) == n
  {
    if n > 0 {
      assert Repeated(n, ch)[1..] == Repeated(n - 1, ch);
      RepeatedWidth(cw, n - 1, ch);
    }
  }

  function Max(a: int, b: int): int { if a >= b then a else b }
  function Min(a: int, b: int): int { if a <= b then a else b }

  // ---- Measuring ----

  function ColumnCount(rows: seq<Row>, columns: nat): (n: nat)
    ensures columns <= n
    ensures forall k :: 0 <= k < |rows| ==> |rows[k]| <= n
    ensures n == columns || exists k :: 0 <= k < |rows| && n == |rows[k]|
  {
    if rows == [] then columns
    else Max(|rows[|rows| - 1]|, ColumnCount(rows[..|rows| - 1], columns))
  }

  /** The widest cell of column `i`, with a blank on each side, and never below 3. */
  function Measured(cw: CharWidth, rows: seq<Row>, i: nat): (w: nat)
    ensures w >= 3
    ensures forall k :: 0 <= k < |rows| && i < |rows[k]| ==> TextWidth(cw, rows[k][i]) + 2 <= w
    ensures w == 3 || exists k :: 0 <= k < |rows| && i < |rows[k]| && TextWidth(cw, rows[k][i]) + 2 == w
  {
    if rows == [] then 3
    else
      var front, row := rows[..|rows| - 1], rows[|rows| - 1];
      var before := Measured(cw, front, i);
      assert forall k :: 0 <= k < |front| ==> front[k] == rows[k];
      if i < |row| then Max(before, TextWidth(cw, row[i]) + 2) else before
  }

  function MeasuredAll(cw: CharWidth, rows: seq<Row>, n: nat): (ws: seq<nat>)
    ensures |ws| == n
  {
    seq(n, i requires 0 <= i < n => Measured(cw, rows, i))
  }

  function Sum(ws: seq<nat>): nat {
    if ws == [] then 0 else ws[0] + Sum(ws[1..])
  }

  // ---- Shrinking ----

  function MaxWidth(screen: nat): nat { Min(Max(screen, 1), 72) }

  /** What the borders leave for the columns. */
  function Budget(n: nat, screen: nat): nat {
    SaturatingSub(MaxWidth(screen), n + 1)
  }

  /** A column's proportional share of the budget. */
  function Share(w: nat, budget: nat, total: nat): nat {
    w * budget / Max(total, 1)
  }

  function ShrunkOne(w: nat, budget: nat, total: nat): (r: nat)
    ensures Min(w, 5) <= r <= w
  {
    Min(Max(Share(w, budget, total), 5), w)
  }

  function Shrunk(ws: seq<nat>, budget: nat): (r: seq<nat>)
    ensures |r| == |ws|
  {
    if Sum(ws) > budget then seq(|ws|, i requires 0 <= i < |ws| => ShrunkOne(ws[i], budget, Sum(ws)))
    else ws
  }

  /** How many columns the floor of 5 pushes above their share. */
  function Raised(ws: seq<nat>, budget: nat, total: nat): nat {
    if ws == [] then 0
    else (if Share(ws[0], budget, total) < 5 then 1 else 0) + Raised(ws[1..], budget, total)
  }

  function ShrinkAll(ws: seq<nat>, budget: nat, total: nat): seq<nat> {
    seq(|ws|, i requires 0 <= i < |ws| => ShrunkOne(ws[i], budget, total))
  }

  function SumOfShares(ws: seq<nat>, budget: nat, total: nat): nat {
    if ws == [] then 0 else Share(ws[0], budget, total) + SumOfShares(ws[1..], budget, total)
  }

  lemma {:induction false} SharesWithinBudget(ws: seq<nat>, budget: nat, total: nat)
    requires total >= 1
    ensures total * SumOfShares(ws, budget, total) <= Sum(ws) * budget
  {
    if ws != [] {
      SharesWithinBudget(ws[1..], budget, total);
      var share, rest := Share(ws[0], budget, total), SumOfShares(ws[1..], budget, total);
      assert total * share <= ws[0] * budget;
      assert total * (share + rest) == total * share + total * rest;
      assert (ws[0] + Sum(ws[1..])) * budget == ws[0] * budget + Sum(ws[1..]) * budget;
    }
  }

  lemma {:induction false} ShrunkNearShares(ws: seq<nat>, budget: nat, total: nat)
    ensures Sum(ShrinkAll(ws, budget, total)) <= SumOfShares(ws, budget, total) + 5 * Raised(ws, budget, total)
  {
    var all := ShrinkAll(ws, budget, total);
    if ws != [] {
      ShrunkNearShares(ws[1..], budget, total);
      assert all[1..] == ShrinkAll(ws[1..], budget, total);
    }
  }

  lemma Cancel(total: nat, s: nat, budget: nat)
    requires total >= 1 && total * s <= total * budget
    ensures s <= budget
  {
    if s > budget {
      TimesMonotone(total, budget + 1, s);
      assert false;
    }
  }

  lemma TimesMonotone(total: nat, a: nat, b: nat)
    requires a <= b
    ensures total * a <= total * b
  {
  }

  /** How far a table may overshoot: 5 for every column whose share fell below the floor. */
  function Overshoot(ws: seq<nat>, budget: nat): nat {
    if Sum(ws) > budget then 5 * Raised(ws, budget, Sum(ws)) else 0
  }

  /** A shrunk table fits next to its borders, up to the overshoot; with no column below
      the floor, and borders that fit alone, it fits the terminal. */
  lemma ShrunkFits(ws: seq<nat>, screen: nat)
    ensures var n := |ws|;
            Sum(Shrunk(ws, Budget(n, screen))) + n + 1
            <= Max(MaxWidth(screen), n + 1) + Overshoot(ws, Budget(n, screen))
  {
    var total, budget := Sum(ws), Budget(|ws|, screen);
    if total > budget {
      SharesWithinBudget(ws, budget, total);
      ShrunkNearShares(ws, budget, total);
      Cancel(total, SumOfShares(ws, budget, total), budget);
      assert Shrunk(ws, budget) == ShrinkAll(ws, budget, total);
    }
  }

  // ---- Drawing ----

  function Repeated(n: nat, ch: char): Line {
    seq(n, _ => Chrome(ch))
  }

  function BorderFrom(ws: seq<nat>, mid: char, right: char): Line {
    if ws == [] then [Chrome(right), Chrome('\n')]
    else Repeated(ws[0], DASH) + (if |ws| > 1 then [Chrome(mid)] else []) + BorderFrom(ws[1..], mid, right)
  }

  function Border(ws: seq<nat>, left: char, mid: char, right: char): Line {
    [Chrome(left)] + BorderFrom(ws, mid, right)
  }

  /** The longest prefix of a cell that fits the budget. */
  function Visible(cw: CharWidth, cell: Line, budget: nat): (r: Line)
    ensures r <= cell
    ensures TextWidth(cw, r) <= budget
  {
    if cell == [] || GlyphWidth(cw, cell[0]) > budget then []
    else
      var r := Visible(cw, cell[1..], budget - GlyphWidth(cw, cell[0]));
      [cell[0]] + r
  }

  function CellText(cw: CharWidth, cell: Line, width: nat): Line {
    var w := SaturatingSub(width, 2);
    var cellW := TextWidth(cw, cell);
    [Chrome(' ')]
    + (if cellW <= w then cell + Repeated(w - cellW, ' ')
       else Visible(cw, cell, SaturatingSub(w, 1)) + [Chrome(ELLIPSIS)])
    + [Chrome(' ')]
  }

  function CellOf(row: Row, i: nat): Line {
    if i < |row| then row[i] else []
  }

  function RowPieces(cw: CharWidth, ws: seq<nat>, row: Row): (r: seq<Line>)
    ensures |r| == |ws|
  {
    seq(|ws|, i requires 0 <= i < |ws| => CellText(cw, CellOf(row, i), ws[i]) + [Chrome(BAR)])
  }

  function RowLine(cw: CharWidth, ws: seq<nat>, row: Row): Line {
    [Chrome(BAR)] + Flatten(RowPieces(cw, ws, row)) + [Chrome('\n')]
  }

  /** A row, and below the first one a rule. */
  function RowBlock(cw: CharWidth, ws: seq<nat>, row: Row, first: bool): Line {
    Styled(DimFace, RowLine(cw, ws, row))
    + (if first then Styled(DimFace, Border(ws, '\U{251C}', '\U{253C}', '\U{2524}')) else [])
  }

  function Blocks(cw: CharWidth, ws: seq<nat>, rows: seq<Row>): (r: seq<Line>)
    ensures |r| == |rows|
  {
    seq(|rows|, i requires 0 <= i < |rows| => RowBlock(cw, ws, rows[i], i == 0))
  }

  function Drawn(cw: CharWidth, rows: seq<Row>, ws: seq<nat>): Line {
    [Chrome('\n')]
    + Border(ws, '\U{250C}', '\U{252C}', '\U{2510}')
    + Flatten(Blocks(cw, ws, rows))
    + Styled(DimFace, Border(ws, '\U{2514}', '\U{2534}', '\U{2518}'))
    + [Chrome('\n')]
  }

  function Widths(cw: CharWidth, screen: nat, rows: seq<Row>, columns: nat): seq<nat> {
    var n := ColumnCount(rows, columns);
    Shrunk(MeasuredAll(cw, rows, n), Budget(n, screen))
  }

  /** The whole table; nothing when there is no row or no column. */
  function Table(cw: CharWidth, screen: nat, rows: seq<Row>, columns: nat): Line {
    if rows == [] || ColumnCount(rows, columns) == 0 then []
    else Drawn(cw, rows, Widths(cw, screen, rows, columns))
  }

  // ---- Alignment ----

  lemma {:induction false} BorderFromWidth(cw: CharWidth, ws: seq<nat>, mid: char, right: char)
    requires Terminal(cw) && mid in FRAME && right in FRAME
    ensures TextWidth(cw, BorderFrom(ws, mid, right)) == Sum(ws) + SaturatingSub(|ws|, 1) + 1
  {
    if ws == [] {
      assert [Chrome(right), Chrome('\n')][1..] == [Chrome('\n')];
      OneGlyphWidth(cw, Chrome('\n'));
    } else {
      BorderFromWidth(cw, ws[1..], mid, right);
      RepeatedWidth(cw, ws[0], DASH);
      var between := if |ws| > 1 then [Chrome(mid)] else [];
      assert between != [] ==> between[1..] == [];
      TextWidthAppend(cw, Repeated(ws[0], DASH), between);
      TextWidthAppend(cw, Repeated(ws[0], DASH) + between, BorderFrom(ws[1..], mid, right));
    }
  }

  /** A border line is as wide as its columns and the bars around them. */
  lemma BorderWidth(cw: CharWidth, ws: seq<nat>, left: char, mid: char, right: char)
    requires Terminal(cw) && {left, mid, right} <= FRAME && ws != []
    ensures TextWidth(cw, Border(ws, left, mid, right)) == Sum(ws) + |ws| + 1
  {
    assert left in {left, mid, right} && mid in {left, mid, right} && right in {left, mid, right};
    BorderFromWidth(cw, ws, mid, right);
    TextWidthAppend(cw, [Chrome(left)], BorderFrom(ws, mid, right));
    assert [Chrome(left)][1..] == [];
  }

  /** No longer prefix of the cell fits; what is missing to the budget is less than the
      first character left out. */
  lemma {:induction false} VisibleIsLongest(cw: CharWidth, cell: Line, budget: nat)
    ensures forall k :: |Visible(cw, cell, budget)| < k <= |cell| ==> TextWidth(cw, cell[..k]) > budget
    ensures var shown := Visible(cw, cell, budget);
            |shown| < |cell| ==> budget - TextWidth(cw, shown) < GlyphWidth(cw, cell[|shown|])
  {
    if cell != [] {
      var first := GlyphWidth(cw, cell[0]);
      if first <= budget {
        VisibleIsLongest(cw, cell[1..], budget - first);
        forall k | |Visible(cw, cell, budget)| < k <= |cell|
          ensures TextWidth(cw, cell[..k]) > budget
        {
          assert cell[..k][1..] == cell[1..][..k - 1];
        }
        var shown := Visible(cw, cell, budget);
        assert shown[1..] == Visible(cw, cell[1..], budget - first);
      } else {
        forall k | 0 < k <= |cell|
          ensures TextWidth(cw, cell[..k]) > budget
        {
          assert cell[..k][0] == cell[0];
        }
      }
    }
  }

  /** Blank columns left at the end of a cut cell. */
  function Missing(cw: CharWidth, cell: Line, width: nat): nat
    requires width >= 3
  {
    if TextWidth(cw, cell) <= width - 2 then 0
    else width - 3 - TextWidth(cw, Visible(cw, cell, width - 3))
  }

  lemma BlanksAround(cw: CharWidth, inner: Line)
    requires Terminal(cw)
    ensures TextWidth(cw, [Chrome(' ')] + inner + [Chrome(' ')]) == TextWidth(cw, inner) + 2
  {
    OneGlyphWidth(cw, Chrome(' '));
    TextWidthAppend(cw, [Chrome(' ')] + inner, [Chrome(' ')]);
    TextWidthAppend(cw, [Chrome(' ')], inner);
  }

  lemma CutIsShort(cw: CharWidth, cell: Line, budget: nat)
    requires Terminal(cw) && TextWidth(cw, cell) > budget
    ensures budget - TextWidth(cw, Visible(cw, cell, budget)) <= 1
    ensures (forall g :: g in cell ==> GlyphWidth(cw, g) <= 1) ==> budget == TextWidth(cw, Visible(cw, cell, budget))
  {
    var shown := Visible(cw, cell, budget);
    VisibleIsLongest(cw, cell, budget);
    assert shown == cell[..|shown|] && cell[..|cell|] == cell;
    assert GlyphWidth(cw, cell[|shown|]) <= 2;
  }

  lemma CellTextWidth(cw: CharWidth, cell: Line, width: nat)
    requires Terminal(cw) && width >= 3
    ensures TextWidth(cw, CellText(cw, cell, width)) == width - Missing(cw, cell, width)
    ensures Missing(cw, cell, width) <= 1
    ensures (forall g :: g in cell ==> GlyphWidth(cw, g) <= 1) ==> Missing(cw, cell, width) == 0
  {
    var cellW := TextWidth(cw, cell);
    if cellW <= width - 2 {
      var pad := width - 2 - cellW;
      BlanksAround(cw, cell + Repeated(pad, ' '));
      TextWidthAppend(cw, cell, Repeated(pad, ' '));
      RepeatedWidth(cw, pad, ' ');
    } else {
      var shown := Visible(cw, cell, width - 3);
      BlanksAround(cw, shown + [Chrome(ELLIPSIS)]);
      TextWidthAppend(cw, shown, [Chrome(ELLIPSIS)]);
      OneGlyphWidth(cw, Chrome(ELLIPSIS));
      CutIsShort(cw, cell, width - 3);
    }
  }

  function AllMissing(cw: CharWidth, ws: seq<nat>, row: Row, i: nat): nat
    requires i <= |ws| && forall k :: 0 <= k < |ws| ==> ws[k] >= 3
    decreases |ws| - i
  {
    if i == |ws| then 0 else Missing(cw, CellOf(row, i), ws[i]) + AllMissing(cw, ws, row, i + 1)
  }

  lemma {:induction false} RowPiecesWidth(cw: CharWidth, ws: seq<nat>, row: Row, i: nat)
    requires Terminal(cw) && i <= |ws| && forall k :: 0 <= k < |ws| ==> ws[k] >= 3
    ensures TextWidth(cw, Flatten(RowPieces(cw, ws, row)[i..])) == Sum(ws[i..]) + |ws| - i - AllMissing(cw, ws, row, i)
    decreases |ws| - i
  {
    var pieces := RowPieces(cw, ws, row);
    if i == |ws| {
      assert pieces[i..] == [] && ws[i..] == [];
    } else {
      assert pieces[i..][1..] == pieces[i + 1..] && ws[i..][1..] == ws[i + 1..];
      CellTextWidth(cw, CellOf(row, i), ws[i]);
      OneGlyphWidth(cw, Chrome(BAR));
      RowPiecesWidth(cw, ws, row, i + 1);
      TextWidthAppend(cw, pieces[i], Flatten(pieces[i + 1..]));
      TextWidthAppend(cw, CellText(cw, CellOf(row, i), ws[i]), [Chrome(BAR)]);
    }
  }

  /** A row, sparse or cut, is exactly as wide as the border less what its cut cells miss. */
  lemma RowWidth(cw: CharWidth, ws: seq<nat>, row: Row)
    requires Terminal(cw) && ws != [] && forall k :: 0 <= k < |ws| ==> ws[k] >= 3
    ensures TextWidth(cw, RowLine(cw, ws, row)) == Sum(ws) + |ws| + 1 - AllMissing(cw, ws, row, 0)
  {
    var pieces := RowPieces(cw, ws, row);
    RowPiecesWidth(cw, ws, row, 0);
    assert ws[0..] == ws && pieces[0..] == pieces;
    OneGlyphWidth(cw, Chrome(BAR));
    OneGlyphWidth(cw, Chrome('\n'));
    TextWidthAppend(cw, [Chrome(BAR)] + Flatten(pieces), [Chrome('\n')]);
    TextWidthAppend(cw, [Chrome(BAR)], Flatten(pieces));
  }

  lemma {:induction false} NarrowMissesNothing(cw: CharWidth, ws: seq<nat>, row: Row, i: nat)
    requires Terminal(cw) && i <= |ws| && forall k :: 0 <= k < |ws| ==> ws[k] >= 3
    requires forall k, g :: 0 <= k < |row| && g in row[k] ==> GlyphWidth(cw, g) <= 1
    ensures AllMissing(cw, ws, row, i) == 0
    decreases |ws| - i
  {
    if i < |ws| {
      CellTextWidth(cw, CellOf(row, i), ws[i]);
      NarrowMissesNothing(cw, ws, row, i + 1);
    }
  }

  /** Every line of a drawn table: no row sticks out of the frame, rows of characters at
      most one column wide end exactly at the frame, and the frame fits the terminal up to
      the overshoot of the columns held at the floor. */
  lemma TableAligned(cw: CharWidth, screen: nat, rows: seq<Row>, columns: nat, row: Row)
    requires Terminal(cw) && ColumnCount(rows, columns) > 0
    ensures var ws := Widths(cw, screen, rows, columns);
            var n := ColumnCount(rows, columns);
            var frame := TextWidth(cw, Border(ws, '\U{250C}', '\U{252C}', '\U{2510}'));
            && TextWidth(cw, RowLine(cw, ws, row)) <= frame
            && ((forall k, g :: 0 <= k < |row| && g in row[k] ==> GlyphWidth(cw, g) <= 1)
                ==> TextWidth(cw, RowLine(cw, ws, row)) == frame)
            && frame <= Max(MaxWidth(screen), n + 1) + Overshoot(MeasuredAll(cw, rows, n), Budget(n, screen))
  {
    var n := ColumnCount(rows, columns);
    var ws := Widths(cw, screen, rows, columns);
    BorderWidth(cw, ws, '\U{250C}', '\U{252C}', '\U{2510}');
    RowWidth(cw, ws, row);
    ShrunkFits(MeasuredAll(cw, rows, n), screen);
    if forall k, g :: 0 <= k < |row| && g in row[k] ==> GlyphWidth(cw, g) <= 1 {
      NarrowMissesNothing(cw, ws, row, 0);
    }
  }

  // ---- The frame, in numbers ----

  lemma {:induction false} RaisedSnoc(ws: seq<nat>, last: nat, budget: nat, total: nat)
    ensures Raised(ws + [last], budget, total)
         == Raised(ws, budget, total) + (if Share(last, budget, total) < 5 then 1 else 0)
  {
    if ws == [] {
      assert (ws + [last])[1..] == [];
    } else {
      assert (ws + [last])[1..] == ws[1..] + [last];
      RaisedSnoc(ws[1..], last, budget, total);
    }
  }

  /** The proportional shares, as numbers. */
  ghost predicate SharesAre(ws: seq<nat>, room: nat, total: nat, shares: seq<nat>) {
    |shares| == |ws| && forall i :: 0 <= i < |ws| ==> Share(ws[i], room, total) == shares[i]
  }

  lemma {:induction false} RaisedCounts(ws: seq<nat>, room: nat, total: nat, shares: seq<nat>)
    requires SharesAre(ws, room, total, shares)
    ensures Raised(ws, room, total) == |set i | 0 <= i < |ws| && shares[i] < 5|
  {
    var raised := set i | 0 <= i < |ws| && shares[i] < 5;
    if ws == [] {
      assert raised == {};
    } else {
      var front, n := ws[..|ws| - 1], |ws| - 1;
      var fewer := set i | 0 <= i < |front| && shares[..n][i] < 5;
      RaisedCounts(front, room, total, shares[..n]);
      RaisedSnoc(front, ws[n], room, total);
      assert ws == front + [ws[n]];
      assert raised == if shares[n] < 5 then fewer + {n} else fewer;
    }
  }

  lemma {:induction false} SumPositive(ws: seq<nat>)
    requires ws != [] && forall i :: 0 <= i < |ws| ==> ws[i] >= 3
    ensures Sum(ws) > 0
  {
  }

  lemma MeasuredPositive(cw: CharWidth, rows: seq<Row>, n: nat)
    requires n > 0
    ensures Sum(MeasuredAll(cw, rows, n)) > 0
  {
    SumPositive(MeasuredAll(cw, rows, n));
  }

  lemma RoomWritten(n: nat, screen: nat, limit: nat)
    requires limit == if screen < 1 then 1 else if screen > 72 then 72 else screen
    ensures Budget(n, screen) == if limit > n + 1 then limit - (n + 1) else 0
    ensures Max(MaxWidth(screen), n + 1) == if limit > n + 1 then limit else n + 1
  {
  }

  /** A column's width out of its measure and its share. */
  function Portion(measured: nat, share: nat): nat {
    if share < 5 then (if measured < 5 then measured else 5)
    else if share < measured then share else measured
  }

  lemma SharedOut(ws: seq<nat>, room: nat, shares: seq<nat>)
    requires Sum(ws) > room && SharesAre(ws, room, Sum(ws), shares)
    ensures forall i :: 0 <= i < |ws| ==> Shrunk(ws, room)[i] == Portion(ws[i], shares[i])
    ensures Sum(Shrunk(ws, room)) <= room + 5 * |set i | 0 <= i < |ws| && shares[i] < 5|
  {
    var total := Sum(ws);
    SharesWithinBudget(ws, room, total);
    ShrunkNearShares(ws, room, total);
    Cancel(total, SumOfShares(ws, room, total), room);
    assert Shrunk(ws, room) == ShrinkAll(ws, room, total);
    RaisedCounts(ws, room, total, shares);
  }

  /** The room divided in proportion to the measures, rounded down. */
  function Proportions(ws: seq<nat>, room: nat): (r: seq<nat>)
    requires Sum(ws) > 0
    ensures |r| == |ws|
  {
    seq(|ws|, i requires 0 <= i < |ws| => ws[i] * room / Sum(ws))
  }

  lemma SharesWritten(ws: seq<nat>, room: nat)
    requires Sum(ws) > 0
    ensures SharesAre(ws, room, Sum(ws), Proportions(ws, room))
  {
  }

  /** Columns that fit the room keep their measure; otherwise each gets its share, but not less
      than 5 and not more than it needs. */
  ghost predicate Divided(measured: seq<nat>, ws: seq<nat>, room: nat)
    requires Sum(measured) > 0
  {
    if Sum(measured) <= room then ws == measured
    else |ws| == |measured| && forall i :: 0 <= i < |ws| ==> ws[i] == Portion(measured[i], Proportions(measured, room)[i])
  }

  /** How many shares are below 5. */
  function Slim(shares: seq<nat>): nat {
    |set i | 0 <= i < |shares| && shares[i] < 5|
  }

  lemma DividedUp(measured: seq<nat>, room: nat)
    requires Sum(measured) > 0
    ensures Divided(measured, Shrunk(measured, room), room)
    ensures Sum(Shrunk(measured, room)) <= room + if Sum(measured) <= room then 0 else 5 * Slim(Proportions(measured, room))
  {
    if Sum(measured) > room {
      SharesWritten(measured, room);
      SharedOut(measured, room, Proportions(measured, room));
    }
  }

  /** The limit is the screen's width, at least 1 and at most 72, and the room is what the
      borders leave of it.  The columns divide the room, and the frame is within the limit, or as
      wide as its borders alone, but for 5 columns for each share below 5. */
  lemma FrameFits(cw: CharWidth, screen: nat, rows: seq<Row>, columns: nat, limit: nat, room: nat)
    requires Terminal(cw) && ColumnCount(rows, columns) > 0
    requires limit == if screen < 1 then 1 else if screen > 72 then 72 else screen
    requires var n := ColumnCount(rows, columns); room == if limit > n + 1 then limit - (n + 1) else 0
    ensures var n := ColumnCount(rows, columns);
            var measured, ws := MeasuredAll(cw, rows, n), Widths(cw, screen, rows, columns);
            var frame := TextWidth(cw, Border(ws, '\U{250C}', '\U{252C}', '\U{2510}'));
            && Sum(measured) > 0 && Divided(measured, ws, room)
            && frame <= (if limit > n + 1 then limit else n + 1)
                        + (if Sum(measured) <= room then 0 else 5 * Slim(Proportions(measured, room)))
  {
    var n := ColumnCount(rows, columns);
    MeasuredPositive(cw, rows, n);
    RoomWritten(n, screen, limit);
    DividedUp(MeasuredAll(cw, rows, n), room);
    BorderWidth(cw, Widths(cw, screen, rows, columns), '\U{250C}', '\U{252C}', '\U{2510}');
  }

  // ---- What a table shows ----

  /** The part of a cell that its column shows, */
  function Shown(cw: CharWidth, cell: Line, width: nat): (r: Line)
    ensures r <= cell
  {
    var w := SaturatingSub(width, 2);
    if TextWidth(cw, cell) <= w then cell else Visible(cw, cell, SaturatingSub(w, 1))
  }

  /** and the part it cuts off. */
  function CutOff(cw: CharWidth, cell: Line, width: nat): Line {
    cell[|Shown(cw, cell, width)|..]
  }

  function ShownRow(cw: CharWidth, ws: seq<nat>, row: Row): (r: Row)
    requires |row| <= |ws|
    ensures |r| == |row|
  {
    seq(|row|, i requires 0 <= i < |row| => Shown(cw, row[i], ws[i]))
  }

  predicate Covers(ws: seq<nat>, rows: seq<Row>) {
    forall k :: 0 <= k < |rows| ==> |rows[k]| <= |ws|
  }

  function ShownRows(cw: CharWidth, ws: seq<nat>, rows: seq<Row>): (r: seq<Row>)
    requires Covers(ws, rows)
    ensures |r| == |rows|
  {
    seq(|rows|, k requires 0 <= k < |rows| => ShownRow(cw, ws, rows[k]))
  }

  lemma KeepCellText(cw: CharWidth, cell: Line, width: nat, labels: bool)
    ensures Keep(CellText(cw, cell, width), labels) == Keep(Shown(cw, cell, width), labels)
  {
    var w := SaturatingSub(width, 2);
    var shown := Shown(cw, cell, width);
    var after := if TextWidth(cw, cell) <= w then Repeated(w - TextWidth(cw, cell), ' ') else [Chrome(ELLIPSIS)];
    KeepNothing([Chrome(' ')], labels);
    KeepNothing(after, labels);
    KeepAppend(shown, after, labels);
    KeepAppend3([Chrome(' ')], shown + after, [Chrome(' ')], labels);
  }

  /** The cells a row has in each column, empty ones included. */
  function CellsOf(ws: seq<nat>, row: Row): (r: seq<Line>)
    ensures |r| == |ws|
  {
    seq(|ws|, i requires 0 <= i < |ws| => CellOf(row, i))
  }

  lemma FlattenCells(ws: seq<nat>, row: Row)
    requires |row| <= |ws|
    ensures Flatten(CellsOf(ws, row)) == Flatten(row)
  {
    var cells := CellsOf(ws, row);
    assert cells[..|row|] == row && cells == cells[..|row|] + cells[|row|..];
    FlattenAppend(cells[..|row|], cells[|row|..]);
    NoCells(cells[|row|..]);
  }

  lemma KeepRowLine(cw: CharWidth, ws: seq<nat>, row: Row, labels: bool)
    requires |row| <= |ws|
    ensures Keep(RowLine(cw, ws, row), labels) == Keep(Flatten(ShownRow(cw, ws, row)), labels)
  {
    var pieces, shown := RowPieces(cw, ws, row), ShownRow(cw, ws, row);
    KeepNothing([Chrome(BAR)], labels);
    KeepNothing([Chrome('\n')], labels);
    forall i | 0 <= i < |ws|
      ensures Keep(pieces[i], labels) == Keep(CellsOf(ws, shown)[i], labels)
    {
      KeepCellText(cw, CellOf(row, i), ws[i], labels);
      KeepAppend(CellText(cw, CellOf(row, i), ws[i]), [Chrome(BAR)], labels);
      assert Shown(cw, CellOf(row, i), ws[i]) == CellOf(shown, i);
    }
    KeepPieces(pieces, CellsOf(ws, shown), labels);
    FlattenCells(ws, shown);
    KeepAppend3([Chrome(BAR)], Flatten(pieces), [Chrome('\n')], labels);
  }

  /** The text of a row, cell after cell. */
  function RowTexts(rows: seq<Row>): (r: seq<Line>)
    ensures |r| == |rows|
  {
    seq(|rows|, i requires 0 <= i < |rows| => Flatten(rows[i]))
  }

  lemma {:induction false} KeepBorder(ws: seq<nat>, mid: char, right: char, labels: bool)
    ensures Keep(BorderFrom(ws, mid, right), labels) == []
  {
    if ws == [] {
      KeepNothing([Chrome(right), Chrome('\n')], labels);
    } else {
      var between := if |ws| > 1 then [Chrome(mid)] else [];
      KeepBorder(ws[1..], mid, right, labels);
      KeepNothing(Repeated(ws[0], DASH), labels);
      KeepNothing(between, labels);
      KeepAppend3(Repeated(ws[0], DASH), between, BorderFrom(ws[1..], mid, right), labels);
    }
  }

  lemma KeepStyledBorder(ws: seq<nat>, left: char, mid: char, right: char, labels: bool)
    ensures Keep(Border(ws, left, mid, right), labels) == []
    ensures Keep(Styled(DimFace, Border(ws, left, mid, right)), labels) == []
  {
    KeepBorder(ws, mid, right, labels);
    KeepNothing([Chrome(left)], labels);
    KeepAppend([Chrome(left)], BorderFrom(ws, mid, right), labels);
    KeepStyled(DimFace, Border(ws, left, mid, right), labels);
  }

  lemma KeepRowBlock(cw: CharWidth, ws: seq<nat>, row: Row, first: bool, labels: bool)
    requires |row| <= |ws|
    ensures Keep(RowBlock(cw, ws, row, first), labels) == Keep(Flatten(ShownRow(cw, ws, row)), labels)
  {
    var line := RowLine(cw, ws, row);
    KeepRowLine(cw, ws, row, labels);
    KeepStyled(DimFace, line, labels);
    KeepStyledBorder(ws, '\U{251C}', '\U{253C}', '\U{2524}', labels);
    if first {
      KeepAppend(Styled(DimFace, line), Styled(DimFace, Border(ws, '\U{251C}', '\U{253C}', '\U{2524}')), labels);
    } else {
      assert RowBlock(cw, ws, row, first) == Styled(DimFace, line);
    }
  }

  lemma KeepBody(cw: CharWidth, ws: seq<nat>, rows: seq<Row>, labels: bool)
    requires Covers(ws, rows)
    ensures Keep(Flatten(Blocks(cw, ws, rows)), labels) == Keep(Flatten(RowTexts(ShownRows(cw, ws, rows))), labels)
  {
    var texts := RowTexts(ShownRows(cw, ws, rows));
    forall i | 0 <= i < |rows|
      ensures Keep(Blocks(cw, ws, rows)[i], labels) == Keep(texts[i], labels)
    {
      KeepRowBlock(cw, ws, rows[i], i == 0, labels);
    }
    KeepPieces(Blocks(cw, ws, rows), texts, labels);
  }

  lemma WidthsCover(cw: CharWidth, screen: nat, rows: seq<Row>, columns: nat)
    ensures Covers(Widths(cw, screen, rows, columns), rows)
  {
  }

  /** A table shows of its rows just what each column shows of its cell, in order. */
  lemma TableKeepsRows(cw: CharWidth, screen: nat, rows: seq<Row>, columns: nat, labels: bool)
    ensures var ws := Widths(cw, screen, rows, columns);
            && Covers(ws, rows)
            && Keep(Table(cw, screen, rows, columns), labels) == Keep(Flatten(RowTexts(ShownRows(cw, ws, rows))), labels)
  {
    var ws := Widths(cw, screen, rows, columns);
    WidthsCover(cw, screen, rows, columns);
    if rows == [] {
    } else if ColumnCount(rows, columns) == 0 {
      NoCells(RowTexts(ShownRows(cw, ws, rows)));
    } else {
      KeepDrawn(cw, rows, ws, labels);
    }
  }

  lemma KeepDrawn(cw: CharWidth, rows: seq<Row>, ws: seq<nat>, labels: bool)
    requires Covers(ws, rows)
    ensures Keep(Drawn(cw, rows, ws), labels) == Keep(Flatten(RowTexts(ShownRows(cw, ws, rows))), labels)
  {
    var top := [Chrome('\n')] + Border(ws, '\U{250C}', '\U{252C}', '\U{2510}');
    var body := Flatten(Blocks(cw, ws, rows));
    var bottom := Styled(DimFace, Border(ws, '\U{2514}', '\U{2534}', '\U{2518}'));
    KeepNothing([Chrome('\n')], labels);
    KeepStyledBorder(ws, '\U{250C}', '\U{252C}', '\U{2510}', labels);
    KeepStyledBorder(ws, '\U{2514}', '\U{2534}', '\U{2518}', labels);
    KeepAppend([Chrome('\n')], Border(ws, '\U{250C}', '\U{252C}', '\U{2510}'), labels);
    KeepBody(cw, ws, rows, labels);
    KeepAppend3(top, body, bottom, labels);
    KeepAppend(top + body + bottom, [Chrome('\n')], labels);
  }

  // ---- What a table cuts off ----

  /** The length of a text up to its last letter, that letter included. */
  function LastKept(cell: Line, labels: bool): (n: nat)
    ensures n <= |cell|
  {
    if cell == [] then 0
    else if Kept(cell[|cell| - 1], labels) then |cell|
    else LastKept(cell[..|cell| - 1], labels)
  }

  lemma KeepOne(g: Glyph, labels: bool)
    ensures Keep([g], labels) == if Kept(g, labels) then [g] else []
  {
    assert [g][1..] == [];
  }

  lemma {:induction false} NothingKeptIff(cell: Line, n: nat, labels: bool)
    requires n <= |cell|
    ensures Keep(cell[n..], labels) == [] <==> LastKept(cell, labels) <= n
  {
    if n < |cell| {
      var last := cell[|cell| - 1];
      assert cell[n..] == cell[..|cell| - 1][n..] + [last];
      KeepAppend(cell[..|cell| - 1][n..], [last], labels);
      KeepOne(last, labels);
      NothingKeptIff(cell[..|cell| - 1], n, labels);
    }
  }

  /** The cell fits between the blanks of its column, or its letters fit before the ellipsis. */
  predicate Fits(cw: CharWidth, cell: Line, width: nat, labels: bool) {
    || TextWidth(cw, cell) <= SaturatingSub(width, 2)
    || TextWidth(cw, cell[..LastKept(cell, labels)]) <= SaturatingSub(width, 3)
  }

  lemma PrefixIsNarrower(cw: CharWidth, cell: Line, m: nat, n: nat)
    requires m <= n <= |cell|
    ensures TextWidth(cw, cell[..m]) <= TextWidth(cw, cell[..n])
  {
    assert cell[..n] == cell[..m] + cell[m..n];
    TextWidthAppend(cw, cell[..m], cell[m..n]);
  }

  lemma VisibleReaches(cw: CharWidth, cell: Line, budget: nat, n: nat)
    requires n <= |cell|
    ensures n <= |Visible(cw, cell, budget)| <==> TextWidth(cw, cell[..n]) <= budget
  {
    var shown := Visible(cw, cell, budget);
    VisibleIsLongest(cw, cell, budget);
    if n <= |shown| {
      PrefixIsNarrower(cw, cell, n, |shown|);
      assert cell[..|shown|] == shown;
    }
  }

  /** A cell loses no letter exactly if it fits. */
  lemma FitsIff(cw: CharWidth, cell: Line, width: nat, labels: bool)
    ensures Keep(CutOff(cw, cell, width), labels) == [] <==> Fits(cw, cell, width, labels)
  {
    var n := LastKept(cell, labels);
    NothingKeptIff(cell, |Shown(cw, cell, width)|, labels);
    VisibleReaches(cw, cell, SaturatingSub(width, 3), n);
    assert SaturatingSub(SaturatingSub(width, 2), 1) == SaturatingSub(width, 3);
  }

  /** Every cell fits its column. */
  ghost predicate AllFit(cw: CharWidth, ws: seq<nat>, rows: seq<Row>, labels: bool)
    requires Covers(ws, rows)
  {
    forall k, i :: 0 <= k < |rows| && 0 <= i < |rows[k]| ==> Fits(cw, rows[k][i], ws[i], labels)
  }

  /** In a table that need not be shrunk every cell fits. */
  lemma UnshrunkFits(cw: CharWidth, screen: nat, rows: seq<Row>, columns: nat, labels: bool)
    requires var n := ColumnCount(rows, columns); Sum(MeasuredAll(cw, rows, n)) <= Budget(n, screen)
    ensures AllFit(cw, Widths(cw, screen, rows, columns), rows, labels)
  {
  }

  lemma KeepShown(cw: CharWidth, cell: Line, width: nat, labels: bool)
    ensures |Keep(cell, labels)| == |Keep(Shown(cw, cell, width), labels)| + |Keep(CutOff(cw, cell, width), labels)|
  {
    var shown := Shown(cw, cell, width);
    assert cell == shown + cell[|shown|..];
    KeepAppend(shown, cell[|shown|..], labels);
  }

  /** Pieces that lose something here and there lose something in all. */
  lemma {:induction false} KeepFewer(a: seq<Line>, b: seq<Line>, labels: bool)
    requires |a| == |b| && forall i :: 0 <= i < |a| ==> |Keep(b[i], labels)| <= |Keep(a[i], labels)|
    ensures |Keep(Flatten(b), labels)| <= |Keep(Flatten(a), labels)|
    ensures |Keep(Flatten(b), labels)| == |Keep(Flatten(a), labels)|
            <==> forall i :: 0 <= i < |a| ==> |Keep(b[i], labels)| == |Keep(a[i], labels)|
  {
    if a != [] {
      KeepFewer(a[1..], b[1..], labels);
      KeepAppend(a[0], Flatten(a[1..]), labels);
      KeepAppend(b[0], Flatten(b[1..]), labels);
      assert forall i :: 0 < i < |a| ==> a[i] == a[1..][i - 1] && b[i] == b[1..][i - 1];
    }
  }

  lemma RowCut(cw: CharWidth, ws: seq<nat>, row: Row, labels: bool)
    requires |row| <= |ws|
    ensures |Keep(Flatten(ShownRow(cw, ws, row)), labels)| <= |Keep(Flatten(row), labels)|
    ensures |Keep(Flatten(ShownRow(cw, ws, row)), labels)| == |Keep(Flatten(row), labels)|
            <==> forall i :: 0 <= i < |row| ==> Fits(cw, row[i], ws[i], labels)
  {
    var shown := ShownRow(cw, ws, row);
    forall i | 0 <= i < |row|
      ensures |Keep(shown[i], labels)| <= |Keep(row[i], labels)|
      ensures |Keep(shown[i], labels)| == |Keep(row[i], labels)| <==> Fits(cw, row[i], ws[i], labels)
    {
      KeepShown(cw, row[i], ws[i], labels);
      FitsIff(cw, row[i], ws[i], labels);
    }
    KeepFewer(row, shown, labels);
  }

  /** A table never shows more letters than its rows have, and as many exactly if every
      cell fits its column. */
  lemma TableShowsAllIff(cw: CharWidth, screen: nat, rows: seq<Row>, columns: nat, labels: bool)
    ensures var ws := Widths(cw, screen, rows, columns);
            var shown, all := Keep(Table(cw, screen, rows, columns), labels), Keep(Flatten(RowTexts(rows)), labels);
            && Covers(ws, rows) && |shown| <= |all|
            && (|shown| == |all| <==> AllFit(cw, ws, rows, labels))
            && (AllFit(cw, ws, rows, labels) ==> shown == all)
  {
    var ws := Widths(cw, screen, rows, columns);
    TableKeepsRows(cw, screen, rows, columns, labels);
    var shown := RowTexts(ShownRows(cw, ws, rows));
    forall k | 0 <= k < |rows|
      ensures |Keep(shown[k], labels)| <= |Keep(RowTexts(rows)[k], labels)|
      ensures |Keep(shown[k], labels)| == |Keep(RowTexts(rows)[k], labels)|
              <==> forall i :: 0 <= i < |rows[k]| ==> Fits(cw, rows[k][i], ws[i], labels)
    {
      RowCut(cw, ws, rows[k], labels);
    }
    KeepFewer(RowTexts(rows), shown, labels);
    if AllFit(cw, ws, rows, labels) {
      FittingShowsAll(cw, ws, rows, labels);
    }
  }

  lemma FittingShowsAll(cw: CharWidth, ws: seq<nat>, rows: seq<Row>, labels: bool)
    requires Covers(ws, rows) && AllFit(cw, ws, rows, labels)
    ensures Keep(Flatten(RowTexts(ShownRows(cw, ws, rows))), labels) == Keep(Flatten(RowTexts(rows)), labels)
  {
    forall k | 0 <= k < |rows|
      ensures Keep(Flatten(ShownRow(cw, ws, rows[k])), labels) == Keep(Flatten(rows[k]), labels)
    {
      forall i | 0 <= i < |rows[k]|
        ensures Keep(Shown(cw, rows[k][i], ws[i]), labels) == Keep(rows[k][i], labels)
      {
        var cell := rows[k][i];
        var shown := Shown(cw, cell, ws[i]);
        assert cell == shown + CutOff(cw, cell, ws[i]);
        KeepAppend(shown, CutOff(cw, cell, ws[i]), labels);
        FitsIff(cw, cell, ws[i], labels);
      }
      KeepPieces(ShownRow(cw, ws, rows[k]), rows[k], labels);
    }
    KeepPieces(RowTexts(ShownRows(cw, ws, rows)), RowTexts(rows), labels);
  }

  lemma {:induction false} NoCells(texts: seq<Line>)
    requires forall k :: 0 <= k < |texts| ==> texts[k] == []
    ensures Flatten(texts) == []
  {
    if texts != [] {
      NoCells(texts[1..]);
    }
  }

  lemma OneColumn(cw: CharWidth, cell: Line)
    requires TextWidth(cw, cell) >= 1
    ensures ColumnCount([[cell]], 1) == 1 && MeasuredAll(cw, [[cell]], 1) == [TextWidth(cw, cell) + 2]
  {
    assert [[cell]][..0] == [];
  }

  /** A cell of eighty columns is cut on every screen. */
  lemma LongCellIsCut(cw: CharWidth, screen: nat, cell: Line, labels: bool)
    requires TextWidth(cw, cell) == 80 && LastKept(cell, labels) == |cell|
    ensures var ws := Widths(cw, screen, [[cell]], 1);
            |ws| == 1 && ws[0] <= 70 && !Fits(cw, cell, ws[0], labels)
  {
    OneColumn(cw, cell);
    assert [82][1..] == [] && Sum([82]) == 82;
    assert Share(82, Budget(1, screen), 82) == Budget(1, screen);
    assert cell[..|cell|] == cell;
  }

  // ---- The methods that draw ----

  lemma MeasuredNext(cw: CharWidth, rows: seq<Row>, k: nat, i: nat)
    requires k < |rows|
    ensures Measured(cw, rows[..k + 1], i)
            == if i < |rows[k]| then Max(Measured(cw, rows[..k], i), TextWidth(cw, rows[k][i]) + 2)
               else Measured(cw, rows[..k], i)
  {
    assert rows[..k + 1][..k] == rows[..k];
  }

  method MeasureRow(cw: CharWidth, row: Row, widths: array<nat>)
    requires |row| <= widths.Length
    modifies widths
    ensures forall i :: 0 <= i < |row| ==> widths[i] == Max(old(widths[i]), TextWidth(cw, row[i]) + 2)
    ensures forall i :: |row| <= i < widths.Length ==> widths[i] == old(widths[i])
  {
    var i := 0;
    while i < |row|
      invariant i <= |row|
      invariant forall j :: 0 <= j < i ==> widths[j] == Max(old(widths[j]), TextWidth(cw, row[j]) + 2)
      invariant forall j :: i <= j < widths.Length ==> widths[j] == old(widths[j])
    {
      widths[i] := Max(widths[i], TextWidth(cw, row[i]) + 2);
      i := i + 1;
    }
  }

  method MeasureColumns(cw: CharWidth, rows: seq<Row>, widths: array<nat>)
    requires forall k :: 0 <= k < |rows| ==> |rows[k]| <= widths.Length
    requires forall i :: 0 <= i < widths.Length ==> widths[i] == 3
    modifies widths
    ensures widths[..] == MeasuredAll(cw, rows, widths.Length)
  {
    var k := 0;
    while k < |rows|
      invariant k <= |rows|
      invariant forall i :: 0 <= i < widths.Length ==> widths[i] == Measured(cw, rows[..k], i)
    {
      MeasureRow(cw, rows[k], widths);
      forall i | 0 <= i < widths.Length
        ensures widths[i] == Measured(cw, rows[..k + 1], i)
      {
        MeasuredNext(cw, rows, k, i);
      }
      k := k + 1;
    }
    assert rows[..k] == rows;
  }

  method ShrinkColumns(widths: array<nat>, budget: nat)
    modifies widths
    ensures widths[..] == Shrunk(old(widths[..]), budget)
  {
    ghost var ws := widths[..];
    var total := 0;
    var k := 0;
    while k < widths.Length
      invariant k <= widths.Length
      invariant widths[..] == ws
      invariant total + Sum(ws[k..]) == Sum(ws)
    {
      total := total + widths[k];
      k := k + 1;
    }
    assert ws[k..] == [];
    if total > budget {
      k := 0;
      while k < widths.Length
        invariant k <= widths.Length
        invariant forall i :: 0 <= i < k ==> widths[i] == ShrunkOne(ws[i], budget, total)
        invariant forall i :: k <= i < widths.Length ==> widths[i] == ws[i]
      {
        widths[k] := Min(Max(widths[k] * budget / Max(total, 1), 5), widths[k]);
        k := k + 1;
      }
    }
  }

  method DrawBorder(ws: seq<nat>, left: char, mid: char, right: char) returns (s: Line)
    ensures s == Border(ws, left, mid, right)
  {
    s := [Chrome(left)];
    var i := 0;
    while i < |ws|
      invariant i <= |ws|
      invariant s + BorderFrom(ws[i..], mid, right) == Border(ws, left, mid, right)
    {
      assert ws[i..][1..] == ws[i + 1..];
      s := s + Repeated(ws[i], DASH);
      if i + 1 < |ws| {
        s := s + [Chrome(mid)];
      }
      i := i + 1;
    }
    s := s + [Chrome(right)] + [Chrome('\n')];
  }

  method CutCell(cw: CharWidth, cell: Line, budget: nat) returns (visible: Line)
    ensures visible == Visible(cw, cell, budget)
  {
    visible := [];
    var visibleW := 0;
    var chars := cell;
    while chars != []
      invariant visibleW <= budget
      invariant visible + Visible(cw, chars, budget - visibleW) == Visible(cw, cell, budget)
    {
      var chW := GlyphWidth(cw, chars[0]);
      if visibleW + chW > budget {
        break;
      }
      Associate(visible, [chars[0]], Visible(cw, chars[1..], budget - visibleW - chW));
      visible := visible + [chars[0]];
      visibleW := visibleW + chW;
      chars := chars[1..];
    }
  }

  method DrawCell(cw: CharWidth, cell: Line, width: nat) returns (s: Line)
    ensures s == CellText(cw, cell, width)
  {
    var w := SaturatingSub(width, 2);
    var cellW := TextWidth(cw, cell);
    if cellW <= w {
      var pad := w - cellW;
      s := [Chrome(' ')] + (cell + Repeated(pad, ' '));
    } else {
      var visible := CutCell(cw, cell, SaturatingSub(w, 1));
      s := [Chrome(' ')] + (visible + [Chrome(ELLIPSIS)]);
    }
    s := s + [Chrome(' ')];
  }

  method DrawRow(cw: CharWidth, ws: seq<nat>, row: Row) returns (s: Line)
    ensures s == RowLine(cw, ws, row)
  {
    ghost var pieces := RowPieces(cw, ws, row);
    s := [Chrome(BAR)];
    var i := 0;
    while i < |ws|
      invariant i <= |ws|
      invariant s == [Chrome(BAR)] + Flatten(pieces[..i])
    {
      var text := DrawCell(cw, CellOf(row, i), ws[i]);
      s := s + (text + [Chrome(BAR)]);
      FlattenNext([Chrome(BAR)], pieces, i);
      i := i + 1;
    }
    assert pieces[..i] == pieces;
    s := s + [Chrome('\n')];
  }

  method DrawBlock(cw: CharWidth, ws: seq<nat>, row: Row, first: bool) returns (s: Line)
    ensures s == RowBlock(cw, ws, row, first)
  {
    var line := DrawRow(cw, ws, row);
    s := Styled(DimFace, line);
    if first {
      var rule := DrawBorder(ws, '\U{251C}', '\U{253C}', '\U{2524}');
      s := s + Styled(DimFace, rule);
    }
  }

  method DrawBody(cw: CharWidth, ws: seq<nat>, rows: seq<Row>, head: Line) returns (out: Line)
    ensures out == head + Flatten(Blocks(cw, ws, rows))
  {
    out := head;
    var i := 0;
    ghost var blocks := Blocks(cw, ws, rows);
    while i < |rows|
      invariant i <= |rows|
      invariant out == head + Flatten(blocks[..i])
    {
      var block := DrawBlock(cw, ws, rows[i], i == 0);
      out := out + block;
      FlattenNext(head, blocks, i);
      i := i + 1;
    }
    assert blocks[..i] == blocks;
  }

  method ColumnWidths(cw: CharWidth, screen: nat, rows: seq<Row>, columns: nat) returns (ws: seq<nat>)
    ensures ws == Widths(cw, screen, rows, columns)
  {
    var n := ColumnCount(rows, columns);
    var widths := new nat[n](_ => 3);
    MeasureColumns(cw, rows, widths);
    ShrinkColumns(widths, SaturatingSub(MaxWidth(screen), n + 1));
    ws := widths[..];
  }

  method DrawTable(cw: CharWidth, screen: nat, rows: seq<Row>, columns: nat) returns (out: Line)
    ensures out == Table(cw, screen, rows, columns)
  {
    if rows == [] || ColumnCount(rows, columns) == 0 {
      return [];
    }
    var ws := ColumnWidths(cw, screen, rows, columns);
    var top := DrawBorder(ws, '\U{250C}', '\U{252C}', '\U{2510}');
    out := DrawBody(cw, ws, rows, [Chrome('\n')] + top);
    var bottom := DrawBorder(ws, '\U{2514}', '\U{2534}', '\U{2518}');
    out := out + Styled(DimFace, bottom) + [Chrome('\n')];
  }
}
