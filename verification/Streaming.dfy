/** The incremental line buffer that feeds the terminal: complete lines leave it
    as soon as they are known, and a continuation prefix is inserted in front of
    every non-empty line but the first.

    A text segment is rendered by a fresh renderer; here that is the function
    `render`, which plain mode replaces by the identity. */
module Streaming {
  import opened Seqs

  datatype Config = Config(color: bool, prefix: string, render: string -> string)

  datatype State = State(buffer: string, renderedUpTo: nat, atLineStart: bool) {
    predicate Valid() {
      renderedUpTo <= |buffer|
    }

    /** The text received but not yet handed out. */
    function Pending(): string
      requires Valid()
    {
      buffer[renderedUpTo..]
    }
  }

  const START := State("", 0, false)

  /** The part of `s` up to and including its last newline. */
  function CompleteLines(s: string): (r: string)
    ensures |r| <= |s|
  {
    if s == "" || s[|s| - 1] == '\n' then s else CompleteLines(s[..|s| - 1])
  }

  predicate WholeLines(s: string) {
    s == "" || s[|s| - 1] == '\n'
  }

  /** The longest prefix made of whole lines: no newline comes after it. */
  lemma {:induction false} CompleteLinesIsLongest(s: string)
    ensures var r := CompleteLines(s); r <= s && WholeLines(r) && '\n' !in s[|r|..]
  {
    if s != "" && s[|s| - 1] != '\n' {
      var init := s[..|s| - 1];
      CompleteLinesIsLongest(init);
      assert s[|CompleteLines(s)|..] == init[|CompleteLines(s)|..] + [s[|s| - 1]];
    }
  }

  /** What one character becomes: a line's first character brings the prefix along,
      unless the line is empty. */
  function Placed(prefix: string, atStart: bool, ch: char): string {
    if atStart && ch != '\n' then prefix + [ch] else [ch]
  }

  /** Whether a line starts after `s`. */
  function After(atStart: bool, s: string): bool {
    if s == "" then atStart else s[|s| - 1] == '\n'
  }

  /** The reference transducer: reads the whole text once, and puts `prefix` before
      each line that follows a newline and is not empty. */
  function Prefixed(prefix: string, atStart: bool, s: string): string
    decreases |s|
  {
    if s == "" then "" else Placed(prefix, atStart, s[0]) + Prefixed(prefix, s[0] == '\n', s[1..])
  }

  /** Reading one more character moves it from what is to come to what is out. */
  lemma PrefixedStep(prefix: string, out: string, atStart: bool, s: string)
    requires s != ""
    ensures var bare := if atStart && s[0] != '\n' then prefix else "";
            (out + (bare + [s[0]])) + Prefixed(prefix, s[0] == '\n', s[1..]) == out + Prefixed(prefix, atStart, s)
    ensures After(atStart, s) == After(s[0] == '\n', s[1..])
  {
    var bare := if atStart && s[0] != '\n' then prefix else "";
    assert Placed(prefix, atStart, s[0]) == bare + [s[0]];
  }

  lemma AfterAppend(atStart: bool, a: string, b: string)
    ensures After(atStart, a + b) == After(After(atStart, a), b)
  {
    if b == "" {
      assert a + b == a;
    }
  }

  lemma {:induction false} PrefixedAppend(prefix: string, atStart: bool, a: string, b: string)
    ensures Prefixed(prefix, atStart, a + b) == Prefixed(prefix, atStart, a) + Prefixed(prefix, After(atStart, a), b)
    decreases |a|
  {
    if a == "" {
      assert a + b == b;
    } else {
      var rest := a[1..];
      assert (a + b)[1..] == rest + b && a == [a[0]] + rest;
      AfterAppend(atStart, [a[0]], rest);
      PrefixedAppend(prefix, a[0] == '\n', rest, b);
    }
  }

  lemma {:induction false} PrefixedEmpty(atStart: bool, s: string)
    ensures Prefixed("", atStart, s) == s
    decreases |s|
  {
    if s != "" {
      PrefixedEmpty(s[0] == '\n', s[1..]);
    }
  }

  // ---- One call ----

  datatype Op = Push(delta: string) | Finish

  function Delta(op: Op): string {
    if op.Push? then op.delta else ""
  }

  /** What one call takes out of the text that is waiting, before rendering. */
  function Piece(pending: string, op: Op): (r: string)
    ensures |r| <= |pending + Delta(op)|
  {
    match op
    case Push(delta) => CompleteLines(pending + delta)
    case Finish => pending
  }

  /** What keeps waiting after the call. */
  function Left(pending: string, op: Op): string {
    (pending + Delta(op))[|Piece(pending, op)|..]
  }

  /** A call splits the waiting text in two; `push` takes whole lines and leaves no
      newline behind, `finish` leaves nothing behind. */
  lemma PieceAndLeft(pending: string, op: Op)
    ensures Piece(pending, op) + Left(pending, op) == pending + Delta(op)
    ensures op.Push? ==> WholeLines(Piece(pending, op)) && '\n' !in Left(pending, op)
    ensures op.Finish? ==> Left(pending, op) == ""
  {
    if op.Push? {
      CompleteLinesIsLongest(pending + op.delta);
    }
  }

  function Shown(cfg: Config, piece: string): string {
    if piece == "" then "" else if cfg.color then cfg.render(piece) else piece
  }

  /** One call on the buffer: its output and the buffer afterwards. */
  function Step(cfg: Config, st: State, op: Op): (r: (string, State))
    requires st.Valid()
    ensures r.1.Valid()
    ensures r.1.Pending() == Left(st.Pending(), op)
  {
    var buffer := st.buffer + Delta(op);
    assert buffer[st.renderedUpTo..] == st.Pending() + Delta(op);
    var piece := Piece(st.Pending(), op);
    var shown := Shown(cfg, piece);
    assert buffer[st.renderedUpTo + |piece|..] == buffer[st.renderedUpTo..][|piece|..];
    (Prefixed(cfg.prefix, st.atLineStart, shown),
     State(buffer, st.renderedUpTo + |piece|, After(st.atLineStart, shown)))
  }

  // ---- Whole runs ----

  function Run(cfg: Config, st: State, ops: seq<Op>): (r: (seq<string>, State))
    requires st.Valid()
    ensures r.1.Valid()
    decreases |ops|
  {
    if ops == [] then ([], st)
    else
      var (out, next) := Step(cfg, st, ops[0]);
      var (outs, last) := Run(cfg, next, ops[1..]);
      ([out] + outs, last)
  }

  /** The pieces a series of calls takes out, one a call. */
  function Pieces(pending: string, ops: seq<Op>): (r: seq<string>)
    ensures |r| == |ops|
    decreases |ops|
  {
    if ops == [] then []
    else [Piece(pending, ops[0])] + Pieces(Left(pending, ops[0]), ops[1..])
  }

  function Deltas(ops: seq<Op>): string {
    if ops == [] then "" else Delta(ops[0]) + Deltas(ops[1..])
  }

  function ShownAll(cfg: Config, pieces: seq<string>): string {
    if pieces == [] then "" else Shown(cfg, pieces[0]) + ShownAll(cfg, pieces[1..])
  }

  /** However the calls are arranged, what is handed out is one pass of the transducer
      over the rendered pieces. */
  lemma {:induction false} OutputIsOnePass(cfg: Config, st: State, ops: seq<Op>)
    requires st.Valid()
    ensures var (outs, last) := Run(cfg, st, ops);
            var shown := ShownAll(cfg, Pieces(st.Pending(), ops));
            && Flatten(outs) == Prefixed(cfg.prefix, st.atLineStart, shown)
            && last.atLineStart == After(st.atLineStart, shown)
    decreases |ops|
  {
    if ops != [] {
      var (out, next) := Step(cfg, st, ops[0]);
      OutputIsOnePass(cfg, next, ops[1..]);
      var shown := Shown(cfg, Piece(st.Pending(), ops[0]));
      var rest := ShownAll(cfg, Pieces(next.Pending(), ops[1..]));
      PrefixedAppend(cfg.prefix, st.atLineStart, shown, rest);
      AfterAppend(st.atLineStart, shown, rest);
    }
  }

  /** What waits after a series of calls. */
  function Rest(pending: string, ops: seq<Op>): string
    decreases |ops|
  {
    if ops == [] then pending else Rest(Left(pending, ops[0]), ops[1..])
  }

  lemma {:induction false} PendingIsRest(cfg: Config, st: State, ops: seq<Op>)
    requires st.Valid()
    ensures Run(cfg, st, ops).1.Pending() == Rest(st.Pending(), ops)
    decreases |ops|
  {
    if ops != [] {
      PendingIsRest(cfg, Step(cfg, st, ops[0]).1, ops[1..]);
    }
  }

  /** The pieces cut the received text into consecutive parts. */
  lemma {:induction false} PiecesPartition(pending: string, ops: seq<Op>)
    ensures Flatten(Pieces(pending, ops)) + Rest(pending, ops) == pending + Deltas(ops)
    decreases |ops|
  {
    if ops != [] {
      var piece, left := Piece(pending, ops[0]), Left(pending, ops[0]);
      PiecesPartition(left, ops[1..]);
      PieceAndLeft(pending, ops[0]);
      Regroup(piece, Flatten(Pieces(left, ops[1..])), Rest(pending, ops), left, Deltas(ops[1..]), pending, Delta(ops[0]));
    }
  }

  lemma Regroup(a: string, b: string, c: string, d: string, e: string, f: string, g: string)
    requires b + c == d + e && a + d == f + g
    ensures (a + b) + c == f + (g + e)
  {
    calc {
      (a + b) + c;
      a + (b + c);
      a + (d + e);
      (a + d) + e;
      f + (g + e);
    }
  }

  /** A piece taken by `push` is made of whole lines. */
  lemma {:induction false} PushedPieceIsWholeLines(pending: string, ops: seq<Op>, i: nat)
    requires i < |ops| && ops[i].Push?
    ensures WholeLines(Pieces(pending, ops)[i])
    decreases i
  {
    if i == 0 {
      PieceAndLeft(pending, ops[0]);
    } else {
      PushedPieceIsWholeLines(Left(pending, ops[0]), ops[1..], i - 1);
    }
  }

  lemma {:induction false} RestOfAppend(pending: string, a: seq<Op>, last: Op)
    ensures Rest(pending, a + [last]) == Left(Rest(pending, a), last)
    decreases |a|
  {
    if a == [] {
      assert a + [last] == [last];
      assert Rest(pending, [last]) == Rest(Left(pending, last), []);
    } else {
      assert (a + [last])[1..] == a[1..] + [last];
      RestOfAppend(Left(pending, a[0]), a[1..], last);
    }
  }

  /** After a `push` no newline waits, and after `finish` nothing does. */
  lemma RestHasNoLine(pending: string, ops: seq<Op>)
    requires ops != []
    ensures ops[|ops| - 1].Push? ==> '\n' !in Rest(pending, ops)
    ensures ops[|ops| - 1].Finish? ==> Rest(pending, ops) == ""
  {
    var before, last := ops[..|ops| - 1], ops[|ops| - 1];
    assert ops == before + [last];
    RestOfAppend(pending, before, last);
    PieceAndLeft(Rest(pending, before), last);
  }

  lemma {:induction false} PlainShownAll(cfg: Config, pieces: seq<string>)
    requires !cfg.color
    ensures ShownAll(cfg, pieces) == Flatten(pieces)
  {
    if pieces != [] {
      PlainShownAll(cfg, pieces[1..]);
    }
  }

  /** Plain mode does not depend on how the text was cut: for every series of calls
      that ends with `finish`, whatever further `finish` calls lie between, the outputs
      concatenate to the reference transducer run once over the whole text. */
  lemma PlainStreamIsWholeText(cfg: Config, ops: seq<Op>)
    requires !cfg.color
    requires ops != [] && ops[|ops| - 1] == Finish
    ensures Flatten(Run(cfg, START, ops).0) == Prefixed(cfg.prefix, false, Deltas(ops))
  {
    var pieces := Pieces("", ops);
    assert ShownAll(cfg, pieces) == Deltas(ops) by {
      PlainShownAll(cfg, pieces);
      PiecesPartition("", ops);
      RestHasNoLine("", ops);
      assert Flatten(pieces) + "" == Flatten(pieces) && "" + Deltas(ops) == Deltas(ops);
    }
    assert START.Pending() == "";
    OutputIsOnePass(cfg, START, ops);
  }

  // ---- Colour ----

  /** Piece after piece, each drawn by itself; an empty piece is not drawn at all. */
  function Painted(render: string -> string, pieces: seq<string>): string {
    if pieces == [] then ""
    else (if pieces[0] == "" then "" else render(pieces[0])) + Painted(render, pieces[1..])
  }

  lemma {:induction false} ColourShownAll(cfg: Config, pieces: seq<string>)
    requires cfg.color
    ensures ShownAll(cfg, pieces) == Painted(cfg.render, pieces)
  {
    if pieces != [] {
      ColourShownAll(cfg, pieces[1..]);
    }
  }

  lemma {:induction false} PiecesOfFront(pending: string, ops: seq<Op>, i: nat)
    requires i <= |ops|
    ensures Pieces(pending, ops)[..i] == Pieces(pending, ops[..i])
    decreases i
  {
    if i > 0 {
      var left := Left(pending, ops[0]);
      PiecesOfFront(left, ops[1..], i - 1);
      assert ops[..i][1..] == ops[1..][..i - 1];
      assert Pieces(pending, ops)[..i] == [Piece(pending, ops[0])] + Pieces(left, ops[1..])[..i - 1];
    }
  }

  /** How far the text is out after `i` calls: to its last line end after a push, to its end after a
      finish. */
  ghost predicate OutSoFar(pieces: seq<string>, ops: seq<Op>, i: nat)
    requires 0 < i <= |ops| == |pieces|
  {
    var text, out := Deltas(ops[..i]), Flatten(pieces[..i]);
    && out <= text
    && match ops[i - 1]
       case Push(_) => WholeLines(pieces[i - 1]) && '\n' !in text[|out|..]
       case Finish => out == text
  }

  lemma PiecesAreOut(ops: seq<Op>, i: nat)
    requires 0 < i <= |ops|
    ensures OutSoFar(Pieces("", ops), ops, i)
  {
    var pieces, front := Pieces("", ops), ops[..i];
    PiecesOfFront("", ops, i);
    PiecesPartition("", front);
    RestHasNoLine("", front);
    if ops[i - 1].Push? {
      PushedPieceIsWholeLines("", ops, i - 1);
    }
    var out, rest := Flatten(pieces[..i]), Rest("", front);
    assert "" + Deltas(front) == Deltas(front) && out + rest == Deltas(front);
    assert Deltas(front)[|out|..] == rest;
  }

  /** In colour, what is handed out is one pass of the transducer over the drawings of the pieces,
      which cut the text where the calls left it: after its last line end at a push, and at its end
      at a finish. */
  lemma ColourStreamIsDrawnByPieces(cfg: Config, ops: seq<Op>) returns (pieces: seq<string>)
    requires cfg.color
    ensures |pieces| == |ops| && forall i :: 0 < i <= |ops| ==> OutSoFar(pieces, ops, i)
    ensures Flatten(Run(cfg, START, ops).0) == Prefixed(cfg.prefix, false, Painted(cfg.render, pieces))
  {
    pieces := Pieces("", ops);
    forall i | 0 < i <= |ops| ensures OutSoFar(pieces, ops, i) {
      PiecesAreOut(ops, i);
    }
    assert START.Pending() == "";
    OutputIsOnePass(cfg, START, ops);
    ColourShownAll(cfg, pieces);
  }

  // ---- The transducer line by line ----

  /** A line is put behind the prefix if it starts a line and is not empty, and every line is put by
      itself: which says all about the transducer. */
  lemma PrefixedByLines(prefix: string, atStart: bool, line: string, rest: string)
    requires '\n' !in line
    ensures Prefixed(prefix, atStart, line) == (if atStart && line != "" then prefix else "") + line
    ensures Prefixed(prefix, atStart, line + "\n" + rest)
         == Prefixed(prefix, atStart, line) + "\n" + Prefixed(prefix, true, rest)
  {
    PrefixedInLine(prefix, atStart, line);
    PrefixedAppend(prefix, atStart, line + "\n", rest);
    PrefixedAppend(prefix, atStart, line, "\n");
    assert Prefixed(prefix, After(atStart, line), "\n") == "\n" + "";
  }

  lemma {:induction false} PrefixedInLine(prefix: string, atStart: bool, line: string)
    requires '\n' !in line
    ensures Prefixed(prefix, atStart, line) == (if atStart && line != "" then prefix else "") + line
    decreases |line|
  {
    if line != "" {
      PrefixedInLine(prefix, false, line[1..]);
      assert line == [line[0]] + line[1..];
    }
  }

  // ---- The prefix can be taken out again ----

  /** Removes the continuation prefix from the head of every non-empty line. */
  function Stripped(prefix: string, atStart: bool, s: string): string
    decreases |s|
  {
    if s == "" then ""
    else if s[0] == '\n' then "\n" + Stripped(prefix, true, s[1..])
    else if atStart && |prefix| < |s| then [s[|prefix|]] + Stripped(prefix, false, s[|prefix| + 1..])
    else [s[0]] + Stripped(prefix, false, s[1..])
  }

  lemma {:induction false} StripUndoesPrefix(prefix: string, atStart: bool, s: string)
    requires prefix == "" || prefix[0] != '\n'
    ensures Stripped(prefix, atStart, Prefixed(prefix, atStart, s)) == s
    decreases |s|
  {
    if s != "" {
      var out := Prefixed(prefix, atStart, s);
      var rest := Prefixed(prefix, s[0] == '\n', s[1..]);
      StripUndoesPrefix(prefix, s[0] == '\n', s[1..]);
      if s[0] == '\n' {
        assert out[1..] == rest;
      } else if atStart {
        assert out == prefix + [s[0]] + rest;
        assert out[|prefix| + 1..] == rest;
      } else {
        assert out == [s[0]] + rest;
        assert out[1..] == rest;
      }
      assert s == [s[0]] + s[1..];
    }
  }

  /** How many newlines a text begins with. */
  function LeadingNewlines(s: string): (n: nat)
    ensures n <= |s|
  {
    if s == "" || s[0] != '\n' then 0 else 1 + LeadingNewlines(s[1..])
  }

  lemma {:induction false} LeadingNewlinesOfAppend(a: string, b: string)
    ensures LeadingNewlines(a) < |a| ==> LeadingNewlines(a + b) == LeadingNewlines(a)
    ensures LeadingNewlines(a) == |a| ==> LeadingNewlines(a + b) == |a| + LeadingNewlines(b)
  {
    if a == "" {
      assert a + b == b;
    } else {
      assert (a + b)[1..] == a[1..] + b;
      LeadingNewlinesOfAppend(a[1..], b);
    }
  }

  /** At a line start, a blank line keeps at least one newline more in front of the
      next prefix than a line with content does. */
  lemma {:induction false} BlankLineShows(prefix: string, s: string)
    requires s != "" && s[0] == '\n'
    ensures var out := Prefixed(prefix, true, s);
            LeadingNewlines(out) == |out| || LeadingNewlines(out) > LeadingNewlines(prefix)
  {
    var out := Prefixed(prefix, true, s);
    var rest := Prefixed(prefix, true, s[1..]);
    assert out == "\n" + rest && out[1..] == rest;
    if s[1..] != "" {
      if s[1] == '\n' {
        BlankLineShows(prefix, s[1..]);
      } else {
        ContentLineShows(prefix, s[1..]);
      }
    }
  }

  lemma ContentLineShows(prefix: string, s: string)
    requires s != "" && s[0] != '\n'
    ensures var out := Prefixed(prefix, true, s);
            LeadingNewlines(out) == LeadingNewlines(prefix) < |out|
  {
    var rest := Prefixed(prefix, false, s[1..]);
    assert Prefixed(prefix, true, s) == prefix + ([s[0]] + rest);
    LeadingNewlinesOfAppend(prefix, [s[0]] + rest);
  }

  /** No information is lost, whatever the prefix is (even one made of newlines):
      two texts that are shown alike are the same text. */
  lemma {:induction false} PrefixedIsInjective(prefix: string, atStart: bool, a: string, b: string)
    requires Prefixed(prefix, atStart, a) == Prefixed(prefix, atStart, b)
    ensures a == b
    decreases |a|
  {
    if a == "" || b == "" {
    } else {
      if (a[0] == '\n') != (b[0] == '\n') && atStart {
        var (blank, content) := if a[0] == '\n' then (a, b) else (b, a);
        BlankLineShows(prefix, blank);
        ContentLineShows(prefix, content);
        assert false;
      }
      var outA, outB := Prefixed(prefix, atStart, a), Prefixed(prefix, atStart, b);
      var lead := if atStart && a[0] != '\n' then |prefix| else 0;
      assert outA[lead] == a[0] && outB[lead] == b[0];
      assert outA[lead + 1..] == Prefixed(prefix, a[0] == '\n', a[1..]);
      assert outB[lead + 1..] == Prefixed(prefix, b[0] == '\n', b[1..]);
      PrefixedIsInjective(prefix, a[0] == '\n', a[1..], b[1..]);
      assert a == [a[0]] + a[1..] && b == [b[0]] + b[1..];
    }
  }
}
