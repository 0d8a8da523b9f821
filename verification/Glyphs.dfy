/** Terminal output as a sequence of glyphs that remember where they come from.

    A letter of the document carries an identity of its own, so "this letter is shown
    exactly once" can be said even when the same character occurs many times.  The
    label of a list item is one glyph, with its number and the identity of its item.
    Everything else (escape codes, borders, bullets' spacing, line breaks the renderer
    adds) is decoration. */
module Glyphs {
  import opened Seqs

  datatype Letter = Letter(ch: char, id: int)

  datatype Face = BoldFace | EmphasisFace | CodeFace | HeadingFace | QuoteFace | RuleFace | DimFace

  datatype Glyph =
    | Ink(letter: Letter)
    | Chrome(ch: char)
    | Mark(number: nat, item: int)   // the styled label of a list item; number 0 is the bullet
    | Open(face: Face)
    | Close(face: Face)

  type Line = seq<Glyph>

  /** A piece of document text, as glyphs. */
  function Inked(text: seq<Letter>): (r: Line)
    ensures |r| == |text|
  {
    seq(|text|, i requires 0 <= i < |text| => Ink(text[i]))
  }

  /** Decoration spelled out. */
  function Plain(s: string): (r: Line)
    ensures |r| == |s|
  {
    seq(|s|, i requires 0 <= i < |s| => Chrome(s[i]))
  }

  function Styled(face: Face, text: Line): Line {
    [Open(face)] + text + [Close(face)]
  }

  function Spaces(n: nat): Line {
    seq(n, _ => Chrome(' '))
  }

  predicate Is(g: Glyph, ch: char) {
    (g.Ink? && g.letter.ch == ch) || (g.Chrome? && g.ch == ch)
  }

  // ---- What has to survive ----

  /** Letters other than line breaks, and (if asked for) item labels. */
  predicate Kept(g: Glyph, labels: bool) {
    || (g.Ink? && g.letter.ch != '\n' && g.letter.ch != '\r')
    || (g.Mark? && labels)
  }

  function Keep(gs: Line, labels: bool): Line {
    if gs == [] then []
    else (if Kept(gs[0], labels) then [gs[0]] else []) + Keep(gs[1..], labels)
  }

  lemma {:induction false} KeepAppend(a: Line, b: Line, labels: bool)
    ensures Keep(a + b, labels) == Keep(a, labels) + Keep(b, labels)
  {
    if a == [] {
      assert a + b == b;
    } else {
      assert (a + b)[1..] == a[1..] + b;
      KeepAppend(a[1..], b, labels);
    }
  }

  lemma KeepAppend3(a: Line, b: Line, c: Line, labels: bool)
    ensures Keep(a + b + c, labels) == Keep(a, labels) + Keep(b, labels) + Keep(c, labels)
  {
    KeepAppend(a + b, c, labels);
    KeepAppend(a, b, labels);
  }

  lemma {:induction false} KeepNothing(gs: Line, labels: bool)
    requires forall i :: 0 <= i < |gs| ==> !Kept(gs[i], labels)
    ensures Keep(gs, labels) == []
  {
    if gs != [] {
      KeepNothing(gs[1..], labels);
    }
  }

  lemma KeepPlain(s: string, labels: bool)
    ensures Keep(Plain(s), labels) == []
  {
    KeepNothing(Plain(s), labels);
  }

  lemma KeepStyled(face: Face, text: Line, labels: bool)
    ensures Keep(Styled(face, text), labels) == Keep(text, labels)
  {
    KeepAppend3([Open(face)], text, [Close(face)], labels);
    KeepNothing([Open(face)], labels);
    KeepNothing([Close(face)], labels);
  }

  lemma {:induction false} KeepPieces(a: seq<Line>, b: seq<Line>, labels: bool)
    requires |a| == |b|
    requires forall i :: 0 <= i < |a| ==> Keep(a[i], labels) == Keep(b[i], labels)
    ensures Keep(Flatten(a), labels) == Keep(Flatten(b), labels)
  {
    if a != [] {
      KeepPieces(a[1..], b[1..], labels);
      KeepAppend(a[0], Flatten(a[1..]), labels);
      KeepAppend(b[0], Flatten(b[1..]), labels);
    }
  }

  // ---- Lines ----

  /** The pieces between newlines; there is always at least one. */
  function Split(gs: Line): (r: seq<Line>)
    ensures |r| >= 1
  {
    if gs == [] then [[]]
    else
      var rest := Split(gs[1..]);
      if Is(gs[0], '\n') then [[]] + rest
      else [[gs[0]] + rest[0]] + rest[1..]
  }

  function WithoutReturn(line: Line): Line {
    if line != [] && Is(line[|line| - 1], '\r') then line[..|line| - 1] else line
  }

  function WithoutReturns(lines: seq<Line>): (r: seq<Line>)
    ensures |r| == |lines|
  {
    if lines == [] then [] else [WithoutReturn(lines[0])] + WithoutReturns(lines[1..])
  }

  /** Lines as a text reader counts them: a final newline starts no line of its own, and
      a carriage return in front of a newline belongs to it. */
  function Lines(gs: Line): seq<Line> {
    var pieces := Split(gs);
    var last := pieces[|pieces| - 1];
    WithoutReturns(pieces[..|pieces| - 1]) + (if last == [] then [] else [last])
  }

  lemma {:induction false} KeepSplit(gs: Line, labels: bool)
    ensures Keep(Flatten(Split(gs)), labels) == Keep(gs, labels)
  {
    if gs != [] {
      var rest := Split(gs[1..]);
      KeepSplit(gs[1..], labels);
      if Is(gs[0], '\n') {
        assert Split(gs)[0] == [] && Split(gs)[1..] == rest;
        assert Flatten(Split(gs)) == Flatten(rest);
        assert Keep(gs, labels) == [] + Keep(gs[1..], labels);
      } else {
        assert Split(gs)[1..] == rest[1..];
        assert Flatten(Split(gs)) == [gs[0]] + Flatten(rest);
        KeepAppend([gs[0]], Flatten(rest), labels);
        assert [gs[0]][1..] == [];
      }
    }
  }

  lemma KeepSplitHead(gs: Line, labels: bool)
    ensures Keep(gs, labels) == Keep(Split(gs)[0], labels) + Keep(Flatten(Split(gs)[1..]), labels)
  {
    KeepSplit(gs, labels);
    KeepAppend(Split(gs)[0], Flatten(Split(gs)[1..]), labels);
  }

  lemma KeepWithoutReturn(line: Line, labels: bool)
    ensures Keep(WithoutReturn(line), labels) == Keep(line, labels)
  {
    if WithoutReturn(line) != line {
      var last := line[|line| - 1];
      assert line == line[..|line| - 1] + [last];
      KeepAppend(line[..|line| - 1], [last], labels);
      KeepNothing([last], labels);
    }
  }

  lemma {:induction false} KeepWithoutReturns(lines: seq<Line>, labels: bool)
    ensures Keep(Flatten(WithoutReturns(lines)), labels) == Keep(Flatten(lines), labels)
  {
    if lines != [] {
      KeepWithoutReturns(lines[1..], labels);
      KeepWithoutReturn(lines[0], labels);
      KeepAppend(WithoutReturn(lines[0]), Flatten(WithoutReturns(lines[1..])), labels);
      KeepAppend(lines[0], Flatten(lines[1..]), labels);
    }
  }

  lemma KeepLines(gs: Line, labels: bool)
    ensures Keep(Flatten(Lines(gs)), labels) == Keep(gs, labels)
  {
    var pieces := Split(gs);
    var n := |pieces| - 1;
    assert pieces == pieces[..n] + [pieces[n]];
    FlattenSnoc(pieces[..n], pieces[n]);
    KeepSplit(gs, labels);
    KeepAppend(Flatten(pieces[..n]), pieces[n], labels);
    KeepWithoutReturns(pieces[..n], labels);
    if pieces[n] == [] {
      assert Lines(gs) == WithoutReturns(pieces[..n]);
    } else {
      FlattenSnoc(WithoutReturns(pieces[..n]), pieces[n]);
      KeepAppend(Flatten(WithoutReturns(pieces[..n])), pieces[n], labels);
    }
  }

  /** Every line put between the same two pieces of decoration. */
  function Wrapped(before: Line, lines: seq<Line>, after: Line): Line {
    if lines == [] then [] else before + lines[0] + after + Wrapped(before, lines[1..], after)
  }

  lemma {:induction false} WrappedSnoc(before: Line, lines: seq<Line>, last: Line, after: Line)
    ensures Wrapped(before, lines + [last], after) == Wrapped(before, lines, after) + (before + last + after)
  {
    if lines == [] {
      assert (lines + [last])[1..] == [];
    } else {
      WrappedSnoc(before, lines[1..], last, after);
      assert (lines + [last])[1..] == lines[1..] + [last];
    }
  }

  lemma {:induction false} KeepWrapped(before: Line, lines: seq<Line>, after: Line, labels: bool)
    requires Keep(before, labels) == [] && Keep(after, labels) == []
    ensures Keep(Wrapped(before, lines, after), labels) == Keep(Flatten(lines), labels)
  {
    if lines != [] {
      KeepWrapped(before, lines[1..], after, labels);
      KeepAppend(before + lines[0] + after, Wrapped(before, lines[1..], after), labels);
      KeepAppend3(before, lines[0], after, labels);
      KeepAppend(lines[0], Flatten(lines[1..]), labels);
    }
  }
}
