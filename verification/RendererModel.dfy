/** What the Markdown renderer does with one parser event, as a function on its state.

    The state has the renderer's fields.  Styling a text is putting it between an opening
    and a closing escape code. */
module RendererModel {
  import opened Seqs
  import opened Glyphs
  import opened TableLayout

  datatype Style = Style(width: nat, charWidth: CharWidth)

  datatype CodeBlockKind = Fenced(info: string) | Indented

  datatype Tag =
    | Heading(level: nat)
    | Paragraph
    | CodeBlock(kind: CodeBlockKind)
    | List(start: Option<nat>)
    | Item(id: int)            // the identity of the item, for its label to carry
    | BlockQuote
    | Emphasis
    | Strong
    | Strikethrough
    | Link
    | Table(columns: nat)
    | TableHead
    | TableRow
    | TableCell
    | OtherTag

  datatype TagEnd =
    | HeadingEnd | ParagraphEnd | CodeBlockEnd | ListEnd | ItemEnd | BlockQuoteEnd | EmphasisEnd | StrongEnd
    | StrikethroughEnd | LinkEnd | TableEnd | TableHeadEnd | TableRowEnd | TableCellEnd | OtherTagEnd

  datatype Event =
    | Start(tag: Tag)
    | End(end: TagEnd)
    | Text(text: seq<Letter>)
    | Code(text: seq<Letter>)
    | SoftBreak
    | HardBreak
    | Rule
    | OtherEvent

  datatype Frame = Frame(prefix: Line, prefixWidth: nat, content: Line, emitted: bool)

  datatype TableState = TableState(
    inTable: bool, inHead: bool, columns: nat, rows: seq<Row>, row: Row, cell: Line)

  datatype State = State(
    output: Line,
    emphasisDepth: nat,
    strongDepth: nat,
    inCodeBlock: bool,
    codeLang: Option<string>,
    codeBuf: Line,
    inHeading: bool,
    headingLevel: nat,
    headingBuf: Line,
    listDepth: nat,
    orderedCounters: seq<nat>,
    items: seq<Frame>,
    lastWasBlank: bool,
    inBlockQuote: bool,
    quoteBuf: Line,
    table: TableState)

  const NO_TABLE := TableState(false, false, 0, [], [], [])
  const REST := State([], 0, 0, false, None, [], false, 0, [], 0, [], [], true, false, [], NO_TABLE)

  // ---- Pieces of output ----

  const NEWLINE: Line := [Chrome('\n')]
  const BLANK: Line := [Chrome(' ')]
  const MARGIN: Line := [Chrome(' '), Chrome(' ')]
  const TICK: Line := [Chrome('`')]

  /** The label of a list item behind its indent, and the columns both take. */
  function ItemPrefix(depth: nat, counter: nat, id: int): (Line, nat) {
    var indent := 2 * SaturatingSub(depth, 1);
    if counter > 0 then (Spaces(indent) + [Mark(counter, id)], indent + |Digits(counter)| + 2)
    else (Spaces(indent) + [Mark(0, id)] + [Chrome(' ')], indent + 2)
  }

  /** A line of a list item behind its label, or behind blanks if that is out already. */
  function ItemHead(item: Frame, line: Line): Line {
    MARGIN + (if item.emitted then Spaces(item.prefixWidth) else item.prefix) + line + NEWLINE
  }

  /** A list item: only its first line can carry the label. */
  function ItemLines(item: Frame): Line {
    var lines := Split(item.content);
    ItemHead(item, lines[0]) + Wrapped(MARGIN + Spaces(item.prefixWidth), lines[1..], NEWLINE)
  }

  function Hashes(level: nat): string {
    seq(level, _ => '#')
  }

  function HeadingLines(level: nat, text: Line): Line {
    NEWLINE + Styled(HeadingFace, Plain(Hashes(level) + " ") + text) + NEWLINE
  }

  function CodeHeader(lang: Option<string>): Line {
    MARGIN + Styled(RuleFace, Plain("```"))
    + (if lang.Some? then BLANK + Styled(RuleFace, Plain(lang.value)) else []) + NEWLINE
  }

  const CODE_OPEN := MARGIN + [Open(CodeFace)]
  const CODE_CLOSE := [Close(CodeFace)] + NEWLINE
  const CODE_FOOTER := MARGIN + Styled(RuleFace, Plain("```")) + NEWLINE

  function CodeLines(lang: Option<string>, code: Line): Line {
    CodeHeader(lang) + Wrapped(CODE_OPEN, Lines(code), CODE_CLOSE) + CODE_FOOTER
  }

  const QUOTE_OPEN := MARGIN + Styled(QuoteFace, [Chrome(BAR)]) + BLANK + [Open(QuoteFace)]
  const QUOTE_CLOSE := [Close(QuoteFace)] + NEWLINE

  function QuoteLines(text: Line): Line {
    Wrapped(QUOTE_OPEN, Lines(text), QUOTE_CLOSE)
  }

  function RuleLine(width: nat): Line {
    Styled(RuleFace, Repeated(Min(width, 72), DASH)) + NEWLINE
  }

  function InlineCode(text: seq<Letter>): Line {
    TICK + Inked(text) + TICK
  }

  // ---- List items ----

  function AppendToItem(st: State, text: Line): State {
    if st.items == [] then st
    else
      var top := |st.items| - 1;
      st.(items := st.items[top := st.items[top].(content := st.items[top].content + text)])
  }

  function RenderItem(st: State, item: Frame): State {
    st.(output := st.output + ItemLines(item), lastWasBlank := false)
  }

  /** Before a nested list opens, what the item around it holds goes out, label first. */
  function FlushItem(st: State): State {
    if st.items == [] then st
    else
      var top := |st.items| - 1;
      var item := st.items[top];
      if item.emitted || item.content == [] then st
      else RenderItem(st.(items := st.items[top := item.(content := [], emitted := true)]), item)
  }

  // ---- Events ----

  function InlineStyled(st: State, text: seq<Letter>): Line {
    if st.strongDepth > 0 then Styled(BoldFace, Inked(text))
    else if st.emphasisDepth > 0 then Styled(EmphasisFace, Inked(text))
    else Inked(text)
  }

  function StartList(st: State, start: Option<nat>): State {
    var flushed := FlushItem(st);
    var next := flushed.(
      listDepth := flushed.listDepth + 1,
      orderedCounters := flushed.orderedCounters + [start.GetOr(0)]);
    if next.listDepth == 1 && !next.lastWasBlank then next.(output := next.output + NEWLINE) else next
  }

  function StartItem(st: State, id: int): State {
    var last := |st.orderedCounters| - 1;
    var counter := if last >= 0 then st.orderedCounters[last] else 0;
    var (prefix, width) := ItemPrefix(st.listDepth, counter, id);
    st.(orderedCounters := if counter > 0 then st.orderedCounters[last := counter + 1] else st.orderedCounters,
        items := st.items + [Frame(prefix, width, [], false)])
  }

  function StepStart(st: State, tag: Tag): State {
    match tag
    case Heading(level) => st.(inHeading := true, headingLevel := level, headingBuf := [])
    case Paragraph =>
      if st.items == [] && !st.inHeading && !st.inBlockQuote && !st.lastWasBlank
      then st.(output := st.output + NEWLINE) else st
    case CodeBlock(kind) =>
      st.(inCodeBlock := true, codeBuf := [],
          codeLang := if kind.Fenced? && kind.info != "" then Some(kind.info) else None)
    case List(start) => StartList(st, start)
    case Item(id) => StartItem(st, id)
    case BlockQuote => st.(inBlockQuote := true, quoteBuf := [])
    case Emphasis => st.(emphasisDepth := st.emphasisDepth + 1)
    case Strong => st.(strongDepth := st.strongDepth + 1)
    case Table(columns) => st.(table := TableState(true, st.table.inHead, columns, [], [], []))
    case TableHead => st.(table := st.table.(inHead := true))
    case TableRow => st.(table := st.table.(row := []))
    case TableCell => st.(table := st.table.(cell := []))
    case _ => st
  }

  function EndItem(st: State): State {
    if st.items == [] then st
    else
      var top := |st.items| - 1;
      var item := st.items[top];
      var popped := st.(items := st.items[..top]);
      if item.content != [] || !item.emitted then RenderItem(popped, item) else popped
  }

  function EndTable(style: Style, st: State): State {
    var out := TableLayout.Table(style.charWidth, style.width, st.table.rows, st.table.columns);
    var closed := st.(table := st.table.(inTable := false));
    if out == [] then closed else closed.(output := st.output + out, lastWasBlank := true)
  }

  function EndTableRow(t: TableState): TableState {
    var row := if t.cell != [] then t.row + [t.cell] else t.row;
    t.(cell := [], row := [], rows := if row != [] then t.rows + [row] else t.rows)
  }

  function StepEnd(style: Style, st: State, end: TagEnd): State {
    match end
    case HeadingEnd =>
      st.(inHeading := false, headingBuf := [],
          output := st.output + HeadingLines(st.headingLevel, st.headingBuf), lastWasBlank := false)
    case ParagraphEnd =>
      if st.items == [] && !st.inBlockQuote then st.(output := st.output + NEWLINE, lastWasBlank := true) else st
    case CodeBlockEnd =>
      st.(inCodeBlock := false, codeBuf := [], codeLang := None,
          output := st.output + CodeLines(st.codeLang, st.codeBuf), lastWasBlank := false)
    case ListEnd =>
      st.(listDepth := SaturatingSub(st.listDepth, 1),
          orderedCounters := st.orderedCounters[..SaturatingSub(|st.orderedCounters|, 1)], lastWasBlank := true)
    case ItemEnd => EndItem(st)
    case BlockQuoteEnd =>
      st.(inBlockQuote := false, quoteBuf := [], output := st.output + QuoteLines(st.quoteBuf), lastWasBlank := false)
    case EmphasisEnd => st.(emphasisDepth := SaturatingSub(st.emphasisDepth, 1))
    case StrongEnd => st.(strongDepth := SaturatingSub(st.strongDepth, 1))
    case TableEnd => EndTable(style, st)
    case TableHeadEnd => st.(table := st.table.(inHead := false))
    case TableRowEnd => st.(table := EndTableRow(st.table))
    case TableCellEnd => st.(table := st.table.(row := st.table.row + [st.table.cell], cell := []))
    case _ => st
  }

  function StepText(st: State, text: seq<Letter>): State {
    if st.table.inTable then st.(table := st.table.(cell := st.table.cell + Inked(text)))
    else if st.inCodeBlock then st.(codeBuf := st.codeBuf + Inked(text))
    else if st.inHeading then st.(headingBuf := st.headingBuf + Inked(text))
    else if st.inBlockQuote then st.(quoteBuf := st.quoteBuf + Inked(text))
    else if st.items != [] then AppendToItem(st, InlineStyled(st, text))
    else st.(output := st.output + InlineStyled(st, text), lastWasBlank := false)
  }

  function StepCode(st: State, text: seq<Letter>): State {
    if st.table.inTable then st.(table := st.table.(cell := st.table.cell + InlineCode(text)))
    else if st.inHeading then st.(headingBuf := st.headingBuf + Inked(text))
    else if st.inBlockQuote then st.(quoteBuf := st.quoteBuf + InlineCode(text))
    else
      var shown := Styled(CodeFace, InlineCode(text));
      var next := if st.items != [] then AppendToItem(st, shown) else st.(output := st.output + shown);
      next.(lastWasBlank := false)
  }

  function StepSoftBreak(st: State): State {
    if st.table.inTable then st.(table := st.table.(cell := st.table.cell + BLANK))
    else if st.inCodeBlock then st.(codeBuf := st.codeBuf + NEWLINE)
    else if st.inHeading then st.(headingBuf := st.headingBuf + BLANK)
    else if st.inBlockQuote then st.(quoteBuf := st.quoteBuf + NEWLINE)
    else if st.items != [] then AppendToItem(st, NEWLINE)
    else st.(output := st.output + NEWLINE)
  }

  /** Unlike a soft break, a hard break inside a heading or a block quote does not go to
      the heading's or the quote's own text. */
  function StepHardBreak(st: State): State {
    if st.table.inTable then st.(table := st.table.(cell := st.table.cell + BLANK))
    else if st.inCodeBlock then st.(codeBuf := st.codeBuf + NEWLINE)
    else if st.items != [] then AppendToItem(st, NEWLINE)
    else st.(output := st.output + NEWLINE)
  }

  function Step(style: Style, st: State, event: Event): State {
    match event
    case Start(tag) => StepStart(st, tag)
    case End(end) => StepEnd(style, st, end)
    case Text(text) => StepText(st, text)
    case Code(text) => StepCode(st, text)
    case SoftBreak => StepSoftBreak(st)
    case HardBreak => StepHardBreak(st)
    case Rule => st.(output := st.output + RuleLine(style.width), lastWasBlank := true)
    case OtherEvent => st
  }

  function Run(style: Style, st: State, events: seq<Event>): State
    decreases |events|
  {
    if events == [] then st else Run(style, Step(style, st, events[0]), events[1..])
  }

  lemma {:induction false} RunAppend(style: Style, st: State, a: seq<Event>, b: seq<Event>)
    ensures Run(style, st, a + b) == Run(style, Run(style, st, a), b)
    decreases |a|
  {
    if a == [] {
      assert a + b == b;
    } else {
      assert (a + b)[1..] == a[1..] + b;
      RunAppend(style, Step(style, st, a[0]), a[1..], b);
    }
  }
}
