/** The renderer itself: an object whose methods update its fields event by event.  Each
    method is proved to do what the functions of the model say. */
module MarkdownRenderer {
  import opened Seqs
  import opened Glyphs
  import opened TableLayout
  import opened RendererModel

  class Renderer {
    const style: Style
    var output: Line
    var emphasisDepth: nat
    var strongDepth: nat
    var inCodeBlock: bool
    var codeBlockLang: Option<string>
    var codeBlockBuf: Line
    var inHeading: bool
    var headingLevel: nat
    var headingBuf: Line
    var listDepth: nat
    var orderedCounters: seq<nat>
    var listItemStack: seq<Frame>
    var lastWasBlank: bool
    var inBlockQuote: bool
    var blockQuoteBuf: Line
    var table: TableState   // the six fields that draw tables

    function State(): RendererModel.State
      reads this
    {
      RendererModel.State.State(output, emphasisDepth, strongDepth, inCodeBlock, codeBlockLang, codeBlockBuf, inHeading,
                                headingLevel, headingBuf, listDepth, orderedCounters, listItemStack, lastWasBlank,
                                inBlockQuote, blockQuoteBuf, table)
    }

    constructor (style: Style)
      ensures this.style == style && State() == REST
    {
      this.style := style;
      output := [];
      emphasisDepth, strongDepth := 0, 0;
      inCodeBlock, codeBlockLang, codeBlockBuf := false, None, [];
      inHeading, headingLevel, headingBuf := false, 0, [];
      listDepth, orderedCounters, listItemStack := 0, [], [];
      lastWasBlank := true;
      inBlockQuote, blockQuoteBuf := false, [];
      table := NO_TABLE;
    }

    method Push(events: seq<Event>)
      modifies this
      ensures State() == Run(style, old(State()), events)
    {
      var rest := events;
      while rest != []
        invariant Run(style, State(), rest) == Run(style, old(State()), events)
        decreases |rest|
      {
        HandleEvent(rest[0]);
        rest := rest[1..];
      }
    }

    method HandleEvent(event: Event)
      modifies this
      ensures State() == Step(style, old(State()), event)
    {
      match event {
        case Start(tag) => HandleStart(tag);
        case End(end) => HandleEnd(end);
        case Text(text) => HandleText(text);
        case Code(text) => HandleInlineCode(text);
        case SoftBreak => HandleSoftBreak();
        case HardBreak => HandleHardBreak();
        case Rule => HandleRule();
        case OtherEvent =>
      }
    }

    method HandleStart(tag: Tag)
      modifies this
      ensures State() == StepStart(old(State()), tag)
    {
      match tag {
        case Heading(level) =>
          inHeading := true;
          headingLevel := level;
          headingBuf := [];
        case Paragraph =>
          if !InListItem() && !inHeading && !inBlockQuote && !lastWasBlank {
            output := output + NEWLINE;
          }
        case CodeBlock(kind) => HandleStartCodeBlock(kind);
        case List(start) => HandleStartList(start);
        case Item(id) => HandleStartItem(id);
        case BlockQuote =>
          inBlockQuote := true;
          blockQuoteBuf := [];
        case Table(columns) => HandleStartTable(columns);
        case _ => HandleStartInline(tag);
      }
    }

    method HandleStartInline(tag: Tag)
      requires !tag.Heading? && !tag.Paragraph? && !tag.CodeBlock? && !tag.List? && !tag.Item? && !tag.BlockQuote? && !tag.Table?
      modifies this
      ensures State() == StepStart(old(State()), tag)
    {
      if tag.Emphasis? {
        emphasisDepth := emphasisDepth + 1;
      } else if tag.Strong? {
        strongDepth := strongDepth + 1;
      } else if tag.TableHead? {
        table := table.(inHead := true);
      } else if tag.TableRow? {
        table := table.(row := []);
      } else if tag.TableCell? {
        table := table.(cell := []);
      }
    }

    method HandleStartTable(columns: nat)
      modifies this
      ensures State() == StepStart(old(State()), Tag.Table(columns))
    {
      table := TableState(true, table.inHead, columns, [], [], []);
    }

    method HandleStartCodeBlock(kind: CodeBlockKind)
      modifies this
      ensures State() == StepStart(old(State()), CodeBlock(kind))
    {
      inCodeBlock := true;
      codeBlockBuf := [];
      match kind {
        case Fenced(info) => codeBlockLang := if info == "" then None else Some(info);
        case Indented => codeBlockLang := None;
      }
    }

    method HandleStartList(start: Option<nat>)
      modifies this
      ensures State() == StartList(old(State()), start)
    {
      FlushOpenListItem();
      listDepth := listDepth + 1;
      match start {
        case Some(n) => orderedCounters := orderedCounters + [n];
        case None => orderedCounters := orderedCounters + [0];
      }
      if listDepth == 1 && !lastWasBlank {
        output := output + NEWLINE;
      }
      assert State() == StartList(old(State()), start);
    }

    method HandleStartItem(id: int)
      modifies this
      ensures State() == StartItem(old(State()), id)
    {
      var indent := 2 * SaturatingSub(listDepth, 1);
      var last := |orderedCounters| - 1;
      var counter := if last >= 0 then orderedCounters[last] else 0;
      var prefix, width;
      if counter > 0 {
        orderedCounters := orderedCounters[last := counter + 1];
        prefix := Spaces(indent) + [Mark(counter, id)];
        width := indent + |Digits(counter)| + 2;
      } else {
        prefix := Spaces(indent) + [Mark(0, id)] + [Chrome(' ')];
        width := indent + 2;
      }
      listItemStack := listItemStack + [Frame(prefix, width, [], false)];
    }

    method HandleEnd(end: TagEnd)
      modifies this
      ensures State() == StepEnd(style, old(State()), end)
    {
      match end {
        case HeadingEnd => HandleEndHeading();
        case ParagraphEnd => HandleEndParagraph();
        case CodeBlockEnd => HandleEndCodeBlock();
        case ListEnd => HandleEndList();
        case ItemEnd => HandleEndItem();
        case BlockQuoteEnd => HandleEndBlockQuote();
        case EmphasisEnd => emphasisDepth := SaturatingSub(emphasisDepth, 1);
        case StrongEnd => strongDepth := SaturatingSub(strongDepth, 1);
        case TableEnd => HandleEndTable();
        case TableHeadEnd => table := table.(inHead := false);
        case TableRowEnd => HandleEndTableRow();
        case TableCellEnd =>
          table := table.(row := table.row + [table.cell], cell := []);
        case _ =>
      }
    }

    method HandleEndParagraph()
      modifies this
      ensures State() == StepEnd(style, old(State()), ParagraphEnd)
    {
      if !InListItem() && !inBlockQuote {
        output := output + NEWLINE;
        lastWasBlank := true;
      }
    }

    method HandleEndList()
      modifies this
      ensures State() == StepEnd(style, old(State()), ListEnd)
    {
      listDepth := SaturatingSub(listDepth, 1);
      orderedCounters := orderedCounters[..SaturatingSub(|orderedCounters|, 1)];
      lastWasBlank := true;
    }

    method HandleEndTable()
      modifies this
      ensures State() == EndTable(style, old(State()))
    {
      table := table.(inTable := false);
      RenderTable();
    }

    method HandleEndTableRow()
      modifies this
      ensures State() == old(State()).(table := EndTableRow(old(table)))
    {
      if table.cell != [] {
        table := table.(row := table.row + [table.cell], cell := []);
      }
      if table.row != [] {
        table := table.(rows := table.rows + [table.row], row := []);
      }
    }

    method HandleEndHeading()
      modifies this
      ensures State() == StepEnd(style, old(State()), HeadingEnd)
    {
      inHeading := false;
      var text := headingBuf;
      headingBuf := [];
      output := output + HeadingLines(headingLevel, text);
      lastWasBlank := false;
    }

    method HandleEndCodeBlock()
      modifies this
      ensures State() == StepEnd(style, old(State()), CodeBlockEnd)
    {
      inCodeBlock := false;
      var code, lang := codeBlockBuf, codeBlockLang;
      codeBlockBuf := [];
      codeBlockLang := None;
      RenderCodeBlock(code, lang);
      assert output == old(output) + CodeLines(old(codeBlockLang), old(codeBlockBuf));
      lastWasBlank := false;
    }

    method HandleEndItem()
      modifies this
      ensures State() == EndItem(old(State()))
    {
      if InListItem() {
        var item := listItemStack[|listItemStack| - 1];
        listItemStack := listItemStack[..|listItemStack| - 1];
        if item.content != [] || !item.emitted {
          RenderListItem(item);
        }
      }
    }

    method HandleEndBlockQuote()
      modifies this
      ensures State() == StepEnd(style, old(State()), BlockQuoteEnd)
    {
      inBlockQuote := false;
      var text := blockQuoteBuf;
      blockQuoteBuf := [];
      WriteLines(QUOTE_OPEN, Lines(text), QUOTE_CLOSE);
      lastWasBlank := false;
    }

    method HandleText(text: seq<Letter>)
      modifies this
      ensures State() == StepText(old(State()), text)
    {
      if table.inTable {
        table := table.(cell := table.cell + Inked(text));
        return;
      }
      if inCodeBlock {
        codeBlockBuf := codeBlockBuf + Inked(text);
        return;
      }
      if inHeading {
        headingBuf := headingBuf + Inked(text);
        return;
      }
      if inBlockQuote {
        blockQuoteBuf := blockQuoteBuf + Inked(text);
        return;
      }
      if InListItem() {
        AppendListItemSegment(ApplyInlineStyle(text));
        return;
      }
      output := output + ApplyInlineStyle(text);
      lastWasBlank := false;
    }

    method HandleInlineCode(code: seq<Letter>)
      modifies this
      ensures State() == StepCode(old(State()), code)
    {
      if table.inTable {
        table := table.(cell := table.cell + InlineCode(code));
        return;
      }
      if inHeading {
        headingBuf := headingBuf + Inked(code);
        return;
      }
      if inBlockQuote {
        blockQuoteBuf := blockQuoteBuf + InlineCode(code);
        return;
      }
      var rendered := Styled(CodeFace, InlineCode(code));
      if InListItem() {
        AppendListItemSegment(rendered);
      } else {
        output := output + rendered;
      }
      lastWasBlank := false;
    }

    method HandleSoftBreak()
      modifies this
      ensures State() == StepSoftBreak(old(State()))
    {
      if table.inTable {
        table := table.(cell := table.cell + BLANK);
      } else if inCodeBlock {
        codeBlockBuf := codeBlockBuf + NEWLINE;
      } else if inHeading {
        headingBuf := headingBuf + BLANK;
      } else if inBlockQuote {
        blockQuoteBuf := blockQuoteBuf + NEWLINE;
      } else if InListItem() {
        AppendListItemSegment(NEWLINE);
      } else {
        output := output + NEWLINE;
      }
    }

    method HandleHardBreak()
      modifies this
      ensures State() == StepHardBreak(old(State()))
    {
      if table.inTable {
        table := table.(cell := table.cell + BLANK);
      } else if inCodeBlock {
        codeBlockBuf := codeBlockBuf + NEWLINE;
      } else if InListItem() {
        AppendListItemSegment(NEWLINE);
      } else {
        output := output + NEWLINE;
      }
    }

    method HandleRule()
      modifies this
      ensures State() == Step(style, old(State()), Rule)
    {
      output := output + RuleLine(style.width);
      lastWasBlank := true;
    }

    method RenderTable()
      modifies this`output, this`lastWasBlank
      ensures !old(table.inTable) ==> State() == EndTable(style, old(State()))
    {
      var drawn := DrawTable(style.charWidth, style.width, table.rows, table.columns);
      if drawn != [] {
        output := output + drawn;
        lastWasBlank := true;
      }
    }

    function ApplyInlineStyle(text: seq<Letter>): Line
      reads this
    {
      InlineStyled(State(), text)
    }

    predicate InListItem()
      reads this
    {
      listItemStack != []
    }

    method AppendListItemSegment(text: Line)
      modifies this
      ensures State() == AppendToItem(old(State()), text)
    {
      if InListItem() {
        var top := |listItemStack| - 1;
        var item := listItemStack[top];
        listItemStack := listItemStack[top := item.(content := item.content + text)];
      }
    }

    method FlushOpenListItem()
      modifies this
      ensures State() == FlushItem(old(State()))
    {
      if !InListItem() {
        return;
      }
      var top := |listItemStack| - 1;
      var item := listItemStack[top];
      if item.emitted || item.content == [] {
        return;
      }
      listItemStack := listItemStack[top := item.(content := [], emitted := true)];
      RenderListItem(item);
    }

    method RenderListItem(item: Frame)
      modifies this
      ensures State() == RenderItem(old(State()), item)
    {
      var lines := Split(item.content);
      output := output + ItemHead(item, lines[0]);
      WriteLines(MARGIN + Spaces(item.prefixWidth), lines[1..], NEWLINE);
      lastWasBlank := false;
    }

    method RenderCodeBlock(code: Line, lang: Option<string>)
      modifies this`output
      ensures output == old(output) + CodeLines(lang, code)
    {
      output := output + CodeHeader(lang);
      WriteLines(CODE_OPEN, Lines(code), CODE_CLOSE);
      output := output + CODE_FOOTER;
      assert output == old(output) + (CodeHeader(lang) + Wrapped(CODE_OPEN, Lines(code), CODE_CLOSE) + CODE_FOOTER);
    }

    /** One line after the other, each between the same decoration. */
    method WriteLines(before: Line, lines: seq<Line>, after: Line)
      modifies this`output
      ensures output == old(output) + Wrapped(before, lines, after)
    {
      var rest := lines;
      while rest != []
        invariant output + Wrapped(before, rest, after) == old(output) + Wrapped(before, lines, after)
        decreases |rest|
      {
        output := output + (before + rest[0] + after);
        rest := rest[1..];
      }
    }
  }
}
