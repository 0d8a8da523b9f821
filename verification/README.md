# Verified models of the agendao command line, its web transcript check and its governance harness

This project models the parts of the repository that carry state, arithmetic or a protocol, and
proves what they keep. Verify it with `dafny verify dfyconfig.toml` (Dafny 4.11).

**The streaming Markdown renderer** (`crates/agendao-command/src/cli_markdown.rs`).
`Glyphs` makes output a sequence of glyphs in which every letter of the document knows where it
came from, so that "shown exactly once" and "shown in order" can be said; styling calls become
opaque wrappers around it. `RendererModel` says what each event does to the renderer's state, and
the class `MarkdownRenderer.Renderer` with its mutable buffers and stacks is proved to do just
that. `RendererLedger` and `RendererNesting` prove the laws over event streams: a book that balances
at every event, and a scanner of open tags that the depths, counters and frames mirror.
`RendererTrack` is a scanner that tells which buffers hold letters, `RendererHeld` says what waits
and which events write something past it. `RendererStreams` takes whole streams with tables
anywhere among the other events and says exactly when everything is shown once; `RendererLate`
says exactly when it is shown in order, with or without the labels of list items. `RendererSpills` and
`RendererSource` state both for streams of events without tables and give the inputs that fail,
`RendererOrder` gives a discipline that guarantees the order, `Documents` and `DocumentOrder` bring
all this to documents as trees, and `DocumentTables` says what becomes of a table. `RendererLines`
reads the output as letters and line ends and says what stands between two texts, `RendererBreaks`
follows them to the end of any stream, `DocumentLines` computes the lines of a document from its tree
alone, and `RendererLayout` says where lines begin and which face each letter is shown in. `TableLayout` holds
the width arithmetic, with the loops that rewrite the widths in place and draw the table proved
against it. `Streaming` is the law of
`MarkdownStreamer`: an incremental line buffer feeding a prefix transducer.

**Governance statistics and the default gate** (`scripts/task_governance_stats.py`): `Wilson` over
exact reals, `GovernanceGate` over arbitrary record lists, `GovernanceLaw` what each gate says by the
raw fields of the records.

**The GitHub run** (`crates/agendao-cli/src/github.rs`): every external call is answered from a
tape, so a statement about every tape covers every pattern of failures. `GithubRun` gives the run
as a function, `GithubRunner.Runner` as the early-returning code, `GithubRunSafety` what holds of
every trace, `GithubRunAims` where its calls go, and `GithubRunErrors` why it fails.

**The transcript check** (`apps/agendao-web/scripts/live-transcript-browser-check.py`): `SseModel`
and `SseProbe` for the event-stream parser (section 9.2.6 of the WHATWG HTML Standard, with its two
departures) and the bounded capture log, `CdpClient` for the request table.

**Recovery, permissions, provider import**: `LedgerAnchor` and `RecoveryWorkflow`
(`scripts/task_governance_workflow.py`), `PermissionWatcher` (`scripts/task_governance_ab.py`) as
steps under arbitrary interleaving. `ProviderImport` (`provider_cmd.rs` with `providers.rs`) puts
providers into a configuration and reads them back; `ProviderProfile` and `ProviderResolver`
(`profile.rs`) find the protocol profile of a provider; `ProviderArtifact` (`artifact.rs`) is the
bundle format between two projects, and `ProviderExchange` says what gets from one project into
another.

Where code and wording differ, the model follows the code:

- The comment on `MarkdownStreamer` speaks of complete Markdown blocks; the code takes complete lines.
- The requirement text of the unsupported-completion gate also asks for zero unsafe completions; the
  code checks only that the ledger count is strictly lower (the safety gate checks the rest).

Five promises are false of the code in general, and each has its exact condition below:

- A block that opens inside one of its own kind throws the outer text away: `AllShownIff`, with the
  input of `QuoteInQuoteLosesText`.
- What a list item holds, its label included, can be overtaken by a block, a table or another item
  inside it, and a label overtakes text of a quote that it stands in: `InOrderIff`, with the inputs of
  `CodeOvertakesItem` and `InnerLabelIsFirst`.
- A hard break in a heading or a quote does not separate the lines, and the paragraphs of a quote or an
  item are not separated at all: `HardBreakSeparatesIff` and `ParagraphsSeparateIff`, with the inputs of
  `HeadingLinesRunTogether`, `QuotedParagraphsRunTogether` and `ItemParagraphsRunTogether`.
- A table draws no head and cuts its cells: `TableIsShownIff`, with the inputs of `HeadIsLost` and
  `LongCellLosesText`.
- An exported provider that speaks the Anthropic protocol cannot be imported, because its shape is
  written "anthropic-messages" and read only as "messages": `TravelsIff`, with the input of
  `AnthropicStaysHome`.

The first two conditions are scans of the stream (`RendererTrack`).

## Model

| member | source | states |
|---|---|---|
| RendererLedger.StepBalances | crates/agendao-command/src/cli_markdown.rs:209-507 | In any state outside tables, whatever an event brings (letters, an item's label) is afterwards in the output, a buffer or an open item, except what the event's own buffer clearing throws away |
| RendererLedger.KeepReads | crates/agendao-command/src/cli_markdown.rs:323-385 | Reading letters and labels out of the output sees nothing of styling, indents, markers, fences and rules, and sees through heading, code, quote and item layout line by line |
| RendererNesting.StepMirrors | crates/agendao-command/src/cli_markdown.rs:222-415 | One event of a well-nested stream keeps depths, flags, counters and frames equal to those of the open tags, and none of its saturating subtractions or pops hits the bottom |
| RendererNesting.AlwaysMirrors | crates/agendao-command/src/cli_markdown.rs:222-473 | After any number of events of a well-nested table-free stream (self-nested blocks allowed) the renderer mirrors the open tags, `list_depth` equals the counter stack's height, and the next event does not underflow |
| RendererNesting.RunBalances | crates/agendao-command/src/cli_markdown.rs:209-507 | Over any well-nested stretch the book grows by exactly what the events bring less what they throw away |
| RendererNesting.EndsAtRest | crates/agendao-command/src/cli_markdown.rs:166-207 | After any well-nested stream all buffers and stacks are empty, all flags false, all depths zero |
| RendererTrack.StepIsScanned | crates/agendao-command/src/cli_markdown.rs:222-501 | Scanning an event (which of the blocks is open, which buffers and items hold letters) is what rendering it does to them |
| RendererSpills.AllShownIffNothingSpilt | crates/agendao-command/src/cli_markdown.rs:224-228 | For every well-nested table-free stream: every letter and item label reaches the output exactly once if and only if, by a scan of the events alone, no heading, code block or quote opens while one of its own kind around it holds letters |
| RendererNesting.NothingLostNothingTwice | crates/agendao-command/src/cli_markdown.rs:222-473 | When no heading, code block or quote opens inside one of its own kind, every Text and Code payload and every label reaches the output exactly once and the renderer ends at rest |
| RendererSpills.QuoteInQuoteLosesText | crates/agendao-command/src/cli_markdown.rs:291-294 | The paragraph of a block quote before a quote inside it does not come out |
| RendererHeld.StepKeepsOrder | crates/agendao-command/src/cli_markdown.rs:222-501 | What is out, followed by what items (with the labels not yet out), quote, heading and code block hold, is what came so far in source order; an event that neither spills nor overtakes adds what it brings at the end |
| RendererHeld.FlushKeepsOrder | crates/agendao-command/src/cli_markdown.rs:634-650 | The early flush of an open item keeps the order unless an item around it still holds letters, or a label that is followed |
| RendererHeld.OvertakingJumps | crates/agendao-command/src/cli_markdown.rs:222-415 | An event that overtakes, other than the begin of an item, writes something at once although something earlier is held |
| RendererStreams.AllShownIff | crates/agendao-command/src/cli_markdown.rs:222-415 | For every stream, well nested but for tables, which may stand anywhere (in items, quotes, headings): every letter of every text, inline code and cell and every item label reaches the output exactly once if and only if no heading, code block or quote opens while one of its own kind around it holds letters, no table has letters in its head, and every cell fits its column |
| RendererStreams.GridPass | crates/agendao-command/src/cli_markdown.rs:303-415 | From any state a whole table changes nothing but the output, which grows by its drawing, and the blank flag |
| RendererStreams.SmoothIsInOrder | crates/agendao-command/src/cli_markdown.rs:222-501 | A stream that loses nothing and overtakes nothing comes out in source order, whether or not its letters are different |
| RendererLate.LateLabelIsSeen | crates/agendao-command/src/cli_markdown.rs:255-294 | An item that begins while a quote, heading or code block around it holds letters is always out of order in the end: the item is closed, and its label written, before the block |
| RendererLate.InOrderIff | crates/agendao-command/src/cli_markdown.rs:222-501 | For every stream, well nested but for tables, of distinct letters (and items): letters, and the labels among them if asked for, come out in source order if and only if nothing is lost and no heading, code block, quote, table, nested item or label is written while an earlier letter or label waits |
| RendererSource.SourceOrderIff | crates/agendao-command/src/cli_markdown.rs:222-501 | The same for streams without tables, by a scan of the events alone |
| RendererSource.CodeOvertakesItem | crates/agendao-command/src/cli_markdown.rs:355-373 | In a list item of some text and a code block the code comes out before the text |
| RendererSource.InnerLabelIsFirst | crates/agendao-command/src/cli_markdown.rs:634-663 | In a list item that begins with a list the label of the inner item comes out before that of the outer one |
| RendererOrder.OrderlyStreamIsSmooth | crates/agendao-command/src/cli_markdown.rs:222-501 | Opening blocks only where the innermost item may hold no text, and lists only where its label may still be flushed, is enough for the scan to find nothing |
| RendererOrder.TextsComeOutInOrder | crates/agendao-command/src/cli_markdown.rs:222-501 | On every such stream the letters come out in the order they came in |
| Documents.NodesPass | crates/agendao-command/src/cli_markdown.rs:253-290 | The stream of a document is well nested and brings, in order, its letters and in front of each item its number, counted by the item's position in its own list |
| Documents.DocumentIsShown | crates/agendao-command/src/cli_markdown.rs:253-290 | Every letter of a document and every item marker is shown exactly once; item k of a list starting at n >= 1 is labelled n + k whatever lists the earlier items contain |
| DocumentOrder.DocumentInOrderIff | crates/agendao-command/src/cli_markdown.rs:222-501 | A document without tables, self-nested blocks and code inside code blocks, of distinct letters (and items), comes out in its own order, the labels n + k among the letters if asked for, if and only if the scan of its events finds nothing overtaken |
| DocumentOrder.SimpleDocumentInOrder | crates/agendao-command/src/cli_markdown.rs:634-663 | If list items hold inline text, paragraphs and at most one nested list, and quotes inline text and paragraphs, all letters come out in source order at any nesting depth |
| RendererLines.SoftBreakSeparates | crates/agendao-command/src/cli_markdown.rs:475-489 | In every state, two texts with a soft break between them are put where text goes (cell, code, heading, quote, item or page) with a line end between them, or with a blank in a heading or a cell, and nothing else changes |
| RendererLines.HardBreakSeparatesIff | crates/agendao-command/src/cli_markdown.rs:491-501 | A hard break separates them in the same way if and only if the text does not go to a heading or a quote; there the texts stand side by side and the line end goes to the item or page around |
| RendererLines.TextsAreClose | crates/agendao-command/src/cli_markdown.rs:417-446 | In every state, two texts with nothing between them are put side by side |
| RendererLines.ParagraphsSeparateIff | crates/agendao-command/src/cli_markdown.rs:229-350 | Two paragraphs one after the other are separated by a line end on the page, after a gap unless there was one, and in items and quotes stand side by side |
| RendererLines.NoGapInside | crates/agendao-command/src/cli_markdown.rs:229-237 | In items, headings and quotes a paragraph begins without a gap, in any state |
| RendererBreaks.BreaksAreSeen | crates/agendao-command/src/cli_markdown.rs:475-501 | In every stream that loses no letters, with tables or without, two texts with a break between them stand in the final output with a line end (in a heading a blank) between them, whatever held them and whatever comes before and after; but for hard breaks in headings and quotes, whose texts stand side by side |
| RendererBreaks.NothingComesBetween | crates/agendao-command/src/cli_markdown.rs:417-446 | In every such stream two texts with nothing between them stand side by side in the final output |
| DocumentLines.PageIsWritten | crates/agendao-command/src/cli_markdown.rs:222-507 | A document of paragraphs, headings, code, quotes of text, rules and lists whose items hold any of these at any depth comes out, letter by letter and line end by line end, as a recursive reading of its tree says that knows no buffers, depths or flushes |
| DocumentLines.QuotedParagraphsRunTogether | crates/agendao-command/src/cli_markdown.rs:229-374 | The two paragraphs of a quote come out as one |
| DocumentLines.ItemParagraphsRunTogether | crates/agendao-command/src/cli_markdown.rs:229-350 | The two paragraphs of a list item come out as one |
| DocumentLines.HeadingLinesRunTogether | crates/agendao-command/src/cli_markdown.rs:491-501 | The two lines of a heading come out as one, the line end between them ahead of it |
| RendererLayout.ItemIsAligned | crates/agendao-command/src/cli_markdown.rs:265-290 | Whatever an item will hold, its text begins in one column on all its lines: behind the margin, two columns for every level and the label, and behind as many blanks where the label is not |
| RendererLayout.TextWears | crates/agendao-command/src/cli_markdown.rs:448-473 | Text on the page and in items is bold in strong spans, else emphasised in emphasis, else plain, and inline code is in its own face; no face stays on |
| RendererLayout.TextLooks | crates/agendao-command/src/cli_markdown.rs:417-473 | Wherever text goes it looks as it is, and inline code stands between back quotes, in a heading without them |
| RendererLayout.BlocksWear | crates/agendao-command/src/cli_markdown.rs:323-385 | After any run, what the end of a heading, code block or quote writes has all its letters in the face of that block, on every line, and leaves no face on |
| RendererLayout.HeadingAndRuleLook | crates/agendao-command/src/cli_markdown.rs:326-344 | On the screen a heading is its level in hashes, a blank and its text between line ends; a rule is as wide as the screen, at most 72 |
| RendererLayout.QuoteLooks | crates/agendao-command/src/cli_markdown.rs:364-374 | Every line of a quote stands behind the bar |
| RendererLayout.CodeLooks | crates/agendao-command/src/cli_markdown.rs:665-684 | Every line of a code block stands in the margin between two fences, the first with the language |
| DocumentTables.RunTable | crates/agendao-command/src/cli_markdown.rs:303-318 | A table's events collect exactly the body rows that have cells and then draw them |
| DocumentTables.TableShowsBody | crates/agendao-command/src/cli_markdown.rs:392-412 | A table adds to the output the drawing of its body rows and nothing of its head, and what comes next needs no gap if anything was drawn |
| DocumentTables.TableIsShownIff | crates/agendao-command/src/cli_markdown.rs:303-412 | Every letter of a table, shrunk or not, comes out exactly once if and only if its head has none and every body cell fits its column: it is no wider than the column less its two blanks, or its part up to the last letter is no wider than that less the ellipsis |
| DocumentTables.HeadIsLost | crates/agendao-command/src/cli_markdown.rs:303-318 | A table headed "h" without rows leaves the output as it was |
| DocumentTables.LongCellLosesText | crates/agendao-command/src/cli_markdown.rs:533-591 | A table with one cell of eighty letters loses some on every screen |
| MarkdownRenderer.Renderer.constructor | crates/agendao-command/src/cli_markdown.rs:167-192 | A new renderer is at rest with empty output |
| MarkdownRenderer.Renderer.Push | crates/agendao-command/src/cli_markdown.rs:194-203 | Handling the events one after the other gives the state of the event machine's run |
| MarkdownRenderer.Renderer.HandleEvent | crates/agendao-command/src/cli_markdown.rs:209-220 | Each event does to the fields what the machine's step does to the state |
| MarkdownRenderer.Renderer.HandleStart | crates/agendao-command/src/cli_markdown.rs:222-321 | The start of every tag, with its flags, buffers, counters and frames |
| MarkdownRenderer.Renderer.HandleStartItem | crates/agendao-command/src/cli_markdown.rs:265-290 | The prefix, its width and the counter step of a list item |
| MarkdownRenderer.Renderer.HandleEnd | crates/agendao-command/src/cli_markdown.rs:323-415 | The end of every tag, with what it writes and resets |
| MarkdownRenderer.Renderer.HandleText | crates/agendao-command/src/cli_markdown.rs:417-446 | Text goes to the table cell, code, heading, quote, item or output, in that order of precedence |
| MarkdownRenderer.Renderer.HandleInlineCode | crates/agendao-command/src/cli_markdown.rs:448-473 | Inline code, with back quotes everywhere but in headings |
| MarkdownRenderer.Renderer.HandleSoftBreak | crates/agendao-command/src/cli_markdown.rs:475-489 | A soft break is a blank, a line end in the block's buffer, or a line end of the output |
| MarkdownRenderer.Renderer.HandleHardBreak | crates/agendao-command/src/cli_markdown.rs:491-501 | A hard break passes by the heading and quote buffers |
| MarkdownRenderer.Renderer.RenderTable | crates/agendao-command/src/cli_markdown.rs:509-612 | Drawing the collected rows leaves the state that ending the table gives |
| MarkdownRenderer.Renderer.FlushOpenListItem | crates/agendao-command/src/cli_markdown.rs:634-650 | The innermost item's content is written once with its marker; the frame then holds nothing and counts as shown |
| MarkdownRenderer.Renderer.RenderListItem | crates/agendao-command/src/cli_markdown.rs:652-663 | The marker goes before the first line unless it is already out; other lines are indented by its width |
| MarkdownRenderer.Renderer.RenderCodeBlock | crates/agendao-command/src/cli_markdown.rs:665-684 | Fence, language, each line of the code, fence |
| TableLayout.Measured | crates/agendao-command/src/cli_markdown.rs:524-531 | A column is as wide as its widest cell plus two, and three if none is wider: both bounds, attained |
| TableLayout.ColumnCount | crates/agendao-command/src/cli_markdown.rs:513-519 | The number of columns is the least that covers every row and every alignment |
| TableLayout.ShrunkOne | crates/agendao-command/src/cli_markdown.rs:540-542 | Shrinking keeps each column between min(old, 5) and old |
| TableLayout.ShrunkNearShares | crates/agendao-command/src/cli_markdown.rs:538-543 | The shrunk widths add up to at most the proportional shares plus five for every column whose share is below five |
| TableLayout.ShrunkFits | crates/agendao-command/src/cli_markdown.rs:533-543 | The table line exceeds max(min(width,72), borders) by at most five per column whose proportional share fell below five |
| TableLayout.FrameFits | crates/agendao-command/src/cli_markdown.rs:533-557 | With the limit written out (the screen's width, at least 1 and at most 72) and the room the borders leave of it: columns that fit the room keep their measures and the frame is within the limit; others divide the room in proportion, and the frame exceeds the limit, or the borders alone, by at most five for every column whose share is below five |
| TableLayout.BorderWidth | crates/agendao-command/src/cli_markdown.rs:545-557 | A border line is as wide as its columns and one bar more than there are columns |
| TableLayout.VisibleIsLongest | crates/agendao-command/src/cli_markdown.rs:576-588 | What is kept of a cell that does not fit is its longest prefix within the budget, short of it by less than the next character's width |
| TableLayout.CutIsShort | crates/agendao-command/src/cli_markdown.rs:573-591 | A cut cell falls short by at most one column, and by none if all its characters are narrow |
| TableLayout.RowWidth | crates/agendao-command/src/cli_markdown.rs:560-597 | A row line's width is the border's less what its cut cells fall short, for sparse rows too |
| TableLayout.TableAligned | crates/agendao-command/src/cli_markdown.rs:545-597 | No row is wider than the border, rows of narrow characters are exactly as wide, and the border keeps the bound of the shrinking |
| TableLayout.TableKeepsRows | crates/agendao-command/src/cli_markdown.rs:599-610 | Every table, shrunk or not, shows of its rows just what each column shows of its cell, in order |
| TableLayout.TableShowsAllIff | crates/agendao-command/src/cli_markdown.rs:560-610 | A table never shows more letters than its rows have, and all of them, in order, exactly if every cell fits the shrunk width of its column |
| TableLayout.FitsIff | crates/agendao-command/src/cli_markdown.rs:571-591 | A cell loses no letter if and only if it fits between the blanks of its column, or its part up to the last letter fits before the ellipsis |
| TableLayout.UnshrunkFits | crates/agendao-command/src/cli_markdown.rs:533-536 | In a table whose measured columns are within the budget every cell fits |
| TableLayout.MeasureColumns | crates/agendao-command/src/cli_markdown.rs:525-531 | The two loops over the widths array leave the measure of every column |
| TableLayout.ShrinkColumns | crates/agendao-command/src/cli_markdown.rs:534-543 | The loop over the widths array leaves the shrunk width of every column |
| TableLayout.CutCell | crates/agendao-command/src/cli_markdown.rs:575-588 | The loop over a cell's characters keeps the longest prefix that fits |
| TableLayout.DrawRow | crates/agendao-command/src/cli_markdown.rs:560-597 | The row loop writes the cells, padded or cut, between bars |
| TableLayout.DrawTable | crates/agendao-command/src/cli_markdown.rs:509-612 | Measuring, shrinking and drawing give the table; nothing for no rows or no columns |
| Streaming.CompleteLinesIsLongest | crates/agendao-command/src/cli_markdown.rs:77-103 | What is taken is the longest prefix of whole lines; no line end stays behind |
| Streaming.OutputIsOnePass | crates/agendao-command/src/cli_markdown.rs:47-127 | For every series of push and finish calls the joined outputs are one pass of the prefix transducer over the shown pieces, and the carried line-start flag is the transducer's |
| Streaming.PiecesPartition | crates/agendao-command/src/cli_markdown.rs:47-103 | The pieces rendered and what is still held are the deltas, nothing twice and nothing dropped |
| Streaming.PushedPieceIsWholeLines | crates/agendao-command/src/cli_markdown.rs:77-103 | Every piece a push renders ends in a line end or is empty |
| Streaming.RestHasNoLine | crates/agendao-command/src/cli_markdown.rs:58-103 | After a push no complete line is held; after a finish nothing is |
| Streaming.PlainStreamIsWholeText | crates/agendao-command/src/cli_markdown.rs:47-127 | In plain mode any cutting into deltas with finishes in between, ending in one, gives the transducer's output on the whole text |
| Streaming.ColourStreamIsDrawnByPieces | crates/agendao-command/src/cli_markdown.rs:47-103 | In colour the output is one pass of the transducer over the drawings of the pieces, and the pieces cut the text just after its last line end at a push and at its end at a finish |
| Streaming.PrefixedByLines | crates/agendao-command/src/cli_markdown.rs:105-127 | The transducer line by line: a line goes behind the prefix if it starts a line and is not empty, the first only if the flag says so |
| Streaming.StripUndoesPrefix | crates/agendao-command/src/cli_markdown.rs:105-127 | Taking the prefix off again gives the text back, for every prefix that does not start with a line end |
| Streaming.PrefixedIsInjective | crates/agendao-command/src/cli_markdown.rs:105-127 | For every prefix whatever, two texts with the same prefixed output are the same |
| MarkdownStreamer.Streamer.PushDelta | crates/agendao-command/src/cli_markdown.rs:47-55 | The buffer, the rendered mark and the flag move as the law's push does, and its output comes back |
| MarkdownStreamer.Streamer.FinishText | crates/agendao-command/src/cli_markdown.rs:58-72 | The same for the finish |
| MarkdownStreamer.Streamer.TakeCompleteLines | crates/agendao-command/src/cli_markdown.rs:95-103 | Scanning back for the last line end takes the complete lines and moves the mark past them |
| MarkdownStreamer.Streamer.Render | crates/agendao-command/src/cli_markdown.rs:90-92 | A piece is rendered by a new renderer of its own |
| MarkdownStreamer.Streamer.ApplyContinuationPrefix | crates/agendao-command/src/cli_markdown.rs:105-127 | The loop with its carried flag computes the transducer, with and without a prefix |
| Wilson.ClampsNeverBind | scripts/task_governance_stats.py:21-30 | In exact arithmetic 0 <= lo <= s/n <= hi <= 1, so the clamps change nothing |
| Wilson.FailuresMirror | scripts/task_governance_stats.py:21-30 | The interval of the failures is the mirror image of that of the successes |
| Wilson.BoundsMonotone | scripts/task_governance_stats.py:21-30 | Both bounds are non-decreasing in the number of successes |
| Wilson.ScoreInterval | scripts/task_governance_stats.py:21-30 | The interval is exactly the set of rates x with (x - s/n)^2 <= z^2 x(1-x)/n: it inverts the score test |
| GovernanceGate.DecideDefault | scripts/task_governance_stats.py:76-146 | Filling the gate table step by step gives the five gates, fails exactly on the records named below, and enables exactly if all pass |
| GovernanceGate.DecideFailsIff | scripts/task_governance_stats.py:76-146 | The decision fails if and only if both recovery arms have a record without binding violation and no such record of the control knows whether it recovered, or none of the ledger whether it recovered, or none of the ledger whether its state was restored |
| GovernanceLaw.EnablesIff | scripts/task_governance_stats.py:76-146 | By the raw fields alone: the gate enables if and only if no record is unsafe, long tasks and recoveries improve by a twentieth in whole numbers, restorations are known and none failed, rounded mean time and tokens of short tasks are known and at most 6/5 of the control's, and there are strictly fewer unsupported completions |
| GovernanceLaw.DecisionTells | scripts/task_governance_stats.py:76-146 | Whenever there is a decision, each gate is inconclusive, met or not met exactly as the raw fields of the records without binding violations say, and the safety gate as those of all records do |
| GovernanceLaw.RoundsToTheNearest | scripts/task_governance_stats.py:76-146 | Means are rounded to the nearest tenth, and to the even one of two that are equally near |
| GovernanceGate.EnablingGuarantees | scripts/task_governance_stats.py:76-146 | Enabling implies six non-empty arms, no unsafe record in any group, that the binding filter removed nothing, no known failed restoration, strictly fewer unsupported completions |
| GovernanceGate.UnsafeForbids | scripts/task_governance_stats.py:139-146 | One unsafe record of any group keeps the default off |
| GovernanceGate.DecisionReordered | scripts/task_governance_stats.py:76-146 | The decision does not depend on the order of the records |
| GithubRunSafety.InternalErrorsUnreachable | crates/agendao-cli/src/github.rs:1385-1577 | Over every event and every failure pattern the internal "Missing ..." errors and the last else of the publishing phase are unreachable |
| GithubRunSafety.EffectsAreJustified | crates/agendao-cli/src/github.rs:1390-1577 | Every commit of every run follows uncommitted changes and their staging, every push a change, every new-branch push that branch's checkout, every pull request a successful push of the branch checked out; for user events all follow the permission |
| GithubRunSafety.ReactionRemovedLast | crates/agendao-cli/src/github.rs:1353-1605 | A reaction handle once obtained is deleted by exactly one call, the run's last, on success and on failure |
| GithubRunSafety.CommentsPosted | crates/agendao-cli/src/github.rs:1483-1604 | No run posts two comments; a user event that succeeds tries and posts exactly one |
| GithubRunSafety.SuccessDelivers | crates/agendao-cli/src/github.rs:1421-1569 | The converse: a run that succeeds has committed what it saw uncommitted and pushed what it saw changed, and outside pull requests it ends with a pull request if and only if something changed |
| GithubRunSafety.RunIsTidy | crates/agendao-cli/src/github.rs:1249-1608 | All of these hold of every run, as seen by any observer that follows the trace entry by entry |
| GithubRunSafety.DetectDirtyLawful | crates/agendao-cli/src/github.rs:994-1002 | A run found dirty has seen uncommitted files or two different heads |
| GithubRunSafety.PublishUserEnds | crates/agendao-cli/src/github.rs:1483-1569 | Publishing for a user event ends with its one comment, or stops before it without an internal error |
| GithubRunSafety.PrerequisitesLawful | crates/agendao-cli/src/github.rs:1309-1326 | A user event passes only with a repository, a number and a granted permission |
| GithubRunAims.CallsAreAimed | crates/agendao-cli/src/github.rs:1249-1608 | Every call of every run is aimed as the event and the answers before it say: a push to a fork names the head branch of a pull request read before, of another repository, after the remote was set to that repository; a plain push is for a pull request of the same repository; new branches, pull requests, comments, reactions and commits name what was read, prepared or asked before |
| GithubRunAims.PullRequestIsPushed | crates/agendao-cli/src/github.rs:1499-1518 | A pull-request run that succeeds and changed something has pushed to where the branch is: the fork, or else the repository itself |
| GithubRunAims.OpenedWasAnswered | crates/agendao-cli/src/github.rs:1064-1101 | A run that says it opened a pull request got the number from an answer |
| GithubRunAims.SuccessHasLooked | crates/agendao-cli/src/github.rs:1385-1577 | A run that succeeds has asked the agent and, if it knows the repository, looked afterwards whether anything changed |
| GithubRunAims.FailureIsReported | crates/agendao-cli/src/github.rs:1579-1608 | The failure of a user event is reported where it came from, at the end of the run, unless the tool itself is missing |
| GithubRunErrors.FailureHasItsReason | crates/agendao-cli/src/github.rs:1249-1608 | Every failing run has its reason: a call it needs failed, or the event is not supported, or lacks repository, number, actor or prompt, or the permission, the description of the pull request or the number of the new one is not what it needs; failed reactions, error comments and looks for a fork remote never fail a run |
| GithubRunner.Runner.Run | crates/agendao-cli/src/github.rs:1249-1608 | The early-returning code makes exactly the calls of the model's run and returns its result, so every fact above holds of it |
| GithubRunner.Runner.CheckPrerequisites | crates/agendao-cli/src/github.rs:1309-1326 | The checks in their order, the permission request last |
| GithubRunner.Runner.AddReaction | crates/agendao-cli/src/github.rs:808-840 | The reaction goes to the review comment, the issue comment or the issue; a failure gives no handle |
| GithubRunner.Runner.Prepare | crates/agendao-cli/src/github.rs:1385-1417 | Branch, base, head and pull request information, by kind of event |
| GithubRunner.Runner.DetectDirty | crates/agendao-cli/src/github.rs:994-1002 | Uncommitted files, or a head that moved |
| GithubRunner.Runner.CreatePr | crates/agendao-cli/src/github.rs:1064-1101 | An open pull request is reused, otherwise one is made |
| GithubRunner.Runner.PushToFork | crates/agendao-cli/src/github.rs:1038-1047 | The fork remote is updated or added, then pushed to |
| GithubRunner.Runner.Publish | crates/agendao-cli/src/github.rs:1421-1577 | The publishing phase with all its branches and errors |
| SseModel.ChunkingDoesNotShow | apps/agendao-web/scripts/live-transcript-browser-check.py:261-282 | Two chunkings of one stream dispatch the same events in the same order and leave the same buffer, which holds no line end |
| SseModel.TwoChunksAreOne | apps/agendao-web/scripts/live-transcript-browser-check.py:265-267 | In any state two chunks do what their concatenation does |
| SseModel.DispatchedIsClean | apps/agendao-web/scripts/live-transcript-browser-check.py:268-279 | Every event dispatched has a trimmed one-line name and data lines without leading space |
| SseModel.EncodedEventsComeBack | apps/agendao-web/scripts/live-transcript-browser-check.py:215-282 | Events written in the stream format, each line with a line feed or with carriage return and line feed, with or without a blank after its colon, come back from any chunks if and only if all of them are clean |
| SseModel.OtherLinesDoNotShow | apps/agendao-web/scripts/live-transcript-browser-check.py:268-279 | Comments and other fields anywhere in a stream change nothing |
| SseProbe.LatestOfLatest | apps/agendao-web/scripts/live-transcript-browser-check.py:203-213 | Cutting the log back after every push leaves what one cut at the end would, min(n, 5000) entries |
| SseProbe.Capture.Push | apps/agendao-web/scripts/live-transcript-browser-check.py:203-213 | The log is always the last min(n, 5000) of everything ever pushed |
| SseProbe.Parser.Flush | apps/agendao-web/scripts/live-transcript-browser-check.py:222-259 | An event with data is dispatched and, if recognised, pushed; the name is forgotten either way |
| SseProbe.Parser.TakeLine | apps/agendao-web/scripts/live-transcript-browser-check.py:268-279 | One carriage return is taken off; blank, event and data lines do their part, others nothing |
| SseProbe.Parser.TakeChunk | apps/agendao-web/scripts/live-transcript-browser-check.py:261-280 | The loop over complete lines, with what it pushes |
| SseProbe.Parser.Parse | apps/agendao-web/scripts/live-transcript-browser-check.py:261-285 | A stream pushes the recognised events and is flushed at its end; a failed one pushes the error and is not flushed |
| CdpClient.TableTells | apps/agendao-web/scripts/live-transcript-browser-check.py:89-122 | Over every interleaving ids are given out in order, pending is exactly what was issued and not answered since, done exactly what was |
| CdpClient.FirstAnswerCounts | apps/agendao-web/scripts/live-transcript-browser-check.py:97-108 | A request is completed by the first response with its id after it, and no later one counts |
| CdpClient.Client.Send | apps/agendao-web/scripts/live-transcript-browser-check.py:114-122 | Every request gets a number and a future no other has |
| CdpClient.Client.Receive | apps/agendao-web/scripts/live-transcript-browser-check.py:97-108 | Only a pending future is completed, only by the response with its number; every other future stays as it is |
| LedgerAnchor.PaddingDoesNotShow | scripts/task_governance_workflow.py:54-77 | Superseded or foreign checkpoints and closed items, at any positions and any number, leave the anchor unchanged |
| LedgerAnchor.CheckpointShows | scripts/task_governance_workflow.py:56-60 | One more checkpoint anywhere changes the anchor if and only if it is current |
| LedgerAnchor.OpenItemShows | scripts/task_governance_workflow.py:61-65 | One more open item anywhere changes the anchor if and only if it is not closed |
| LedgerAnchor.AnchorTells | scripts/task_governance_workflow.py:54-77 | Each field of the anchor read off the ledger, with what stands for an absent one; the ids are those of just the checkpoints of the generation that nothing supersedes, and of just the items that nothing closes, in order |
| LedgerAnchor.AcceptedPacketsAgree | scripts/task_governance_workflow.py:90-103 | Two packets accepted for one anchor agree on all eight fields, lists in order |
| LedgerAnchor.CarriedAnchorMatches | scripts/task_governance_workflow.py:54-103 | The packet carrying one ledger's anchor is accepted for another ledger if and only if the anchors are equal |
| LedgerAnchor.MissingPacketMatches | scripts/task_governance_workflow.py:90-103 | The ledgers for which a missing packet is accepted, exactly |
| LedgerAnchor.MissingPacketNeverMatchesNumber | scripts/task_governance_workflow.py:90-103 | With a numeric revision, or none, a missing packet never matches |
| LedgerAnchor.LastPacketIsLast | scripts/task_governance_workflow.py:80-87 | The packet taken from a history is that of the last message that carries one |
| LedgerAnchor.CarriedResponseMatches | scripts/task_governance_workflow.py:106-112 | A response that says what one ledger's anchor says is accepted for another exactly if revision, ids and next statement are the same |
| LedgerAnchor.EmptyResponseMatches | scripts/task_governance_workflow.py:106-112 | An empty response is accepted exactly where there is nothing to keep and the revision is null |
| RecoveryWorkflow.Harness.WaitIdle | scripts/task_governance_workflow.py:18-40 | True exactly when some poll is idle and an earlier one was active or it shows a finished assistant message; it stops at the first such poll and gives up only at the deadline |
| RecoveryWorkflow.Harness.WaitRecoverable | scripts/task_governance_workflow.py:43-51 | True exactly when the last poll, and none before, is recoverable and offers a resume |
| RecoveryWorkflow.Harness.AddCompactionHistory | scripts/task_governance_workflow.py:115-126 | It succeeds only with a history of ten messages or more, and fails only where a request raised or after as many notes as its bound allows with the history still short |
| RecoveryWorkflow.Harness.ResumeAndWait | scripts/task_governance_workflow.py:172-181 | One resume request, judged against the anchor, then nothing but polls, and completion is whether they settled |
| RecoveryWorkflow.Harness.RunWorkflow | scripts/task_governance_workflow.py:129-232 | Every run resumes at most once; the compacting one that does not fail has resumed, the interrupting one resumes if and only if a poll offered it, right after that poll, and otherwise has made every poll it may and reports no completion. Completion is reported exactly if the polls after the resume, from the last message before it, settled, and they go on until they settle or may not; the anchors are judged from the first ledger read, the packet and restoration from the reads after compaction. A run fails only where a request raised, the revision is no number, or the history stayed short |
| RecoveryWorkflow.SettledNext | scripts/task_governance_workflow.py:21-38 | What one more poll changes: the loop's running flag and verdict are those of the whole poll trace |
| PermissionWatcher.NeverTwice | scripts/task_governance_ab.py:86-108 | Over every interleaving, a permission whose reply got through is never replied to again |
| PermissionWatcher.CountsAddUp | scripts/task_governance_ab.py:98-105 | Between items each session's count is the number of its replies that got through and the seen ids are those replied to; the counts always sum to the number of seen ids, one short while a count is due |
| PermissionWatcher.OnlyAllowed | scripts/task_governance_ab.py:83-92 | No reply goes to a session not allowed before |
| PermissionWatcher.FailedIsRetried | scripts/task_governance_ab.py:86-108 | Going over a permission of an allowed session sends a reply if and only if none has got through |
| PermissionWatcher.PollIsGoneOver | scripts/task_governance_ab.py:76-109 | From a poll until the watcher rests its items are gone over in order with the sessions allowed when it began, whatever is allowed meanwhile: a permission of theirs is replied to unless a reply had got through, and no other is |
| PermissionWatcher.PollAnswersAll | scripts/task_governance_ab.py:76-109 | The watcher rests only when every permission of those sessions has been replied to |
| PermissionWatcher.AllowedIsWhatWasAllowed | scripts/task_governance_ab.py:67-74 | The sessions allowed, and those with a count, are exactly the ones some call allowed |
| PermissionWatcher.RunIsSound | scripts/task_governance_ab.py:54-109 | The invariant of every reachable state |
| PermissionWatcher.Watcher.Allow | scripts/task_governance_ab.py:67-70 | Allowing a session opens its count at zero and never resets one |
| PermissionWatcher.Watcher.HandleNext | scripts/task_governance_ab.py:84-97 | One item: skipped, replied to in vain, or replied to with the reply still to be noted |
| PermissionWatcher.Watcher.NoteReply | scripts/task_governance_ab.py:98 | The reply that got through is noted as seen |
| PermissionWatcher.Watcher.CountReply | scripts/task_governance_ab.py:99-103 | The count of the reply that got through |
| PermissionWatcher.Watcher.ApprovalCount | scripts/task_governance_ab.py:72-74 | The count reported is the number of replies for the session that got through, less one that is due |
| ProviderImport.Config.ApplyImported | crates/agendao-cli/src/provider_cmd.rs:86-100 | It fails if and only if some imported id has an existing entry that is not safe; on success the result is the same for every iteration order; on failure the first unsafe provider is named and just those before it are merged |
| ProviderImport.BlockedMeans | crates/agendao-cli/src/provider_cmd.rs:102-143 | Not safe is exactly: an existing entry with non-empty options, models, whitelist or blacklist |
| ProviderImport.ImportKeeps | crates/agendao-cli/src/provider_cmd.rs:145-167 | Stopped or not, an import changes only imported ids, and these keep their key and id |
| ProviderImport.ApplyEffect | crates/agendao-cli/src/provider_cmd.rs:86-100 | Going through any distinct providers merges them all, or stops at the first unsafe one with those before it merged |
| ProviderImport.OrderDoesNotMatter | crates/agendao-cli/src/provider_cmd.rs:86-100 | Whether an import succeeds, and what it then gives, is the same for every two iteration orders |
| ProviderImport.ApplyTwice | crates/agendao-cli/src/provider_cmd.rs:86-100 | Importing the same again, in any order, is never refused and changes nothing |
| ProviderImport.ConversionUndoesImport | crates/agendao-cli/src/providers.rs:108-139 | Artifact conversion gives the imported provider back if and only if it has no key, options, models or lists and no empty quirks list |
| ProviderImport.ImportReadsBack | crates/agendao-cli/src/providers.rs:88-100 | An import goes through and the configuration converts to the old one with the imported providers put in, if and only if none of them is blocked and all are portable |
| ProviderProfile.ShapeReadsBackIff | crates/agendao-provider/src/artifact.rs:277-283 | The shape label written into a configuration is read back as the same shape, except that of the Anthropic protocol, which is an unsupported value |
| ProviderProfile.QuirksReadBack | crates/agendao-provider/src/artifact.rs:300-310 | Quirk labels are read back as the quirks, each once, where it first occurs |
| ProviderResolver.ResolvesIff | crates/agendao-provider/src/profile.rs:184-287 | A description without a key has a profile if and only if it spells all four fields in values that go together, with known quirks and a supported package, or spells nothing and names a built-in provider with its package |
| ProviderResolver.ResolvedIsCoherent | crates/agendao-provider/src/profile.rs:407-434 | However it is found (spelled out, built in, or the default of a provider with a key), a profile's family, shape, usage and cache go together, its package is supported, its quirks are distinct and DeepSeek replays its thinking |
| ProviderResolver.WrittenOutResolves | crates/agendao-provider/src/profile.rs:233-287 | A description that spells out a profile resolves to it, whatever keys it has, or fails with the error of the first part that is not read back |
| ProviderArtifact.ImportEntryIff | crates/agendao-provider/src/artifact.rs:154-204 | An entry is let in if and only if its package is supported, its profile is an OpenAI-compatible one that goes together, and a DeepSeek entry has its quirk |
| ProviderArtifact.AnthropicIsRefused | crates/agendao-provider/src/artifact.rs:154-204 | Every entry of the Anthropic shape is refused, for its shape |
| ProviderArtifact.SanitizedTwice | crates/agendao-provider/src/artifact.rs:217-228 | Cleaning up a list of environment names a second time changes nothing |
| ProviderArtifact.ExportIsCanonical | crates/agendao-provider/src/artifact.rs:60-75 | What is exported is trimmed, without duplicates, and has a profile that goes together |
| ProviderArtifact.ReexportIsCanonical | crates/agendao-provider/src/artifact.rs:60-91 | An entry let in, whatever it is merged with, is exported again as its own canonical form |
| ProviderArtifact.ImportedProfileIsDeclared | crates/agendao-provider/src/artifact.rs:184-193 | In use, with whatever key the project has for it, an entry let in resolves to the profile it declares |
| ProviderArtifact.ImportedIff | crates/agendao-provider/src/artifact.rs:77-105 | A bundle is let in if and only if no id is blank, ids differ by more than case and outer space, and every entry can be let in |
| ProviderArtifact.AllPortable | crates/agendao-provider/src/artifact.rs:163-183 | Every provider that a bundle gives has no key, options, models or lists and no empty list of quirks, so that a configuration keeps it whole |
| ProviderArtifact.SanitizeEnvRefs | crates/agendao-provider/src/artifact.rs:217-228 | The loop trims, drops the blank and keeps the first of equal names |
| ProviderArtifact.ExportBundle | crates/agendao-provider/src/artifact.rs:39-58 | The entries in the order of the sorted ids, or the error of the first that cannot be exported |
| ProviderArtifact.ValidateUniqueIds | crates/agendao-provider/src/artifact.rs:93-105 | The first blank id, or the first that differs from an earlier one by case and outer space only, is refused |
| ProviderArtifact.ImportBundle | crates/agendao-provider/src/artifact.rs:77-91 | All providers of the bundle, or the first error, ids before profiles; success exactly for acceptable bundles |
| ProviderExchange.AcceptedIff | crates/agendao-cli/src/provider_cmd.rs:72-84 | An import goes through if and only if the bundle is acceptable and no id in it is blocked in the project |
| ProviderExchange.WhollyOrNotAtAll | crates/agendao-cli/src/provider_cmd.rs:72-84 | An import either leaves the project as it is or puts every provider in, and then the configuration reads back as it was with the imported providers in it |
| ProviderExchange.KeysDoNotShow | crates/agendao-cli/src/providers.rs:108-139 | Two projects that differ in keys only export the same bundle, or fail with the same error |
| ProviderExchange.KeysStayHome | crates/agendao-cli/src/provider_cmd.rs:146-167 | Whatever is imported, and whether or not it goes through, a project keeps its own keys and ids and gets none |
| ProviderExchange.NonCoreIsObstacle | crates/agendao-provider/src/artifact.rs:107-152 | Export refuses a provider for just the field for which import would refuse to overwrite it |
| ProviderExchange.ExportEntryIff | crates/agendao-provider/src/artifact.rs:60-75 | A provider is exported if and only if its id is not blank, it has no options, models or lists, and its profile resolves without a key; the entry can be let in if and only if that profile is not of the Anthropic protocol |
| ProviderExchange.TravelsIff | crates/agendao-cli/src/provider_cmd.rs:61-84 | Export and import together go through if and only if every provider can be exported, none speaks the Anthropic protocol, ids differ by more than case and outer space, and none is blocked in the target |
| ProviderExchange.ArrivesWhole | crates/agendao-provider/src/artifact.rs:39-91 | What goes through is exported from the target as the same entry as at home and has there, with any key, the profile it was exported with |
| ProviderExchange.SameBundle | crates/agendao-provider/src/artifact.rs:39-91 | A project with trimmed ids that travels to an empty one is exported from there as the very same list of entries |
| ProviderExchange.ExportableAfterIff | crates/agendao-provider/src/artifact.rs:39-58 | After an import the project can be exported as a whole if and only if what it had besides the imported providers can |
| ProviderExchange.AnthropicStaysHome | crates/agendao-provider/src/artifact.rs:277-283 | The built-in Anthropic provider is exported, and the bundle cannot be imported into any project |

## Left out

- RendererLate.InOrderIff: speaks of streams whose letters (and items) all have different identities, which is what makes an order visible, and of streams without inline code inside a code block, which the parser never emits; so do RendererSource.SourceOrderIff and DocumentOrder.DocumentInOrderIff. `RendererStreams.SmoothIsInOrder` needs no different letters.
- RendererSource.SourceOrderIff: leaves tables to RendererLate.InOrderIff, and so do the documents as trees.
- RecoveryWorkflow.Harness.AddCompactionHistory: a server that never stores the notes keeps the original loop waiting for ever; the model gives up after a bound, as if the request had raised.
- Streaming in colour mode equals rendering each flushed piece by a new renderer, not rendering the whole document; nothing is claimed about the latter.
- A list that starts at 0 is drawn with bullets; the model does the same.
- DocumentLines.PageIsWritten: leaves out tables, and headings, code blocks, quotes and lists inside headings and quotes; `RendererBreaks.BreaksAreSeen` covers breaks in those.
- Display width is additive over characters with widths 0, 1 and 2; sequences that a width library measures as a whole (emoji joined by zero-width joiners) are not.
- String positions are character positions, not byte offsets; list counters do not overflow 64 bits; counters and widths are unbounded.
- The scale factor of table shrinking, the rates, the means and the Wilson interval are exact; rounding is modelled only where the decision depends on it (means to one digit). The square root is any non-negative number with the right square.
- ANSI escapes, the Markdown parser, JSON parsing and classification, UTF-8 decoding, the clock, environment variables and the file system are opaque functions or parameters.
- GitHub: loading the event, resolving the repository from payload, environment or remote, and building prompts are inputs of the run; the several reads for prompt context are one call; texts of comments, commits and pull requests are not modelled; the `install` and `status` commands are left out.
- CDP: event listeners, cancelled futures and a websocket that refuses a message are left out.
- SSE: other field names are ignored as in the original; several streams may share one capture log, and the log's law holds for any interleaving of their pushes.
- Workflow: a request that raises ends the run; the marker file and the child process enter as two observations; timings and process output are left out.
- JSON equality across types (Python's `True == 1`) is not modelled.
- `aggregate` and `summarize` beyond the fields the gate reads, `error_fingerprints`, and the harness around them: folds that add only easy members.
- Model definitions of a provider are converted by an opaque function.
- Bundles: the version and the time of export are not modelled, nor are the message texts of errors. The sorted order of ids is a parameter (any order that lists them once; two exports that are compared use the same). The fingerprint check after the profile check is left out: fingerprints are computed from two profiles just found equal. A key inside options is not read as a credential, since both callers of the resolver here have no options.
- The HTTP client, the session, scheduler, sandbox and web components are not part of this model.
