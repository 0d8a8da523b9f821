/** A shape of documents whose texts are shown in order, at any nesting depth of lists. */
module DocumentOrder {
  import opened Seqs
  import opened Glyphs
  import opened RendererModel
  import opened RendererLedger
  import opened RendererNesting
  import opened RendererTrack
  import opened RendererHeld
  import opened RendererSource
  import opened RendererOrder
  import opened Documents

  // ---- The shape ----

  predicate IsSpan(tag: Tag) {
    tag.Emphasis? || tag.Strong? || tag.Strikethrough? || tag.Link? || tag.OtherTag?
  }

  /** Text, inline code and breaks, possibly emphasised or linked. */
  predicate Inline(node: Node)
    decreases node, 1
  {
    match node
    case Leaf(event) => !event.Start? && !event.End? && event != Rule
    case Elem(tag, kids) => IsSpan(tag) && InlineAll(kids)
  }

  predicate InlineAll(nodes: seq<Node>)
    decreases nodes, 0
  {
    nodes == [] || (Inline(nodes[0]) && InlineAll(nodes[1..]))
  }

  predicate TextBlock(node: Node) {
    Inline(node) || (node.Elem? && node.tag == Paragraph && InlineAll(node.kids))
  }

  predicate TextBlocks(nodes: seq<Node>) {
    nodes == [] || (TextBlock(nodes[0]) && TextBlocks(nodes[1..]))
  }

  /** Inline text and paragraphs, and at most one nested list among them. */
  predicate ItemContent(nodes: seq<Node>, listAllowed: bool)
    decreases nodes, 0
  {
    nodes == []
    || (TextBlock(nodes[0]) && ItemContent(nodes[1..], listAllowed))
    || (listAllowed && SimpleList(nodes[0]) && ItemContent(nodes[1..], false))
  }

  predicate SimpleList(node: Node)
    decreases node, 1
  {
    node.Elem? && node.tag.List? && SimpleItems(node.kids)
  }

  predicate SimpleItems(nodes: seq<Node>)
    decreases nodes, 0
  {
    nodes == []
    || (nodes[0].Elem? && nodes[0].tag.Item? && ItemContent(nodes[0].kids, true) && SimpleItems(nodes[1..]))
  }

  predicate CodeText(nodes: seq<Node>) {
    nodes == [] || (nodes[0].Leaf? && nodes[0].event.Text? && CodeText(nodes[1..]))
  }

  predicate SimpleBlock(node: Node) {
    || TextBlock(node)
    || SimpleList(node)
    || node == Leaf(Rule)
    || (node.Elem? && node.tag.Heading? && InlineAll(node.kids))
    || (node.Elem? && node.tag.CodeBlock? && CodeText(node.kids))
    || (node.Elem? && node.tag.BlockQuote? && TextBlocks(node.kids))
  }

  /** List items hold inline text, paragraphs and at most one nested list each; block quotes
      hold inline text and paragraphs; headings inline text; code blocks plain text. */
  predicate SimpleDocument(nodes: seq<Node>) {
    nodes == [] || (SimpleBlock(nodes[0]) && SimpleDocument(nodes[1..]))
  }

  // ---- Stretches of orderly events ----

  function NotesAfter(stack: seq<Level>, notes: seq<Note>, events: seq<Event>): seq<Note>
    requires Nested(stack, events)
    decreases |events|
  {
    if events == [] then notes
    else NotesAfter(Next(stack, events[0]), Noted(stack, notes, events[0]), events[1..])
  }

  ghost predicate Leads(stack: seq<Level>, notes: seq<Note>, events: seq<Event>, above: seq<Level>, after: seq<Note>) {
    && OrderlyStream(stack, notes, events) && Nested(stack, events)
    && After(stack, events) == above && NotesAfter(stack, notes, events) == after
  }

  lemma {:induction false} LeadsAppend(
    stack: seq<Level>, notes: seq<Note>, a: seq<Event>, middle: seq<Level>, noted: seq<Note>,
    b: seq<Event>, above: seq<Level>, after: seq<Note>)
    requires Leads(stack, notes, a, middle, noted) && Leads(middle, noted, b, above, after)
    ensures Leads(stack, notes, a + b, above, after)
    decreases |a|
  {
    if a == [] {
      assert a + b == b;
    } else {
      assert (a + b)[1..] == a[1..] + b;
      LeadsAppend(Next(stack, a[0]), Noted(stack, notes, a[0]), a[1..], middle, noted, b, above, after);
    }
  }

  lemma LeadsOne(stack: seq<Level>, notes: seq<Note>, event: Event)
    requires Allowed(stack, event) && Orderly(stack, notes, event)
    ensures Leads(stack, notes, [event], Next(stack, event), Noted(stack, notes, event))
  {
    assert [event][1..] == [];
  }

  /** An element leads around its content if its content leads on from its start. */
  lemma ElemLeads(
    stack: seq<Level>, notes: seq<Note>, node: Node, base: seq<Level>, items: nat, noted: seq<Note>)
    requires node.Elem? && Allowed(stack, Start(node.tag)) && Orderly(stack, notes, Start(node.tag))
    requires Leads(Next(stack, Start(node.tag)), Noted(stack, notes, Start(node.tag)), EventsAll(node.kids),
                   base + [Level(node.tag, items)], noted)
    ensures Leads(stack, notes, EventsOf(node), base,
                  Noted(base + [Level(node.tag, items)], noted, End(EndOf(node.tag))))
  {
    var start, end, inner := Start(node.tag), End(EndOf(node.tag)), base + [Level(node.tag, items)];
    assert inner[..|inner| - 1] == base && inner[|inner| - 1] == Level(node.tag, items);
    LeadsOne(stack, notes, start);
    LeadsOne(inner, noted, end);
    LeadsAppend(stack, notes, [start], Next(stack, start), Noted(stack, notes, start), EventsAll(node.kids), inner, noted);
    LeadsAppend(stack, notes, [start] + EventsAll(node.kids), inner, noted, [end], base, Noted(inner, noted, end));
  }

  /** Text may make the innermost item hold something, and nothing else. */
  ghost predicate Touched(notes: seq<Note>, after: seq<Note>) {
    && |notes| == |after|
    && (notes != [] ==> after == notes[|notes| - 1 := notes[|notes| - 1].(held := after[|after| - 1].held)])
  }

  lemma SpanPlace(stack: seq<Level>, tag: Tag)
    requires IsSpan(tag) || tag == Paragraph
    ensures PlaceOf(stack + [Level(tag, 0)]) == PlaceOf(stack)
  {
    PushPlace(stack, Level(tag, 0));
  }

  lemma {:induction false} InlineLeads(stack: seq<Level>, notes: seq<Note>, node: Node) returns (after: seq<Note>)
    requires Inline(node) && PlaceOf(stack) != InListItself && PlaceOf(stack) != InCode
    ensures Leads(stack, notes, EventsOf(node), stack, after) && Touched(notes, after)
    decreases node, 1
  {
    match node {
      case Leaf(event) =>
        LeadsOne(stack, notes, event);
        after := Noted(stack, notes, event);
      case Elem(tag, kids) =>
        SpanPlace(stack, tag);
        after := InlineAllLeads(stack + [Level(tag, 0)], notes, kids);
        ElemLeads(stack, notes, node, stack, 0, after);
    }
  }

  lemma {:induction false} InlineAllLeads(stack: seq<Level>, notes: seq<Note>, nodes: seq<Node>) returns (after: seq<Note>)
    requires InlineAll(nodes) && PlaceOf(stack) != InListItself && PlaceOf(stack) != InCode
    ensures Leads(stack, notes, EventsAll(nodes), stack, after) && Touched(notes, after)
    decreases nodes, 0
  {
    if nodes == [] {
      after := notes;
    } else {
      var middle := InlineLeads(stack, notes, nodes[0]);
      after := InlineAllLeads(stack, middle, nodes[1..]);
      LeadsAppend(stack, notes, EventsOf(nodes[0]), stack, middle, EventsAll(nodes[1..]), stack, after);
    }
  }

  lemma TextBlockLeads(stack: seq<Level>, notes: seq<Note>, node: Node) returns (after: seq<Note>)
    requires TextBlock(node) && PlaceOf(stack) != InListItself && PlaceOf(stack) != InCode
    ensures Leads(stack, notes, EventsOf(node), stack, after) && Touched(notes, after)
  {
    if Inline(node) {
      after := InlineLeads(stack, notes, node);
    } else {
      SpanPlace(stack, Paragraph);
      after := InlineAllLeads(stack + [Level(Paragraph, 0)], notes, node.kids);
      ElemLeads(stack, notes, node, stack, 0, after);
    }
  }

  lemma {:induction false} TextBlocksLead(stack: seq<Level>, notes: seq<Note>, nodes: seq<Node>) returns (after: seq<Note>)
    requires TextBlocks(nodes) && PlaceOf(stack) != InListItself && PlaceOf(stack) != InCode
    ensures Leads(stack, notes, EventsAll(nodes), stack, after) && Touched(notes, after)
    decreases |nodes|
  {
    if nodes == [] {
      after := notes;
    } else {
      var middle := TextBlockLeads(stack, notes, nodes[0]);
      after := TextBlocksLead(stack, middle, nodes[1..]);
      LeadsAppend(stack, notes, EventsOf(nodes[0]), stack, middle, EventsAll(nodes[1..]), stack, after);
    }
  }

  lemma {:induction false} CodeTextLeads(stack: seq<Level>, notes: seq<Note>, nodes: seq<Node>)
    requires CodeText(nodes) && PlaceOf(stack) == InCode
    ensures Leads(stack, notes, EventsAll(nodes), stack, notes)
  {
    if nodes != [] {
      LeadsOne(stack, notes, nodes[0].event);
      CodeTextLeads(stack, notes, nodes[1..]);
      LeadsAppend(stack, notes, EventsOf(nodes[0]), stack, notes, EventsAll(nodes[1..]), stack, notes);
    }
  }

  // ---- Lists ----

  ghost predicate SameBelow(notes: seq<Note>, after: seq<Note>) {
    && |notes| == |after|
    && (notes != [] ==> notes[..|notes| - 1] == after[..|after| - 1])
  }

  function ListNotes(notes: seq<Note>): seq<Note> {
    var top := if notes == [] then Note(false, false) else notes[|notes| - 1];
    SetTop(notes, Note(false, top.shown || top.held))
  }

  lemma {:induction false} ItemContentLeads(stack: seq<Level>, notes: seq<Note>, nodes: seq<Node>, listAllowed: bool)
    returns (after: seq<Note>)
    requires ItemContent(nodes, listAllowed) && PlaceOf(stack) == InItem && notes != []
    requires listAllowed ==> !notes[|notes| - 1].shown
    ensures Leads(stack, notes, EventsAll(nodes), stack, after) && SameBelow(notes, after)
    decreases nodes, 0
  {
    if nodes == [] {
      after := notes;
    } else {
      var middle;
      if TextBlock(nodes[0]) && ItemContent(nodes[1..], listAllowed) {
        middle := TextBlockLeads(stack, notes, nodes[0]);
        after := ItemContentLeads(stack, middle, nodes[1..], listAllowed);
      } else {
        middle := ListNotes(notes);
        ListLeads(stack, notes, nodes[0]);
        after := ItemContentLeads(stack, middle, nodes[1..], false);
      }
      LeadsAppend(stack, notes, EventsOf(nodes[0]), stack, middle, EventsAll(nodes[1..]), stack, after);
    }
  }

  lemma {:induction false} ListLeads(stack: seq<Level>, notes: seq<Note>, node: Node)
    requires SimpleList(node)
    requires PlaceOf(stack) == Outside || (PlaceOf(stack) == InItem && !(MayHold(notes) && notes[|notes| - 1].shown))
    ensures Leads(stack, notes, EventsOf(node), stack, ListNotes(notes))
    decreases node, 1
  {
    ItemsLead(stack, ListNotes(notes), node.tag.start, 0, node.kids);
    ElemLeads(stack, notes, node, stack, |node.kids|, ListNotes(notes));
  }

  function ListStack(stack: seq<Level>, start: Option<nat>, n: nat): seq<Level> {
    stack + [Level(List(start), n)]
  }

  lemma StartItemStack(stack: seq<Level>, start: Option<nat>, n: nat, id: int)
    ensures var next := ListStack(stack, start, n + 1);
            && InList(ListStack(stack, start, n))
            && Next(ListStack(stack, start, n), Start(Item(id))) == next + [Level(Item(id), 0)]
            && PlaceOf(next + [Level(Item(id), 0)]) == InItem
  {
    PushPlace(ListStack(stack, start, n + 1), Level(Item(id), 0));
  }

  lemma {:induction false} ItemLeads(stack: seq<Level>, notes: seq<Note>, start: Option<nat>, n: nat, node: Node)
    requires node.Elem? && node.tag.Item? && ItemContent(node.kids, true)
    ensures Leads(ListStack(stack, start, n), notes, EventsOf(node), ListStack(stack, start, n + 1), notes)
    decreases node, 1
  {
    var next, started := ListStack(stack, start, n + 1), notes + [Note(false, false)];
    StartItemStack(stack, start, n, node.tag.id);
    var after := ItemContentLeads(next + [Level(node.tag, 0)], started, node.kids, true);
    ElemLeads(ListStack(stack, start, n), notes, node, next, 0, after);
    assert after[..|after| - 1] == started[..|started| - 1] == notes;
  }

  lemma {:induction false} ItemsLead(stack: seq<Level>, notes: seq<Note>, start: Option<nat>, n: nat, nodes: seq<Node>)
    requires SimpleItems(nodes)
    ensures Leads(ListStack(stack, start, n), notes, EventsAll(nodes), ListStack(stack, start, n + |nodes|), notes)
    decreases nodes, 0
  {
    if nodes != [] {
      ItemLeads(stack, notes, start, n, nodes[0]);
      ItemsLead(stack, notes, start, n + 1, nodes[1..]);
      LeadsAppend(ListStack(stack, start, n), notes, EventsOf(nodes[0]), ListStack(stack, start, n + 1), notes,
                  EventsAll(nodes[1..]), ListStack(stack, start, n + |nodes|), notes);
    }
  }

  // ---- Whole documents ----

  /** A block with its own buffer around content that leads back to it. */
  lemma WrappedLeads(node: Node)
    requires node.Elem? && (node.tag.Heading? || node.tag.CodeBlock? || node.tag.BlockQuote?)
    requires Leads([Level(node.tag, 0)], [], EventsAll(node.kids), [Level(node.tag, 0)], [])
    ensures Leads([], [], EventsOf(node), [], [])
  {
    var inner := [Level(node.tag, 0)];
    assert [] + inner == inner && Next([], Start(node.tag)) == inner;
    ElemLeads([], [], node, [], 0, []);
  }

  lemma BufferedBlockLeads(node: Node)
    requires SimpleBlock(node) && node.Elem? && (node.tag.Heading? || node.tag.CodeBlock? || node.tag.BlockQuote?)
    ensures Leads([], [], EventsOf(node), [], [])
  {
    var inner := [Level(node.tag, 0)];
    var after: seq<Note> := [];
    if node.tag.Heading? {
      after := InlineAllLeads(inner, [], node.kids);
    } else if node.tag.CodeBlock? {
      CodeTextLeads(inner, [], node.kids);
    } else {
      after := TextBlocksLead(inner, [], node.kids);
    }
    assert after == [];
    WrappedLeads(node);
  }

  lemma BlockLeads(node: Node)
    requires SimpleBlock(node)
    ensures Leads([], [], EventsOf(node), [], [])
  {
    if TextBlock(node) {
      var after := TextBlockLeads([], [], node);
    } else if SimpleList(node) {
      ListLeads([], [], node);
    } else if node == Leaf(Rule) {
      LeadsOne([], [], Rule);
    } else {
      BufferedBlockLeads(node);
    }
  }

  lemma {:induction false} DocumentLeads(nodes: seq<Node>)
    requires SimpleDocument(nodes)
    ensures Leads([], [], EventsAll(nodes), [], [])
  {
    if nodes != [] {
      BlockLeads(nodes[0]);
      DocumentLeads(nodes[1..]);
      LeadsAppend([], [], EventsOf(nodes[0]), [], [], EventsAll(nodes[1..]), [], []);
    }
  }

  /** In a document of that shape all letters come out in source order, through the early
      flush of items and the stack of frames, however deep its lists are nested. */
  lemma SimpleDocumentInOrder(style: Style, doc: seq<Node>)
    requires SimpleDocument(doc)
    ensures Nested([], EventsAll(doc))
    ensures Keep(Run(style, REST, EventsAll(doc)).output, false) == Keep(BroughtAll([], EventsAll(doc)), false)
  {
    DocumentLeads(doc);
    TextsComeOutInOrder(style, EventsAll(doc));
  }

  /** Any document without tables, self-nested blocks and code inside code blocks, whose letters
      (and items) are all different: its letters, and if asked for the labels n + k of its items
      among them, come out in the order of the document exactly if the scan of its events sees
      nothing overtaken. */
  lemma DocumentInOrderIff(style: Style, doc: seq<Node>, labels: bool)
    requires SoundAll(TOP, doc) && CodeOutsideCode(NOTHING_OPEN, EventsAll(doc))
    requires Distinct(Keep(ContentAll(doc, 0, 0), labels))
    ensures Keep(Run(style, REST, EventsAll(doc)).output, labels) == Keep(ContentAll(doc, 0, 0), labels)
            <==> Smooth(NOTHING_OPEN, EventsAll(doc), labels)
  {
    NodesPass(TOP, [], doc);
    SourceOrderIff(style, EventsAll(doc), labels);
  }
}
