/** Markdown documents as trees, the event streams they give, and what the renderer makes
    of them. */
module Documents {
  import opened Seqs
  import opened Glyphs
  import opened RendererModel
  import opened RendererLedger
  import opened RendererNesting
  import opened RendererOrder

  datatype Node =
    | Leaf(event: Event)
    | Elem(tag: Tag, kids: seq<Node>)

  /** The events of a document: a tag's start, its content, its end. */
  function EventsOf(node: Node): seq<Event>
    decreases node, 1
  {
    match node
    case Leaf(event) => [event]
    case Elem(tag, kids) => [Start(tag)] + EventsAll(kids) + [End(EndOf(tag))]
  }

  function EventsAll(nodes: seq<Node>): seq<Event>
    decreases nodes, 0
  {
    if nodes == [] then [] else EventsOf(nodes[0]) + EventsAll(nodes[1..])
  }

  // ---- Documents without tables ----

  /** Which blocks are open around a place in a document. */
  datatype Around = Around(list: bool, heading: bool, code: bool, quote: bool)

  const TOP := Around(false, false, false, false)

  predicate Sound(around: Around, node: Node)
    decreases node, 1
  {
    match node
    case Leaf(event) => !around.list && !event.Start? && !event.End?
    case Elem(tag, kids) =>
      && !IsTableEvent(Start(tag))
      && around.list == tag.Item?
      && !(tag.Heading? && around.heading) && !(tag.CodeBlock? && around.code) && !(tag.BlockQuote? && around.quote)
      && SoundAll(Inside(around, tag), kids)
  }

  function Inside(around: Around, tag: Tag): Around {
    Around(tag.List?, around.heading || tag.Heading?, around.code || tag.CodeBlock?, around.quote || tag.BlockQuote?)
  }

  /** No tables; a list holds items and only a list does; headings, code blocks and block
      quotes are not opened inside one of their own kind, at any depth. */
  predicate SoundAll(around: Around, nodes: seq<Node>)
    decreases nodes, 0
  {
    nodes == [] || (Sound(around, nodes[0]) && SoundAll(around, nodes[1..]))
  }

  /** The number of the item at a position of a list: its start and the position; bullets,
      and lists that start at 0, have no numbers. */
  function ItemNumber(start: nat, position: nat): nat {
    if start > 0 then start + position else 0
  }

  /** What a document has to show: its letters, and in front of each item its label. */
  function ContentOf(node: Node, start: nat, position: nat): Line
    decreases node, 1
  {
    match node
    case Leaf(event) => Brought(event, 0)
    case Elem(tag, kids) =>
      (if tag.Item? then [Mark(ItemNumber(start, position), tag.id)] else [])
      + ContentAll(kids, if tag.List? then tag.start.GetOr(0) else 0, 0)
  }

  function ContentAll(nodes: seq<Node>, start: nat, position: nat): Line
    decreases nodes, 0
  {
    if nodes == [] then []
    else ContentOf(nodes[0], start, position) + ContentAll(nodes[1..], start, position + 1)
  }

  // ---- The stream of a document is well nested ----

  /** A stretch of events leads from one stack of open tags to another and brings `content`. */
  ghost predicate Passes(stack: seq<Level>, events: seq<Event>, above: seq<Level>, content: Line) {
    && Nested(stack, events) && Separate(stack, events)
    && After(stack, events) == above && BroughtAll(stack, events) == content
  }

  lemma {:induction false} BroughtAppend(stack: seq<Level>, a: seq<Event>, b: seq<Event>)
    requires Nested(stack, a) && Nested(After(stack, a), b) && Nested(stack, a + b)
    ensures BroughtAll(stack, a + b) == BroughtAll(stack, a) + BroughtAll(After(stack, a), b)
    decreases |a|
  {
    if a == [] {
      assert a + b == b;
    } else {
      assert (a + b)[1..] == a[1..] + b;
      BroughtAppend(Next(stack, a[0]), a[1..], b);
    }
  }

  lemma {:induction false} SeparateAppend(stack: seq<Level>, a: seq<Event>, b: seq<Event>)
    requires Nested(stack, a) && Nested(After(stack, a), b) && Nested(stack, a + b)
    requires Separate(stack, a) && Separate(After(stack, a), b)
    ensures Separate(stack, a + b)
    decreases |a|
  {
    if a == [] {
      assert a + b == b;
    } else {
      assert (a + b)[1..] == a[1..] + b;
      SeparateAppend(Next(stack, a[0]), a[1..], b);
    }
  }

  lemma PassesAppend(
    stack: seq<Level>, a: seq<Event>, middle: seq<Level>, x: Line, b: seq<Event>, above: seq<Level>, y: Line)
    requires Passes(stack, a, middle, x) && Passes(middle, b, above, y)
    ensures Passes(stack, a + b, above, x + y)
  {
    NestedAppend(stack, a, b);
    BroughtAppend(stack, a, b);
    SeparateAppend(stack, a, b);
  }

  lemma PassesOne(stack: seq<Level>, event: Event)
    requires Allowed(stack, event) && !Reopens(stack, event)
    ensures Passes(stack, [event], Next(stack, event), Brought(event, TopLabel(stack)))
  {
    assert [event][1..] == [];
    assert BroughtAll(stack, [event]) == Brought(event, TopLabel(stack)) + [];
  }

  ghost predicate Describes(around: Around, stack: seq<Level>) {
    && around.list == InList(stack)
    && (around.heading == (DepthsOf(stack).headings > 0))
    && (around.code == (DepthsOf(stack).codeBlocks > 0))
    && (around.quote == (DepthsOf(stack).quotes > 0))
  }

  function TopStart(stack: seq<Level>): nat {
    if InList(stack) then stack[|stack| - 1].tag.start.GetOr(0) else 0
  }

  function TopItems(stack: seq<Level>): nat {
    if InList(stack) then stack[|stack| - 1].items else 0
  }

  /** A list that has had some more items; anything else stays as it is. */
  function Advanced(stack: seq<Level>, n: nat): seq<Level> {
    if InList(stack) then stack[|stack| - 1 := stack[|stack| - 1].(items := stack[|stack| - 1].items + n)] else stack
  }

  lemma AdvancedDescribes(around: Around, stack: seq<Level>, n: nat)
    requires Describes(around, stack)
    ensures Describes(around, Advanced(stack, n))
    ensures TopStart(Advanced(stack, n)) == TopStart(stack)
    ensures InList(stack) ==> TopItems(Advanced(stack, n)) == TopItems(stack) + n
  {
    if InList(stack) {
      assert Advanced(stack, n)[..|stack| - 1] == stack[..|stack| - 1];
    }
  }

  lemma {:induction false} NodePasses(around: Around, stack: seq<Level>, node: Node)
    requires Sound(around, node) && Describes(around, stack)
    ensures Passes(stack, EventsOf(node), Advanced(stack, 1), ContentOf(node, TopStart(stack), TopItems(stack)))
    decreases node, 1
  {
    match node {
      case Leaf(event) => PassesOne(stack, event);
      case Elem(tag, kids) => ElemPasses(around, stack, tag, kids, node);
    }
  }

  /** The stack on which a tag is put: an item counts in its list. */
  function Below(stack: seq<Level>, tag: Tag): seq<Level> {
    if tag.Item? then Advanced(stack, 1) else stack
  }

  lemma PushDescribes(around: Around, base: seq<Level>, tag: Tag)
    requires Describes(around, base)
    ensures Describes(Inside(around, tag), base + [Level(tag, 0)])
  {
    var pushed, level := base + [Level(tag, 0)], Level(tag, 0);
    PushDepths(base, level);
    assert pushed[|pushed| - 1] == level;
    match tag {
      case Heading(_) =>
      case CodeBlock(_) =>
      case BlockQuote =>
      case _ =>
    }
  }

  lemma InsideDescribes(around: Around, stack: seq<Level>, tag: Tag)
    requires Describes(around, stack)
    ensures Describes(Inside(around, tag), Below(stack, tag) + [Level(tag, 0)])
  {
    AdvancedDescribes(around, stack, 1);
    PushDescribes(around, Below(stack, tag), tag);
  }

  lemma StartPasses(around: Around, stack: seq<Level>, node: Node)
    requires node.Elem? && Sound(around, node) && Describes(around, stack)
    ensures Passes(stack, [Start(node.tag)], Below(stack, node.tag) + [Level(node.tag, 0)],
                   if node.tag.Item? then [Mark(ItemNumber(TopStart(stack), TopItems(stack)), node.tag.id)] else [])
  {
    PassesOne(stack, Start(node.tag));
  }

  lemma EndPasses(base: seq<Level>, tag: Tag, n: nat)
    ensures Passes(Advanced(base + [Level(tag, 0)], n), [End(EndOf(tag))], base, [])
  {
    var closed := Advanced(base + [Level(tag, 0)], n);
    PassesOne(closed, End(EndOf(tag)));
    assert closed[..|closed| - 1] == base;
  }

  lemma {:induction false} ElemPasses(around: Around, stack: seq<Level>, tag: Tag, kids: seq<Node>, node: Node)
    requires node == Elem(tag, kids) && Sound(around, node) && Describes(around, stack)
    ensures Passes(stack, EventsOf(node), Advanced(stack, 1), ContentOf(node, TopStart(stack), TopItems(stack)))
    decreases node, 0
  {
    var base := Below(stack, tag);
    var inner := base + [Level(tag, 0)];
    var head := if tag.Item? then [Mark(ItemNumber(TopStart(stack), TopItems(stack)), tag.id)] else [];
    var body := ContentAll(kids, TopStart(inner), TopItems(inner));
    InsideDescribes(around, stack, tag);
    StartPasses(around, stack, node);
    NodesPass(Inside(around, tag), inner, kids);
    EndPasses(base, tag, |kids|);
    PassesAppend(stack, [Start(tag)], inner, head, EventsAll(kids), Advanced(inner, |kids|), body);
    PassesAppend(stack, [Start(tag)] + EventsAll(kids), Advanced(inner, |kids|), head + body, [End(EndOf(tag))], base, []);
    assert head + body + [] == head + body;
  }

  lemma {:induction false} NodesPass(around: Around, stack: seq<Level>, nodes: seq<Node>)
    requires SoundAll(around, nodes) && Describes(around, stack)
    ensures Passes(stack, EventsAll(nodes), Advanced(stack, |nodes|), ContentAll(nodes, TopStart(stack), TopItems(stack)))
    decreases nodes, 0
  {
    if nodes != [] {
      var next := Advanced(stack, 1);
      NodePasses(around, stack, nodes[0]);
      AdvancedDescribes(around, stack, 1);
      NodesPass(around, next, nodes[1..]);
      assert Advanced(next, |nodes| - 1) == Advanced(stack, |nodes|);
      ContentElsewhere(around, nodes[1..], TopItems(stack) + 1, TopItems(next));
      PassesAppend(stack, EventsOf(nodes[0]), next, ContentOf(nodes[0], TopStart(stack), TopItems(stack)),
                   EventsAll(nodes[1..]), Advanced(stack, |nodes|),
                   ContentAll(nodes[1..], TopStart(next), TopItems(next)));
    }
  }

  /** Outside a list positions do not matter. */
  lemma {:induction false} ContentElsewhere(around: Around, nodes: seq<Node>, p: nat, q: nat)
    requires SoundAll(around, nodes)
    ensures !around.list ==> ContentAll(nodes, 0, p) == ContentAll(nodes, 0, q)
    decreases |nodes|
  {
    if nodes != [] {
      ContentElsewhere(around, nodes[1..], p + 1, q + 1);
    }
  }

  /** For every document without tables in which no heading, code block or quote contains one
      of its own kind: every letter and every item label reaches the output exactly once, the
      item at position k of a list that starts at n >= 1 is labelled n + k whatever lists the
      items before it contain, and the renderer ends at rest. */
  lemma DocumentIsShown(style: Style, doc: seq<Node>)
    requires SoundAll(TOP, doc)
    ensures var st := Run(style, REST, EventsAll(doc));
            && multiset(Keep(st.output, true)) == multiset(Keep(ContentAll(doc, 0, 0), true))
            && AtRest(st)
  {
    NodesPass(TOP, [], doc);
    NothingLostNothingTwice(style, EventsAll(doc));
  }
}
