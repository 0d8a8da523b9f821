/** A discipline under which the letters of a stream come out in the order they came in.

    Some blocks write to the output when they end (headings, code blocks, quotes) while a
    list item holds its text until it ends or a nested list opens.  The discipline notes of
    every open item whether it may hold text, and whether its label may be out, and lets no
    block open where a held text could be overtaken. */
module RendererOrder {
  import opened Seqs
  import opened Glyphs
  import opened RendererModel
  import opened RendererLedger
  import opened RendererNesting
  import opened RendererTrack
  import opened RendererHeld
  import opened RendererStreams
  import opened RendererSource

  datatype Note = Note(held: bool, shown: bool)

  datatype Place = Outside | InItem | InListItself | InHeading | InCode | InQuote

  /** The innermost block that takes text for itself. */
  function PlaceOf(stack: seq<Level>): Place {
    if stack == [] then Outside
    else
      match stack[|stack| - 1].tag
      case Item(_) => InItem
      case List(_) => InListItself
      case Heading(_) => InHeading
      case CodeBlock(_) => InCode
      case BlockQuote => InQuote
      case _ => PlaceOf(stack[..|stack| - 1])
  }

  predicate MayHold(notes: seq<Note>) {
    notes != [] && notes[|notes| - 1].held
  }

  /** A block may open outside all blocks, or in an item that holds no text; a list may also
      open after an item's first text, which it makes the item show. */
  predicate Orderly(stack: seq<Level>, notes: seq<Note>, event: Event) {
    var place := PlaceOf(stack);
    match event
    case Start(tag) =>
      if tag.Heading? || tag.CodeBlock? || tag.BlockQuote? then
        place == Outside || (place == InItem && !MayHold(notes))
      else if tag.List? then
        place == Outside || (place == InItem && !(MayHold(notes) && notes[|notes| - 1].shown))
      else true
    case Text(_) => place != InListItself
    case Code(_) => place != InListItself && place != InCode
    case SoftBreak => place != InListItself
    case HardBreak => place != InListItself
    case _ => true
  }

  function SetTop(notes: seq<Note>, top: Note): seq<Note> {
    if notes == [] then notes else notes[|notes| - 1 := top]
  }

  function TopOf(notes: seq<Note>): Note {
    if notes == [] then Note(false, false) else notes[|notes| - 1]
  }

  /** Text in an item is held by it; so is a hard break in a block inside an item. */
  function LeafNoted(place: Place, notes: seq<Note>, event: Event): seq<Note> {
    var held := SetTop(notes, TopOf(notes).(held := true));
    match event
    case Text(_) => if place == InItem then held else notes
    case Code(_) => if place == InItem then held else notes
    case SoftBreak => if place == InItem then held else notes
    case HardBreak => if place == InCode then notes else held
    case _ => notes
  }

  function StartNoted(notes: seq<Note>, tag: Tag): seq<Note> {
    if tag.Item? then notes + [Note(false, false)]
    else if tag.List? then SetTop(notes, Note(false, TopOf(notes).shown || TopOf(notes).held))
    else notes
  }

  function Noted(stack: seq<Level>, notes: seq<Note>, event: Event): seq<Note> {
    match event
    case Start(tag) => StartNoted(notes, tag)
    case End(end) => if end.ItemEnd? && notes != [] then notes[..|notes| - 1] else notes
    case _ => LeafNoted(PlaceOf(stack), notes, event)
  }

  predicate OrderlyStream(stack: seq<Level>, notes: seq<Note>, events: seq<Event>)
    decreases |events|
  {
    events == []
    || (Allowed(stack, events[0]) && Orderly(stack, notes, events[0])
        && OrderlyStream(Next(stack, events[0]), Noted(stack, notes, events[0]), events[1..]))
  }

  // ---- The stack stays tidy ----

  predicate Fits(below: Place, tag: Tag) {
    match tag
    case Item(_) => below == InListItself
    case List(_) => below == Outside || below == InItem
    case Heading(_) => below == Outside || below == InItem
    case CodeBlock(_) => below == Outside || below == InItem
    case BlockQuote => below == Outside || below == InItem
    case _ => true
  }

  predicate Tidy(stack: seq<Level>) {
    stack == []
    || (Tidy(stack[..|stack| - 1]) && Fits(PlaceOf(stack[..|stack| - 1]), stack[|stack| - 1].tag))
  }

  /** On a tidy stack at most the innermost block is a heading, code block or quote. */
  lemma {:induction false} PlaceTells(stack: seq<Level>)
    requires Tidy(stack)
    ensures var d, place := DepthsOf(stack), PlaceOf(stack);
            && d.headings == (if place == InHeading then 1 else 0)
            && d.codeBlocks == (if place == InCode then 1 else 0)
            && d.quotes == (if place == InQuote then 1 else 0)
            && (place == Outside ==> d.items == 0)
            && (place == InItem ==> d.items > 0)
  {
    if stack != [] {
      PlaceTells(stack[..|stack| - 1]);
    }
  }

  /** The innermost block after a tag opens. */
  function PlaceIn(below: Place, tag: Tag): Place {
    match tag
    case Item(_) => InItem
    case List(_) => InListItself
    case Heading(_) => InHeading
    case CodeBlock(_) => InCode
    case BlockQuote => InQuote
    case _ => below
  }

  lemma PushPlace(stack: seq<Level>, level: Level)
    ensures PlaceOf(stack + [level]) == PlaceIn(PlaceOf(stack), level.tag)
    ensures Tidy(stack + [level]) == (Tidy(stack) && Fits(PlaceOf(stack), level.tag))
  {
    assert (stack + [level])[..|stack|] == stack;
  }

  lemma BumpedPlace(stack: seq<Level>, bumped: seq<Level>)
    requires InList(stack)
    requires bumped == stack[|stack| - 1 := stack[|stack| - 1].(items := stack[|stack| - 1].items + 1)]
    ensures PlaceOf(bumped) == PlaceOf(stack) == InListItself && Tidy(bumped) == Tidy(stack)
  {
    assert bumped[..|stack| - 1] == stack[..|stack| - 1];
  }

  lemma NextPlace(stack: seq<Level>, notes: seq<Note>, event: Event)
    requires Tidy(stack) && Allowed(stack, event) && Orderly(stack, notes, event)
    ensures Tidy(Next(stack, event))
    ensures event.Start? ==>
              && Fits(PlaceOf(stack), event.tag)
              && PlaceOf(Next(stack, event)) == PlaceIn(PlaceOf(stack), event.tag)
  {
    match event {
      case Start(tag) =>
        PushPlace(stack, Level(tag, 0));
        if tag.Item? {
          var bumped := stack[|stack| - 1 := stack[|stack| - 1].(items := stack[|stack| - 1].items + 1)];
          BumpedPlace(stack, bumped);
          PushPlace(bumped, Level(tag, 0));
        }
      case _ =>
    }
  }

  /** What an end tells about the blocks inside and outside of the tag it closes. */
  ghost predicate Closes(place: Place, below: Place, end: TagEnd) {
    match end
    case HeadingEnd => place == InHeading && (below == Outside || below == InItem)
    case CodeBlockEnd => place == InCode && (below == Outside || below == InItem)
    case BlockQuoteEnd => place == InQuote && (below == Outside || below == InItem)
    case ListEnd => place == InListItself && (below == Outside || below == InItem)
    case ItemEnd => place == InItem && below == InListItself
    case _ => place == below
  }

  lemma PopPlace(stack: seq<Level>, end: TagEnd)
    requires Tidy(stack) && Allowed(stack, End(end))
    ensures Closes(PlaceOf(stack), PlaceOf(stack[..|stack| - 1]), end)
  {
  }

  // ---- The scanner follows the notes ----

  predicate HoldNoted(h: Hold, note: Note) {
    (h.filled || h.letters ==> note.held) && (h.shown ==> note.shown) && (h.letters ==> h.filled)
  }

  /** Only the innermost item can hold text. */
  predicate Follows(items: seq<Hold>, notes: seq<Note>) {
    && |notes| == |items|
    && (forall i :: 0 <= i < |notes| ==> HoldNoted(items[i], notes[i]))
    && (forall i :: 0 <= i < |notes| - 1 ==> !notes[i].held)
  }

  predicate IsBlock(place: Place) {
    place == InHeading || place == InCode || place == InQuote
  }

  predicate BufferAt(b: Buffer, here: bool) {
    b.open == here && (b.letters ==> here)
  }

  predicate TopHasLetters(items: seq<Hold>) {
    items != [] && items[|items| - 1].letters
  }

  /** The flags point at the innermost block, and while that is a list or a block with its own
      buffer the innermost item holds no letters. */
  predicate At(t: Track, place: Place, notes: seq<Note>) {
    && Follows(t.items, notes)
    && BufferAt(t.heading, place == InHeading) && BufferAt(t.code, place == InCode) && BufferAt(t.quote, place == InQuote)
    && (place == Outside ==> t.items == []) && (place == InItem ==> t.items != [])
    && (place == InListItself ==> !MayHold(notes))
    && (IsBlock(place) ==> !TopHasLetters(t.items))
  }

  predicate InStep(t: Track, stack: seq<Level>, notes: seq<Note>) {
    |t.items| == DepthsOf(stack).items && Tidy(stack) && At(t, PlaceOf(stack), notes)
  }

  /** Nothing is held below the innermost item, */
  lemma OnlyTopHolds(items: seq<Hold>, notes: seq<Note>)
    requires Follows(items, notes)
    ensures !TopOvertakes(items, false)
    ensures !TopHasLetters(items) ==> !AnyWaits(items, false)
  {
    forall i | 0 <= i < |items| - 1
      ensures !items[i].letters && items[..|items| - 1][i] == items[i]
    {
      assert HoldNoted(items[i], notes[i]);
    }
  }

  /** so an orderly event neither spills nor overtakes. */
  lemma OrderlyIsSmooth(t: Track, stack: seq<Level>, notes: seq<Note>, event: Event)
    requires Tidy(stack) && At(t, PlaceOf(stack), notes) && Allowed(stack, event) && Orderly(stack, notes, event)
    ensures !Spills(t, event) && !Overtakes(t, event, false) && !(event.Code? && t.code.open)
  {
    OnlyTopHolds(t.items, notes);
    match event {
      case End(end) => PopPlace(stack, end);
      case _ =>
    }
  }

  lemma SetTopFollows(items: seq<Hold>, notes: seq<Note>, top: Hold, note: Note)
    requires Follows(items, notes) && items != [] && HoldNoted(top, note)
    ensures Follows(items[|items| - 1 := top], SetTop(notes, note))
  {
  }

  lemma StartFollows(t: Track, place: Place, notes: seq<Note>, tag: Tag)
    requires At(t, place, notes) && Fits(place, tag) && !IsTableEvent(Start(tag))
    requires tag.Heading? || tag.CodeBlock? || tag.BlockQuote? ==> place == InItem ==> !MayHold(notes)
    requires tag.List? && place == InItem ==> !(MayHold(notes) && notes[|notes| - 1].shown)
    ensures At(ScanStart(t, tag), PlaceIn(place, tag), StartNoted(notes, tag))
  {
    assert t.items != [] ==> HoldNoted(t.items[|t.items| - 1], notes[|notes| - 1]);
    match tag {
      case Item(_) => assert Follows(t.items + [Hold(false, false, false)], notes + [Note(false, false)]);
      case List(_) => if t.items != [] { ListFollows(t, notes); }
      case _ =>
    }
  }

  lemma ListFollows(t: Track, notes: seq<Note>)
    requires Follows(t.items, notes) && t.items != [] && !(MayHold(notes) && notes[|notes| - 1].shown)
    ensures Follows(ScanStart(t, List(None)).items, SetTop(notes, Note(false, TopOf(notes).shown || TopOf(notes).held)))
  {
    var top, note := t.items[|t.items| - 1], notes[|notes| - 1];
    assert HoldNoted(top, note);
    var after := if Flushes(t.items) then Hold(false, false, true) else top;
    assert t.items[|t.items| - 1 := top] == t.items;
    SetTopFollows(t.items, notes, after, Note(false, note.shown || note.held));
  }

  lemma EndFollows(t: Track, place: Place, below: Place, notes: seq<Note>, end: TagEnd)
    requires At(t, place, notes) && Closes(place, below, end) && !IsTableEvent(End(end))
    requires (below == Outside ==> ScanEnd(t, end).items == []) && (below == InItem ==> t.items != [])
    ensures At(ScanEnd(t, end), below, if end == ItemEnd && notes != [] then notes[..|notes| - 1] else notes)
  {
  }

  lemma HeldFollows(items: seq<Hold>, notes: seq<Note>, filled: bool, letters: bool)
    requires Follows(items, notes) && (letters ==> filled)
    ensures Follows(Held(items, filled, letters), SetTop(notes, TopOf(notes).(held := true)))
  {
    if items != [] {
      var top := items[|items| - 1];
      assert HoldNoted(top, notes[|notes| - 1]);
      SetTopFollows(items, notes, top.(filled := top.filled || filled, letters := top.letters || letters),
                    TopOf(notes).(held := true));
    }
  }

  lemma LettersMeanText(text: seq<Letter>)
    ensures HasLetters(text) ==> text != []
  {
  }

  lemma LeafFollows(t: Track, place: Place, notes: seq<Note>, event: Event)
    requires At(t, place, notes) && !event.Start? && !event.End?
    requires event.Text? || event.Code? || event.SoftBreak? || event.HardBreak? ==> place != InListItself
    requires event.Code? ==> place != InCode
    ensures At(Scan(t, event), place, LeafNoted(place, notes, event))
  {
    match event {
      case Text(text) =>
        LettersMeanText(text);
        HeldFollows(t.items, notes, text != [] || t.strong > 0 || t.emphasis > 0, HasLetters(text));
      case Code(text) => HeldFollows(t.items, notes, true, HasLetters(text));
      case SoftBreak => HeldFollows(t.items, notes, true, false);
      case HardBreak => HeldFollows(t.items, notes, true, false);
      case _ =>
    }
  }

  /** Items open and close with their tags. */
  lemma StartDepth(stack: seq<Level>, tag: Tag)
    requires Allowed(stack, Start(tag))
    ensures DepthsOf(Next(stack, Start(tag))).items == DepthsOf(stack).items + (if tag.Item? then 1 else 0)
  {
    if tag.Item? {
      var bumped := stack[|stack| - 1 := stack[|stack| - 1].(items := stack[|stack| - 1].items + 1)];
      BumpedDepths(stack, bumped);
      PushDepths(bumped, Level(tag, 0));
    } else {
      PushDepths(stack, Level(tag, 0));
    }
  }

  lemma EndsAnItem(tag: Tag)
    ensures EndOf(tag) == ItemEnd <==> tag.Item?
  {
    match tag {
      case Item(_) =>
      case _ =>
    }
  }

  lemma EndDepth(stack: seq<Level>, end: TagEnd)
    requires stack != [] && EndOf(stack[|stack| - 1].tag) == end
    ensures DepthsOf(stack).items == DepthsOf(stack[..|stack| - 1]).items + (if end == ItemEnd then 1 else 0)
  {
    EndsAnItem(stack[|stack| - 1].tag);
    DeeperItems(DepthsOf(stack[..|stack| - 1]), stack[|stack| - 1]);
  }

  /** One orderly event keeps the notes right. */
  lemma StepFollows(t: Track, stack: seq<Level>, notes: seq<Note>, event: Event)
    requires InStep(t, stack, notes) && Allowed(stack, event) && !IsTableEvent(event) && Orderly(stack, notes, event)
    ensures InStep(Scan(t, event), Next(stack, event), Noted(stack, notes, event))
  {
    NextPlace(stack, notes, event);
    match event {
      case Start(tag) =>
        StartDepth(stack, tag);
        StartFollows(t, PlaceOf(stack), notes, tag);
      case End(end) =>
        EndDepth(stack, end);
        PopPlace(stack, end);
        PlaceTells(stack[..|stack| - 1]);
        EndFollows(t, PlaceOf(stack), PlaceOf(stack[..|stack| - 1]), notes, end);
      case _ => LeafFollows(t, PlaceOf(stack), notes, event);
    }
  }

  // ---- Whole streams ----

  lemma {:induction false} OrderlyStreamIsSmooth(t: Track, stack: seq<Level>, notes: seq<Note>, events: seq<Event>)
    requires InStep(t, stack, notes) && NoTables(stack)
    requires OrderlyStream(stack, notes, events) && Nested(stack, events)
    ensures Smooth(t, events, false) && CodeOutsideCode(t, events)
    decreases |events|
  {
    if events != [] {
      NextHasNoTables(stack, events[0]);
      OrderlyIsSmooth(t, stack, notes, events[0]);
      StepFollows(t, stack, notes, events[0]);
      OrderlyStreamIsSmooth(Scan(t, events[0]), Next(stack, events[0]), Noted(stack, notes, events[0]), events[1..]);
    }
  }

  /** On an orderly stream the letters come out in the order they came in. */
  lemma TextsComeOutInOrder(style: Style, events: seq<Event>)
    requires OrderlyStream([], [], events) && Nested([], events) && After([], events) == []
    ensures Keep(Run(style, REST, events).output, false) == Keep(BroughtAll([], events), false)
  {
    OrderlyStreamIsSmooth(NOTHING_OPEN, [], [], events);
    SmoothComesOutInOrder(style, events, false);
  }
}
