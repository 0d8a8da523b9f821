/** The event-stream parser of the transcript check: text comes in chunks, is cut into lines,
    and the lines make up events.  The format is that of section 9.2.6 of the WHATWG HTML
    Standard, except that all leading space of a data line goes and that the end of the stream
    dispatches what is pending. */
module SseModel {
  import opened Seqs

  // ---- Text ----

  /** The white space and line ends of ECMAScript. */
  predicate IsBlank(c: char) {
    || c in "\t\n\r " || c in ['\U{000B}', '\U{000C}', '\U{00A0}', '\U{1680}', '\U{2028}', '\U{2029}']
    || '\U{2000}' <= c <= '\U{200A}' || c in ['\U{202F}', '\U{205F}', '\U{3000}', '\U{FEFF}']
  }

  function TrimStart(s: string): string {
    if s != "" && IsBlank(s[0]) then TrimStart(s[1..]) else s
  }

  function TrimEnd(s: string): string {
    if s != "" && IsBlank(s[|s| - 1]) then TrimEnd(s[..|s| - 1]) else s
  }

  function Trim(s: string): string {
    TrimEnd(TrimStart(s))
  }

  /** A text scanned so far: the lines that ended, and what follows the last line end. */
  datatype Cut = Cut(lines: seq<string>, rest: string)

  function Scan(c: Cut, ch: char): Cut {
    if ch == '\n' then Cut(c.lines + [c.rest], "") else c.(rest := c.rest + [ch])
  }

  function CutOf(text: string): Cut {
    if text == "" then Cut([], "") else Scan(CutOf(text[..|text| - 1]), text[|text| - 1])
  }

  /** All the pieces between line ends. */
  function Split(text: string): seq<string> {
    CutOf(text).lines + [CutOf(text).rest]
  }

  function Join(lines: seq<string>): string {
    if lines == [] then "" else if |lines| == 1 then lines[0]
    else Join(lines[..|lines| - 1]) + "\n" + lines[|lines| - 1]
  }

  predicate StartsWith(s: string, prefix: string) {
    |prefix| <= |s| && s[..|prefix|] == prefix
  }

  /** A line without its carriage return. */
  function Chomp(line: string): string {
    if line != "" && line[|line| - 1] == '\r' then line[..|line| - 1] else line
  }

  // ---- Events ----

  datatype Event = Event(name: Option<string>, data: string)

  /** The event being read, and the events dispatched so far. */
  datatype Reader = Reader(name: Option<string>, data: seq<string>, fired: seq<Event>)

  const IDLE := Reader(None, [], [])

  function Flush(r: Reader): Reader {
    if r.data == [] then r.(name := None) else Reader(None, [], r.fired + [Event(r.name, Join(r.data))])
  }

  function Field(r: Reader, line: string): Reader {
    if line == "" then Flush(r)
    else if StartsWith(line, "event:") then r.(name := Some(Trim(line[6..])))
    else if StartsWith(line, "data:") then r.(data := r.data + [TrimStart(line[5..])])
    else r
  }

  function ReadLine(r: Reader, raw: string): Reader {
    Field(r, Chomp(raw))
  }

  function ReadLines(r: Reader, lines: seq<string>): Reader {
    Fold(ReadLine, r, lines)
  }

  // ---- Chunks ----

  datatype State = State(buffer: string, reader: Reader)

  const START := State("", IDLE)

  function TakeChunk(s: State, chunk: string): State {
    var cut := CutOf(s.buffer + chunk);
    State(cut.rest, ReadLines(s.reader, cut.lines))
  }

  function TakeChunks(s: State, chunks: seq<string>): State {
    Fold(TakeChunk, s, chunks)
  }

  /** What is dispatched over a stream that ends well; a line without its end is not read. */
  function Dispatched(chunks: seq<string>): seq<Event> {
    Flush(TakeChunks(START, chunks).reader).fired
  }

  // ---- Splitting ----

  lemma {:induction false} PiecesAreLines(text: string)
    ensures '\n' !in CutOf(text).rest && forall l :: l in CutOf(text).lines ==> '\n' !in l
  {
    if text != "" {
      PiecesAreLines(text[..|text| - 1]);
    }
  }

  lemma {:induction false} OneLine(text: string)
    requires '\n' !in text
    ensures CutOf(text) == Cut([], text)
  {
    if text != "" {
      var front, last := text[..|text| - 1], text[|text| - 1];
      assert last in text && last != '\n';
      OneLine(front);
    }
  }

  /** A text can be cut in two steps: what is left of its first part goes before the second. */
  lemma {:induction false} CutAppend(a: string, b: string)
    ensures var next := CutOf(CutOf(a).rest + b);
            CutOf(a + b) == Cut(CutOf(a).lines + next.lines, next.rest)
  {
    var rest := CutOf(a).rest;
    if b == "" {
      PiecesAreLines(a);
      OneLine(rest);
      assert a + b == a && rest + b == rest;
    } else {
      var front := b[..|b| - 1];
      CutAppend(a, front);
      assert (a + b)[..|a + b| - 1] == a + front;
      assert (rest + b)[..|rest + b| - 1] == rest + front;
    }
  }

  lemma CutAtLineEnd(a: string, b: string)
    ensures CutOf(a + "\n" + b) == Cut(CutOf(a).lines + [CutOf(a).rest] + CutOf(b).lines, CutOf(b).rest)
  {
    assert (a + "\n")[..|a|] == a;
    CutAppend(a + "\n", b);
    assert "" + b == b;
  }

  // ---- Chunking does not show ----

  lemma TwoChunksAreOne(s: State, a: string, b: string)
    ensures TakeChunk(TakeChunk(s, a), b) == TakeChunk(s, a + b)
  {
    var text := s.buffer + a;
    assert s.buffer + (a + b) == text + b;
    CutAppend(text, b);
    FoldAppend(ReadLine, s.reader, CutOf(text).lines, CutOf(CutOf(text).rest + b).lines);
  }

  /** Whatever the chunks, the parser ends where it ends on their concatenation. */
  lemma {:induction false} ChunksAreOne(s: State, chunks: seq<string>)
    requires '\n' !in s.buffer
    ensures TakeChunks(s, chunks) == TakeChunk(s, Flatten(chunks))
  {
    if chunks == [] {
      assert s.buffer + Flatten(chunks) == s.buffer;
      OneLine(s.buffer);
    } else {
      var front, last := chunks[..|chunks| - 1], chunks[|chunks| - 1];
      ChunksAreOne(s, front);
      TwoChunksAreOne(s, Flatten(front), last);
      FlattenSnoc(front, last);
      assert chunks == front + [last];
    }
  }

  /** Two ways to cut one stream dispatch the same events in the same order, leave the same
      buffer, and that buffer holds no line end. */
  lemma ChunkingDoesNotShow(one: seq<string>, other: seq<string>)
    requires Flatten(one) == Flatten(other)
    ensures Dispatched(one) == Dispatched(other)
    ensures TakeChunks(START, one) == TakeChunks(START, other)
    ensures '\n' !in TakeChunks(START, one).buffer
  {
    ChunksAreOne(START, one);
    ChunksAreOne(START, other);
    PiecesAreLines(START.buffer + Flatten(one));
  }

  // ---- Trimming ----

  lemma {:induction false} TrimStartEffect(s: string)
    ensures var t := TrimStart(s); (t == "" || !IsBlank(t[0])) && TrimStart(t) == t && (forall c :: c in t ==> c in s)
  {
    if s != "" && IsBlank(s[0]) {
      TrimStartEffect(s[1..]);
    }
  }

  lemma {:induction false} TrimEndEffect(s: string)
    ensures var t := TrimEnd(s);
            && t <= s && (t == "" || !IsBlank(t[|t| - 1])) && TrimEnd(t) == t && (forall c :: c in t ==> c in s)
  {
    if s != "" && IsBlank(s[|s| - 1]) {
      TrimEndEffect(s[..|s| - 1]);
    }
  }

  lemma TrimEffect(s: string)
    ensures Trim(Trim(s)) == Trim(s) && (forall c :: c in Trim(s) ==> c in s)
  {
    TrimStartEffect(s);
    TrimEndEffect(TrimStart(s));
    var t := Trim(s);
    assert t != "" ==> t[0] == TrimStart(s)[0];
    assert TrimStart(t) == t;
  }

  // ---- Events read back ----

  /** A field as servers write it: with or without a blank after the colon, and with either
      line end.  A text that ends in a carriage return needs another one. */
  ghost predicate WritesField(raw: string, field: string, text: string) {
    || raw == field + text + "\r" || raw == field + " " + text + "\r"
    || ((text == "" || text[|text| - 1] != '\r') && (raw == field + text || raw == field + " " + text))
  }

  ghost predicate WritesData(raws: seq<string>, lines: seq<string>) {
    |raws| == |lines| && forall i :: 0 <= i < |raws| ==> WritesField(raws[i], "data:", lines[i])
  }

  ghost predicate WritesName(raws: seq<string>, name: Option<string>) {
    if name.Some? then |raws| == 1 && WritesField(raws[0], "event:", name.value) else raws == []
  }

  /** The lines of an event: its name, if it has one, its data line by line, and a blank line. */
  datatype Written = Written(name: seq<string>, data: seq<string>, end: string)

  function EventLines(w: Written): seq<string> {
    w.name + w.data + [w.end]
  }

  ghost predicate Writes(w: Written, e: Event) {
    WritesName(w.name, e.name) && WritesData(w.data, Split(e.data)) && (w.end == "" || w.end == "\r")
  }

  function Unlines(lines: seq<string>): string {
    if lines == [] then "" else lines[0] + "\n" + Unlines(lines[1..])
  }

  function EncodeOne(w: Written): string {
    Unlines(EventLines(w))
  }

  function Encode(ws: seq<Written>): string {
    if ws == [] then "" else EncodeOne(ws[0]) + Encode(ws[1..])
  }

  /** Between events, with these dispatched. */
  function At(fired: seq<Event>): State {
    State("", Reader(None, [], fired))
  }

  predicate Trimmed(line: string) {
    TrimStart(line) == line
  }

  /** The name has no outer space and is one line; no data line starts with space. */
  ghost predicate Clean(e: Event) {
    && (e.name.Some? ==> Trim(e.name.value) == e.name.value && '\n' !in e.name.value)
    && forall l :: l in Split(e.data) ==> Trimmed(l)
  }

  lemma {:induction false} CutUnlines(lines: seq<string>)
    requires forall l :: l in lines ==> '\n' !in l
    ensures CutOf(Unlines(lines)) == Cut(lines, "")
  {
    if lines != [] {
      CutUnlines(lines[1..]);
      OneLine(lines[0]);
      CutAtLineEnd(lines[0], Unlines(lines[1..]));
    }
  }

  lemma SplitAtLineEnd(a: string, last: string)
    requires '\n' !in last
    ensures Split(a + "\n" + last) == Split(a) + [last]
  {
    OneLine(last);
    CutAtLineEnd(a, last);
  }

  lemma {:induction false} SplitJoin(lines: seq<string>)
    requires lines != [] && forall l :: l in lines ==> '\n' !in l
    ensures Split(Join(lines)) == lines
  {
    var front, last := lines[..|lines| - 1], lines[|lines| - 1];
    assert last in lines;
    if front == [] {
      OneLine(last);
    } else {
      SplitJoin(front);
      SplitAtLineEnd(Join(front), last);
    }
    assert lines == front + [last];
  }

  lemma JoinSnoc(lines: seq<string>, last: string)
    requires lines != []
    ensures Join(lines + [last]) == Join(lines) + "\n" + last
  {
    assert (lines + [last])[..|lines|] == lines;
  }

  lemma JoinGrows(lines: seq<string>, rest: string, ch: char)
    ensures Join(lines + [rest + [ch]]) == Join(lines + [rest]) + [ch]
  {
    if lines != [] {
      JoinSnoc(lines, rest);
      JoinSnoc(lines, rest + [ch]);
    }
  }

  lemma {:induction false} JoinSplit(text: string)
    ensures Join(Split(text)) == text
  {
    if text != "" {
      var front, ch := text[..|text| - 1], text[|text| - 1];
      JoinSplit(front);
      if ch == '\n' {
        JoinSnoc(Split(front), "");
      } else {
        JoinGrows(CutOf(front).lines, CutOf(front).rest, ch);
      }
      assert text == front + [ch];
    }
  }

  /** Taking the carriage return off leaves the field and, after an optional blank, its text. */
  lemma ChompField(raw: string, field: string, text: string)
    requires WritesField(raw, field, text) && field != "" && field[|field| - 1] == ':'
    ensures Chomp(raw) == field + text || Chomp(raw) == field + " " + text
  {
    assert (field + text)[|field + text| - 1] == if text == "" then ':' else text[|text| - 1];
    assert (field + " " + text)[|field + " " + text| - 1] == if text == "" then ' ' else text[|text| - 1];
    assert (field + text + "\r")[..|field + text|] == field + text;
    assert (field + " " + text + "\r")[..|field + " " + text|] == field + " " + text;
  }

  lemma TrimBlank(text: string)
    ensures TrimStart(" " + text) == TrimStart(text) && Trim(" " + text) == Trim(text)
  {
    assert (" " + text)[1..] == text;
  }

  lemma DataField(r: Reader, text: string)
    ensures Field(r, "data:" + text) == r.(data := r.data + [TrimStart(text)])
  {
    var line := "data:" + text;
    assert line[..5] == "data:" && line[5..] == text && line[0] == 'd';
  }

  lemma NameField(r: Reader, text: string)
    ensures Field(r, "event:" + text) == r.(name := Some(Trim(text)))
  {
    var line := "event:" + text;
    assert line[..6] == "event:" && line[6..] == text;
  }

  lemma BlankFirst(field: string, text: string)
    ensures field + " " + text == field + (" " + text)
  {
  }

  lemma ReadDataLine(r: Reader, raw: string, line: string)
    requires WritesField(raw, "data:", line) && Trimmed(line)
    ensures ReadLine(r, raw) == r.(data := r.data + [line])
  {
    ChompField(raw, "data:", line);
    TrimBlank(line);
    BlankFirst("data:", line);
    DataField(r, line);
    DataField(r, " " + line);
  }

  lemma ReadNameLine(r: Reader, raw: string, name: string)
    requires WritesField(raw, "event:", name) && Trim(name) == name
    ensures ReadLine(r, raw) == r.(name := Some(name))
  {
    ChompField(raw, "event:", name);
    TrimBlank(name);
    BlankFirst("event:", name);
    NameField(r, name);
    NameField(r, " " + name);
  }

  lemma {:induction false} FoldDataLines(step: (Reader, string) -> Reader, r: Reader, raws: seq<string>, lines: seq<string>)
    requires |raws| == |lines|
    requires forall x, i {:trigger step(x, raws[i])} :: 0 <= i < |raws| ==> step(x, raws[i]) == x.(data := x.data + [lines[i]])
    ensures Fold(step, r, raws) == r.(data := r.data + lines)
  {
    if lines != [] {
      var n := |raws| - 1;
      FoldDataLines(step, r, raws[..n], lines[..n]);
      assert raws[n] == raws[|raws| - 1];
      assert r.data + lines[..n] + [lines[n]] == r.data + lines;
    } else {
      assert r.data + lines == r.data;
    }
  }

  lemma ReadDataLines(r: Reader, raws: seq<string>, lines: seq<string>)
    requires WritesData(raws, lines) && forall l :: l in lines ==> Trimmed(l)
    ensures ReadLines(r, raws) == r.(data := r.data + lines)
  {
    forall x, i | 0 <= i < |raws| ensures ReadLine(x, raws[i]) == x.(data := x.data + [lines[i]]) {
      ReadDataLine(x, raws[i], lines[i]);
    }
    FoldDataLines(ReadLine, r, raws, lines);
  }

  lemma ReadName(r: Reader, raws: seq<string>, name: Option<string>)
    requires r.name == None && WritesName(raws, name) && (name.Some? ==> Trim(name.value) == name.value)
    ensures ReadLines(r, raws) == r.(name := name)
  {
    if name.Some? {
      FoldSnoc(ReadLine, r, [], raws[0]);
      ReadNameLine(r, raws[0], name.value);
      assert raws == [] + [raws[0]];
    }
  }

  lemma ReadBlank(r: Reader, raw: string)
    requires raw == "" || raw == "\r"
    ensures ReadLine(r, raw) == Flush(r)
  {
    assert Chomp(raw) == "";
  }

  lemma ReadEvent(w: Written, e: Event, fired: seq<Event>)
    requires Writes(w, e) && Clean(e)
    ensures ReadLines(Reader(None, [], fired), EventLines(w)) == Reader(None, [], fired + [e])
  {
    var start := Reader(None, [], fired);
    var named := start.(name := e.name);
    ReadName(start, w.name, e.name);
    ReadDataLines(named, w.data, Split(e.data));
    assert [] + Split(e.data) == Split(e.data);
    FoldAppend(ReadLine, start, w.name, w.data);
    FoldSnoc(ReadLine, start, w.name + w.data, w.end);
    ReadBlank(named.(data := Split(e.data)), w.end);
    JoinSplit(e.data);
  }

  lemma FieldIsLine(raw: string, field: string, text: string)
    requires WritesField(raw, field, text) && '\n' !in field && '\n' !in text
    ensures '\n' !in raw
  {
  }

  lemma EventLinesAreLines(w: Written, e: Event)
    requires Writes(w, e) && Clean(e)
    ensures forall l :: l in EventLines(w) ==> '\n' !in l
  {
    PiecesAreLines(e.data);
    forall l | l in w.data ensures '\n' !in l {
      var i :| 0 <= i < |w.data| && w.data[i] == l;
      assert Split(e.data)[i] in Split(e.data);
      FieldIsLine(l, "data:", Split(e.data)[i]);
    }
    if e.name.Some? {
      FieldIsLine(w.name[0], "event:", e.name.value);
    }
  }

  lemma ReadEncodedEvent(w: Written, e: Event, fired: seq<Event>)
    requires Writes(w, e) && Clean(e)
    ensures TakeChunk(At(fired), EncodeOne(w)) == At(fired + [e])
  {
    ReadEvent(w, e, fired);
    EventLinesAreLines(w, e);
    CutUnlines(EventLines(w));
    assert "" + EncodeOne(w) == EncodeOne(w);
  }

  ghost predicate WritesAll(ws: seq<Written>, events: seq<Event>) {
    |ws| == |events| && forall i :: 0 <= i < |ws| ==> Writes(ws[i], events[i])
  }

  lemma {:induction false} TakeEncoded(
    take: (State, string) -> State, ws: seq<Written>, events: seq<Event>, fired: seq<Event>)
    requires |ws| == |events|
    requires forall f, i {:trigger take(At(f), EncodeOne(ws[i]))} ::
               0 <= i < |ws| ==> take(At(f), EncodeOne(ws[i])) == At(f + [events[i]])
    requires forall s, a, b {:trigger take(s, a + b)} :: take(take(s, a), b) == take(s, a + b)
    requires forall f {:trigger take(At(f), "")} :: take(At(f), "") == At(f)
    ensures take(At(fired), Encode(ws)) == At(fired + events)
    decreases |ws|
  {
    if ws == [] {
      assert fired + events == fired;
    } else {
      var first, rest := EncodeOne(ws[0]), Encode(ws[1..]);
      assert forall i :: 0 <= i < |ws| - 1 ==> ws[1..][i] == ws[i + 1] && events[1..][i] == events[i + 1];
      TakeEncoded(take, ws[1..], events[1..], fired + [events[0]]);
      assert take(At(fired), first + rest) == take(take(At(fired), first), rest);
      Associate(fired, events[..1], events[1..]);
      assert events[..1] == [events[0]] && events == events[..1] + events[1..];
    }
  }

  lemma ReadEncoded(ws: seq<Written>, events: seq<Event>)
    requires WritesAll(ws, events) && forall e :: e in events ==> Clean(e)
    ensures TakeChunk(START, Encode(ws)) == At(events)
  {
    forall f, i | 0 <= i < |ws| ensures TakeChunk(At(f), EncodeOne(ws[i])) == At(f + [events[i]]) {
      ReadEncodedEvent(ws[i], events[i], f);
    }
    forall s, a, b ensures TakeChunk(TakeChunk(s, a), b) == TakeChunk(s, a + b) {
      TwoChunksAreOne(s, a, b);
    }
    forall f ensures TakeChunk(At(f), "") == At(f) {
      assert CutOf("" + "") == Cut([], "");
    }
    TakeEncoded(TakeChunk, ws, events, []);
    assert [] + events == events;
  }

  // ---- What is dispatched is clean ----

  ghost predicate Tidy(r: Reader) {
    && (r.name.Some? ==> Trim(r.name.value) == r.name.value && '\n' !in r.name.value)
    && (forall l :: l in r.data ==> Trimmed(l) && '\n' !in l)
    && (forall e :: e in r.fired ==> Clean(e))
  }

  lemma FlushIsTidy(r: Reader)
    requires Tidy(r)
    ensures Tidy(Flush(r))
  {
    if r.data != [] {
      SplitJoin(r.data);
      assert Clean(Event(r.name, Join(r.data)));
    }
  }

  lemma ReadLineIsTidy(r: Reader, raw: string)
    requires Tidy(r) && '\n' !in raw
    ensures Tidy(ReadLine(r, raw))
  {
    var line := Chomp(raw);
    if line == "" {
      FlushIsTidy(r);
    } else if StartsWith(line, "event:") {
      TrimEffect(line[6..]);
    } else if StartsWith(line, "data:") {
      TrimStartEffect(line[5..]);
    }
  }

  lemma {:induction false} ReadLinesIsTidy(r: Reader, lines: seq<string>)
    requires Tidy(r) && forall l :: l in lines ==> '\n' !in l
    ensures Tidy(ReadLines(r, lines))
  {
    if lines != [] {
      ReadLinesIsTidy(r, lines[..|lines| - 1]);
      ReadLineIsTidy(ReadLines(r, lines[..|lines| - 1]), lines[|lines| - 1]);
    }
  }

  lemma DispatchedIsClean(chunks: seq<string>)
    ensures forall e :: e in Dispatched(chunks) ==> Clean(e)
  {
    ChunksAreOne(START, chunks);
    var text := START.buffer + Flatten(chunks);
    PiecesAreLines(text);
    ReadLinesIsTidy(IDLE, CutOf(text).lines);
    FlushIsTidy(TakeChunks(START, chunks).reader);
  }

  /** Events written in the stream format, each line with either line end and with or without a
      blank after its colon, come back from any chunks exactly if all of them are clean. */
  lemma EncodedEventsComeBack(events: seq<Event>, ws: seq<Written>, chunks: seq<string>)
    requires WritesAll(ws, events) && Flatten(chunks) == Encode(ws)
    ensures Dispatched(chunks) == events <==> forall e :: e in events ==> Clean(e)
  {
    DispatchedIsClean(chunks);
    if forall e :: e in events ==> Clean(e) {
      ChunksAreOne(START, chunks);
      ReadEncoded(ws, events);
    }
  }

  // ---- Other lines ----

  /** A comment, or a field other than the name and the data. */
  predicate IsOther(raw: string) {
    raw != "" && raw[0] != 'e' && raw[0] != 'd' && raw[0] != '\r' && '\n' !in raw
  }

  lemma OtherIsSkipped(r: Reader, raw: string)
    requires IsOther(raw)
    ensures ReadLine(r, raw) == r
  {
    assert Chomp(raw) != "" && Chomp(raw)[0] == raw[0];
  }

  lemma ReadOthers(r: Reader, before: seq<string>, other: string, after: seq<string>)
    requires IsOther(other)
    ensures ReadLines(r, before + [other] + after) == ReadLines(r, before + after)
  {
    FoldAppend(ReadLine, r, before + [other], after);
    FoldSnoc(ReadLine, r, before, other);
    OtherIsSkipped(ReadLines(r, before), other);
    FoldAppend(ReadLine, r, before, after);
  }

  lemma DispatchedOf(lines: seq<string>, chunks: seq<string>)
    requires (forall l :: l in lines ==> '\n' !in l) && Flatten(chunks) == Unlines(lines)
    ensures Dispatched(chunks) == Flush(ReadLines(IDLE, lines)).fired
  {
    ChunksAreOne(START, chunks);
    CutUnlines(lines);
    assert "" + Flatten(chunks) == Flatten(chunks);
  }

  /** Comments and other fields between the lines of a stream change nothing. */
  lemma OtherLinesDoNotShow(before: seq<string>, other: string, after: seq<string>, chunks: seq<string>, plain: seq<string>)
    requires (forall l :: l in before + after ==> '\n' !in l) && IsOther(other)
    requires Flatten(chunks) == Unlines(before + [other] + after) && Flatten(plain) == Unlines(before + after)
    ensures Dispatched(chunks) == Dispatched(plain)
  {
    assert forall l :: l in before + [other] + after ==> l in before + after || l == other;
    DispatchedOf(before + [other] + after, chunks);
    DispatchedOf(before + after, plain);
    ReadOthers(IDLE, before, other, after);
  }
}
