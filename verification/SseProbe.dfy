/** The transcript check in the page: a bounded capture log, and the parser that reads an
    event stream and pushes what it recognises. */
module SseProbe {
  import opened Seqs
  import S = SseModel

  const LIMIT: nat := 5000

  /** What an event of a known kind is reduced to, or the failure of a stream. */
  datatype Entry<T> = Kept(url: string, name: Option<string>, summary: T) | ProbeError(url: string, error: string)

  function Latest<T>(entries: seq<T>): seq<T> {
    if |entries| <= LIMIT then entries else entries[|entries| - LIMIT..]
  }

  /** Cutting back after every push leaves what cutting back once at the end would. */
  lemma LatestOfLatest<T>(a: seq<T>, b: seq<T>)
    ensures Latest(Latest(a) + b) == Latest(a + b)
    ensures |Latest(a + b)| == if |a + b| < 5000 then |a + b| else 5000
  {
    var cut := |a| - |Latest(a)|;
    assert Latest(a) == a[cut..] && Latest(a) + b == (a + b)[cut..];
  }

  class Capture<T> {
    var log: seq<Entry<T>>
    ghost var pushed: seq<Entry<T>>

    /** The log is the latest of all that was ever pushed. */
    ghost predicate Valid()
      reads this
    {
      log == Latest(pushed)
    }

    constructor ()
      ensures Valid() && log == [] && pushed == []
    {
      log, pushed := [], [];
    }

    method Push(entry: Entry<T>)
      requires Valid()
      modifies this
      ensures Valid() && pushed == old(pushed) + [entry]
      ensures log == Latest(old(log) + [entry])
    {
      LatestOfLatest(pushed, [entry]);
      log := log + [entry];
      if |log| > LIMIT {
        log := log[|log| - LIMIT..];
      }
      pushed := pushed + [entry];
    }
  }

  /** The entries of a list of events: those whose data is recognised. */
  function Recognised<T>(url: string, classify: string -> Option<T>, events: seq<S.Event>): seq<Entry<T>> {
    if events == [] then []
    else Recognised(url, classify, events[..|events| - 1]) + EntryOf(url, classify, events[|events| - 1])
  }

  function EntryOf<T>(url: string, classify: string -> Option<T>, event: S.Event): seq<Entry<T>> {
    var summary := classify(event.data);
    if summary.Some? then [Kept(url, event.name, summary.value)] else []
  }

  lemma RecognisedSnoc<T>(url: string, classify: string -> Option<T>, events: seq<S.Event>, e: S.Event)
    ensures Recognised(url, classify, events + [e]) == Recognised(url, classify, events) + EntryOf(url, classify, e)
  {
    assert (events + [e])[..|events|] == events;
  }

  class Parser<T> {
    const url: string
    const classify: string -> Option<T>   // from the joined data to what is kept of it
    const capture: Capture<T>
    var buffer: string
    var eventName: Option<string>
    var dataLines: seq<string>
    ghost var fired: seq<S.Event>

    ghost function State(): S.State
      reads this
    {
      S.State(buffer, S.Reader(eventName, dataLines, fired))
    }

    ghost function Sent(): seq<Entry<T>>
      reads this
    {
      Recognised(url, classify, fired)
    }

    constructor (url: string, classify: string -> Option<T>, capture: Capture<T>)
      ensures State() == S.START
      ensures this.url == url && this.classify == classify && this.capture == capture
    {
      this.url, this.classify, this.capture := url, classify, capture;
      buffer, eventName, dataLines, fired := "", None, [], [];
    }

    method Flush() returns (ghost more: seq<Entry<T>>)
      requires capture.Valid()
      modifies this, capture
      ensures State() == old(State()).(reader := S.Flush(old(State()).reader))
      ensures capture.Valid() && capture.pushed == old(capture.pushed) + more && Sent() == old(Sent()) + more
    {
      more := [];
      if |dataLines| == 0 {
        eventName := None;
        return;
      }
      var raw := S.Join(dataLines);
      dataLines := [];
      fired := fired + [S.Event(eventName, raw)];
      RecognisedSnoc(url, classify, old(fired), S.Event(eventName, raw));
      var summary := classify(raw);
      if summary.Some? {
        more := [Kept(url, eventName, summary.value)];
        capture.Push(Kept(url, eventName, summary.value));
      }
      eventName := None;
    }

    method TakeLine(rawLine: string) returns (ghost more: seq<Entry<T>>)
      requires capture.Valid()
      modifies this, capture
      ensures State() == old(State()).(reader := S.ReadLine(old(State()).reader, rawLine))
      ensures capture.Valid() && capture.pushed == old(capture.pushed) + more && Sent() == old(Sent()) + more
    {
      more := [];
      var line := S.Chomp(rawLine);
      if line == "" {
        more := Flush();
      } else if S.StartsWith(line, "event:") {
        eventName := Some(S.Trim(line[6..]));
      } else if S.StartsWith(line, "data:") {
        dataLines := dataLines + [S.TrimStart(line[5..])];
      }
    }

    method TakeChunk(chunk: string) returns (ghost more: seq<Entry<T>>)
      requires capture.Valid()
      modifies this, capture
      ensures State() == S.TakeChunk(old(State()), chunk)
      ensures capture.Valid() && capture.pushed == old(capture.pushed) + more && Sent() == old(Sent()) + more
    {
      ghost var start, sent, pushed := State().reader, Sent(), capture.pushed;
      more := [];
      buffer := buffer + chunk;
      var cut := S.CutOf(buffer);
      var lines := cut.lines;
      buffer := cut.rest;
      for i := 0 to |lines|
        invariant State() == S.State(cut.rest, Fold(S.ReadLine, start, lines[..i]))
        invariant capture.Valid() && capture.pushed == pushed + more && Sent() == sent + more
      {
        ghost var next := TakeLine(lines[i]);
        FoldNext(S.ReadLine, start, lines, i);
        Associate(pushed, more, next);
        Associate(sent, more, next);
        more := more + next;
      }
      assert lines[..|lines|] == lines;
    }

    method TakeChunks(chunks: seq<string>) returns (ghost more: seq<Entry<T>>)
      requires capture.Valid()
      modifies this, capture
      ensures State() == S.TakeChunks(old(State()), chunks)
      ensures capture.Valid() && capture.pushed == old(capture.pushed) + more && Sent() == old(Sent()) + more
    {
      ghost var start, sent, pushed := State(), Sent(), capture.pushed;
      more := [];
      for i := 0 to |chunks|
        invariant State() == Fold(S.TakeChunk, start, chunks[..i])
        invariant capture.Valid() && capture.pushed == pushed + more && Sent() == sent + more
      {
        ghost var next := TakeChunk(chunks[i]);
        FoldNext(S.TakeChunk, start, chunks, i);
        Associate(pushed, more, next);
        Associate(sent, more, next);
        more := more + next;
      }
      assert chunks[..|chunks|] == chunks;
    }

    method ReadToEnd(chunks: seq<string>) returns (ghost more: seq<Entry<T>>)
      requires capture.Valid()
      modifies this, capture
      ensures State().reader == S.Flush(S.TakeChunks(old(State()), chunks).reader)
      ensures capture.Valid() && capture.pushed == old(capture.pushed) + more && Sent() == old(Sent()) + more
    {
      ghost var sent, pushed := Sent(), capture.pushed;
      more := TakeChunks(chunks);
      ghost var last := Flush();
      Associate(pushed, more, last);
      Associate(sent, more, last);
      more := more + last;
    }

    /** A stream from its first chunk to its end, or to the error that ends it. */
    method Parse(chunks: seq<string>, failure: Option<string>)
      requires capture.Valid() && State() == S.START
      modifies this, capture
      ensures capture.Valid()
      ensures failure.None? ==> capture.pushed == old(capture.pushed) + Recognised(url, classify, S.Dispatched(chunks))
      ensures failure.Some? ==>
                capture.pushed == old(capture.pushed)
                  + Recognised(url, classify, S.TakeChunks(S.START, chunks).reader.fired) + [ProbeError(url, failure.value)]
    {
      assert Sent() == [];
      if failure.Some? {
        ghost var more := TakeChunks(chunks);
        assert more == Sent();
        capture.Push(ProbeError(url, failure.value));
      } else {
        ghost var more := ReadToEnd(chunks);
        assert more == Sent();
      }
    }
  }
}
