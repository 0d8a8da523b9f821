/** The workflow probes of the governance harness: the polling loops, and the run that
    interrupts or compacts a session and resumes it.  Requests are answered from a tape, any
    of them may raise, and a loop polls as often as its deadline lets it. */
module RecoveryWorkflow {
  import opened Seqs
  import opened LedgerAnchor

  // ---- Requests ----

  datatype Message = Message(id: Option<string>, role: Option<string>, finished: bool, packet: Option<Packet>)

  datatype Call =
    | GetRuntime
    | GetMessages(after: Option<string>)
    | GetRecovery
    | GetLedger
    | PostNote(index: nat)
    | RunCommand
    | PostCompact
    | PostAbort
    | PostResume

  /** What an answer may hold; a call reads the parts it asks for. */
  datatype Body = Body(
    runStatus: Option<string>, messages: seq<Message>, status: Option<string>, actions: seq<string>,
    ledger: Ledger, success: bool, response: Response)

  datatype Answer = Raised | Said(body: Body)
  datatype Entry = Entry(call: Call, answer: Answer)
  type Trace = seq<Entry>
  type Tape = nat -> Answer

  datatype Result<T> = Ok(value: T) | Err {
    predicate IsFailure() { Err? }

    function PropagateFailure<U>(): Result<U>
      requires Err?
    {
      Err
    }

    function Extract(): T
      requires Ok?
    {
      value
    }
  }

  // ---- What the polls show ----

  datatype Poll = Poll(runtime: Body, messages: Body)

  predicate Idle(p: Poll) {
    p.runtime.runStatus == Some("idle")
  }

  predicate Active(p: Poll) {
    p.runtime.runStatus.Some? && p.runtime.runStatus.value != "" && p.runtime.runStatus.value != "idle"
  }

  predicate Finished(p: Poll) {
    exists m :: m in p.messages.messages && m.role == Some("assistant") && m.finished
  }

  predicate WasActive(polls: seq<Poll>) {
    exists j :: 0 <= j < |polls| && Active(polls[j])
  }

  /** Some poll is idle, and an earlier one was active or it shows a finished answer. */
  predicate Settled(polls: seq<Poll>) {
    exists i :: 0 <= i < |polls| && Idle(polls[i]) && (WasActive(polls[..i]) || Finished(polls[i]))
  }

  function PollEntries(baseline: Option<string>, polls: seq<Poll>): Trace {
    if polls == [] then []
    else
      var p := polls[|polls| - 1];
      PollEntries(baseline, polls[..|polls| - 1])
      + [Entry(GetRuntime, Said(p.runtime)), Entry(GetMessages(NonBlank(baseline)), Said(p.messages))]
  }

  /** A blank id is as good as none. */
  function NonBlank(id: Option<string>): Option<string> {
    if id == Some("") then None else id
  }

  predicate Recoverable(e: Entry) {
    e.call == GetRecovery && e.answer.Said? && e.answer.body.status == Some("recoverable") && "resume" in e.answer.body.actions
  }

  predicate FullHistory(e: Entry) {
    e.call == GetMessages(None) && e.answer.Said? && |e.answer.body.messages| >= 10
  }

  // ---- What the trace of a workflow shows ----

  /** The new calls do not resume the session. */
  ghost predicate Calm(a: Trace, b: Trace) {
    a <= b && forall i :: |a| <= i < |b| ==> b[i].call != PostResume
  }

  ghost predicate NeverResumed(tr: Trace) {
    forall i :: 0 <= i < |tr| ==> tr[i].call != PostResume
  }

  /** The one resume of a trace is its entry `i`. */
  ghost predicate ResumedAt(tr: Trace, i: nat) {
    i < |tr| && forall j :: 0 <= j < |tr| ==> (tr[j].call == PostResume <==> j == i)
  }

  /** Polling went on until it settled, or as long as it may. */
  ghost predicate Patient(polls: seq<Poll>, patience: nat) {
    if Settled(polls) then 0 < |polls| <= patience && !Settled(polls[..|polls| - 1]) else |polls| == patience
  }

  /** Resumed at `i`, with nothing after it but polls, which settled or did not. */
  ghost predicate Waited(tr: Trace, i: nat, baseline: Option<string>, polls: seq<Poll>, settled: bool, patience: nat) {
    ResumedAt(tr, i) && tr[i + 1..] == PollEntries(baseline, polls) && Settled(polls) == settled && Patient(polls, patience)
  }

  lemma SettledNext(polls: seq<Poll>, p: Poll)
    ensures WasActive(polls + [p]) == (WasActive(polls) || Active(p))
    ensures Settled(polls + [p]) == (Settled(polls) || (Idle(p) && (WasActive(polls) || Finished(p))))
  {
    var all := polls + [p];
    assert all[..|polls|] == polls && all[|polls|] == p;
    forall j | 0 <= j < |polls| ensures all[j] == polls[j] && all[..j] == polls[..j] {
    }
    if WasActive(polls) {
      var j :| 0 <= j < |polls| && Active(polls[j]);
      assert Active(all[j]);
    }
    if Settled(polls) {
      var i :| 0 <= i < |polls| && Idle(polls[i]) && (WasActive(polls[..i]) || Finished(polls[i]));
      assert Idle(all[i]) && (WasActive(all[..i]) || Finished(all[i]));
    }
  }

  lemma PollEntriesNext(baseline: Option<string>, polls: seq<Poll>, p: Poll, start: Trace)
    ensures start + PollEntries(baseline, polls + [p])
         == start + PollEntries(baseline, polls)
            + [Entry(GetRuntime, Said(p.runtime))] + [Entry(GetMessages(NonBlank(baseline)), Said(p.messages))]
  {
    assert (polls + [p])[..|polls|] == polls;
  }

  lemma CalmOn(a: Trace, b: Trace, c: Trace)
    requires Calm(a, b) && b <= c
    ensures Calm(b, c) ==> Calm(a, c)
    ensures NeverResumed(b) && Calm(b, c) ==> NeverResumed(c)
  {
    assert forall i :: 0 <= i < |b| ==> c[i] == b[i];
  }

  // ---- The harness ----

  datatype Workflow = Standard | Compaction | Resume

  datatype Evidence = Evidence(
    compactionAttempted: bool, compactionSucceeded: Option<bool>, ledgerRestored: Option<bool>,
    packetMatches: Option<bool>, recoveryAttempted: bool, anchorMatches: Option<bool>,
    resumeCompleted: Option<bool>, interruptionObserved: Option<bool>, exitedEarly: bool)

  const NO_EVIDENCE := Evidence(false, None, None, None, false, None, None, None, false)

  function LastId(messages: seq<Message>): Option<string> {
    if messages == [] then None else messages[|messages| - 1].id
  }

  function Packets(messages: seq<Message>): (r: seq<Option<Packet>>)
    ensures |r| == |messages|
  {
    if messages == [] then [] else Packets(messages[..|messages| - 1]) + [messages[|messages| - 1].packet]
  }

  /** The packet of the last message that carries one, or none if no message does. */
  ghost predicate CarriedLast(messages: seq<Message>, packet: Option<Packet>) {
    if packet.None? then forall j :: 0 <= j < |messages| ==> messages[j].packet.None?
    else exists i :: 0 <= i < |messages| && messages[i].packet == packet
                     && forall j :: i < j < |messages| ==> messages[j].packet.None?
  }

  lemma {:induction false} PacketsAt(messages: seq<Message>)
    ensures forall i :: 0 <= i < |messages| ==> Packets(messages)[i] == messages[i].packet
  {
    if messages != [] {
      PacketsAt(messages[..|messages| - 1]);
    }
  }

  lemma LastPacketIsCarriedLast(messages: seq<Message>)
    ensures CarriedLast(messages, LastPacket(Packets(messages)))
  {
    PacketsAt(messages);
    var i := LastPacketIsLast(Packets(messages));
    assert forall j :: i < j < |messages| ==> messages[j].packet.None?;
    if i >= 0 {
      assert messages[i].packet == LastPacket(Packets(messages));
    }
  }

  /** Comparing with zero raises unless the revision is a number. */
  function Governed(anchor: Anchor): Result<bool> {
    if anchor.revision.Number? then Ok(anchor.revision.n > 0) else Err
  }

  /** An anchor comparison is evidence only for a governed ledger. */
  function Judged(governed: bool, matches: bool): Option<bool> {
    if governed then Some(matches) else None
  }

  // ---- What evidence says of a trace ----

  /** The first ledger read. */
  ghost predicate ReadLedger(tr: Trace, i: nat, ledger: Ledger) {
    && i < |tr| && tr[i].call == GetLedger && tr[i].answer.Said? && tr[i].answer.body.ledger == ledger
    && forall k :: 0 <= k < i ==> tr[k].call != GetLedger
  }

  /** The compaction that followed the first look at the ledger, and the second look. */
  ghost predicate CompactedBy(tr: Trace, read: nat, ledger: Ledger, e: Evidence) {
    && read + 2 < |tr| && tr[read + 1].call == PostCompact && tr[read + 2].call == GetLedger
    && tr[read + 1].answer.Said? && e.compactionSucceeded == Some(tr[read + 1].answer.body.success)
    && tr[read + 2].answer.Said? && e.ledgerRestored == Some(tr[read + 2].answer.body.ledger == ledger)
  }

  /** The history read then, whose last packet was compared with the anchor. */
  ghost predicate ComparedBy(tr: Trace, i: nat, ledger: Ledger, e: Evidence) {
    var anchor := AnchorOf(ledger);
    && i < |tr| && tr[i].call == GetMessages(None) && tr[i].answer.Said? && anchor.revision.Number?
    && exists packet :: CarriedLast(tr[i].answer.body.messages, packet)
                        && e.packetMatches == if anchor.revision.n > 0 then Some(Matches(packet, anchor)) else None
  }

  predicate EndWith(messages: seq<Message>, id: Option<string>) {
    id == if messages == [] then None else messages[|messages| - 1].id
  }

  /** The last history read before entry `at` ends with the message `baseline`. */
  ghost predicate HistoryEnds(tr: Trace, at: nat, baseline: Option<string>) {
    exists m: nat | m < at <= |tr| ::
      && tr[m].call == GetMessages(None) && tr[m].answer.Said? && EndWith(tr[m].answer.body.messages, baseline)
      && forall k :: m < k < at ==> !tr[k].call.GetMessages?
  }

  lemma HistoryStays(a: Trace, b: Trace, baseline: Option<string>)
    requires a <= b && HistoryEnds(a, |a|, baseline)
    ensures HistoryEnds(b, |a|, baseline)
  {
    assert forall k :: 0 <= k < |a| ==> b[k] == a[k];
  }

  lemma LedgerStays(a: Trace, b: Trace, read: nat, ledger: Ledger)
    requires a <= b && ReadLedger(a, read, ledger)
    ensures ReadLedger(b, read, ledger)
  {
    assert forall k :: 0 <= k < |a| ==> b[k] == a[k];
  }

  ghost predicate Settling(tr: Trace, at: nat, baseline: Option<string>, polls: seq<Poll>, e: Evidence, patience: nat) {
    Waited(tr, at, baseline, polls, e.resumeCompleted == Some(true), patience) && HistoryEnds(tr, at, baseline)
  }

  /** The anchor was judged from a ledger read before the resume and from its response. */
  ghost predicate JudgedBy(tr: Trace, at: nat, read: nat, ledger: Ledger, e: Evidence) {
    var anchor := AnchorOf(ledger);
    && read < at < |tr| && tr[at].answer.Said? && ReadLedger(tr[..at], read, ledger) && anchor.revision.Number?
    && e.anchorMatches == (if anchor.revision.n > 0
                           then Some(ResponseMatches(tr[at].answer.body.response, anchor)) else None)
    && (e.compactionAttempted ==> at == read + 4 && ReadyBy(tr[..at], read, ledger, e))
  }

  /** A session was compacted and its history compared, and that was all so far. */
  ghost predicate ReadyBy(tr: Trace, read: nat, ledger: Ledger, e: Evidence) {
    |tr| == read + 4 && CompactedBy(tr, read, ledger, e) && ComparedBy(tr, read + 3, ledger, e)
  }

  /** What the evidence of a run says of its trace: it was resumed, and then either settled or
      not, and the anchor was judged; or it was not resumed. */
  ghost predicate Judgement(tr: Trace, at: nat, e: Evidence, patience: nat) {
    if NeverResumed(tr) then e.resumeCompleted != Some(true) && e.anchorMatches == None
    else
      && e.recoveryAttempted && e.resumeCompleted.Some?
      && (exists baseline, polls :: Settling(tr, at, baseline, polls, e, patience))
      && (exists read: nat, ledger :: JudgedBy(tr, at, read, ledger, e))
  }

  lemma Judge(
    tr: Trace, at: nat, read: nat, ledger: Ledger, baseline: Option<string>, polls: seq<Poll>, e: Evidence, patience: nat)
    requires e.recoveryAttempted && e.resumeCompleted.Some?
    requires Settling(tr, at, baseline, polls, e, patience) && JudgedBy(tr, at, read, ledger, e)
    ensures Judgement(tr, at, e, patience)
  {
  }

  /** Some poll found the session recoverable and offered a resume. */
  ghost predicate Offered(tr: Trace) {
    exists j :: 0 <= j < |tr| && Recoverable(tr[j])
  }

  ghost predicate LastRaised(tr: Trace) {
    tr != [] && tr[|tr| - 1].answer.Raised?
  }

  /** All notes were posted and the history is still short. */
  ghost predicate HistoryShort(tr: Trace, patience: nat) {
    |tr| == 1 + 2 * patience && !FullHistory(tr[|tr| - 1])
  }

  /** The ledger that was read has no number for its revision. */
  ghost predicate NotComparable(tr: Trace) {
    exists i: nat, ledger :: ReadLedger(tr, i, ledger) && !AnchorOf(ledger).revision.Number?
  }

  /** The only ways a run fails. */
  ghost predicate Excused(tr: Trace, patience: nat) {
    LastRaised(tr) || NotComparable(tr) || HistoryShort(tr, patience)
  }

  /** What the interrupting run does before it may resume: abort, two reads, and polls for a
      resume on offer. */
  ghost predicate InterruptedBy(tr: Trace, n: nat) {
    && 3 <= n <= |tr|
    && tr[0].call == PostAbort && tr[1].call == GetLedger && tr[2].call == GetMessages(None)
    && forall i :: 3 <= i < n ==> tr[i].call == GetRecovery
  }

  /** Entry `i`, counted from `start`: reads of the history and notes take turns, and a note is
      only posted after a short history. */
  ghost predicate Turn(tr: Trace, start: nat, i: nat)
    requires start <= i < |tr|
  {
    if (i - start) % 2 == 0 then tr[i].call == GetMessages(None)
    else tr[i].call == PostNote((i - start) / 2) && tr[i - 1].answer.Said? && !FullHistory(tr[i - 1])
  }

  ghost predicate NotesPosted(tr: Trace, start: nat) {
    forall i :: start <= i < |tr| ==> Turn(tr, start, i)
  }

  lemma NotesNext(tr: Trace, start: nat, index: nat, e: Entry)
    requires NotesPosted(tr, start)
    requires if |tr| == start + 2 * index then e.call == GetMessages(None)
             else |tr| == start + 2 * index + 1 && e.call == PostNote(index) && tr[|tr| - 1].answer.Said? && !FullHistory(tr[|tr| - 1])
    ensures NotesPosted(tr + [e], start)
  {
    var more := tr + [e];
    forall i | start <= i < |more| ensures Turn(more, start, i) {
      if i < |tr| {
        assert Turn(tr, start, i) && more[i] == tr[i];
        assert i > 0 ==> more[i - 1] == tr[i - 1];
      } else if |tr| == start + 2 * index {
        assert (i - start) % 2 == 0;
      } else {
        assert (i - start) % 2 == 1 && (i - start) / 2 == index && more[i - 1] == tr[i - 1];
      }
    }
  }

  /** What the compacting run does before it resumes: it fills the history, runs the command, and
      compacts between two looks at the ledger. */
  ghost predicate CompactionCalls(tr: Trace) {
    var at := |tr|;
    && 6 <= at && NotesPosted(tr[..at - 5], 0) && FullHistory(tr[at - 6])
    && tr[at - 5].call == RunCommand && tr[at - 4].call == GetLedger && tr[at - 3].call == PostCompact
    && tr[at - 2].call == GetLedger && tr[at - 1].call == GetMessages(None)
  }

  class Harness {
    const tape: Tape
    var trace: Trace

    constructor (tape: Tape)
      ensures trace == [] && this.tape == tape
    {
      this.tape, trace := tape, [];
    }

    method Request(call: Call) returns (r: Result<Body>)
      modifies this
      ensures trace == old(trace) + [Entry(call, tape(|old(trace)|))]
      ensures r == match tape(|old(trace)|) case Raised => Err case Said(body) => Ok(body)
    {
      var answer := tape(|trace|);
      trace := trace + [Entry(call, answer)];
      r := match answer case Raised => Err case Said(body) => Ok(body);
    }

    /** A request that is no resume. */
    method Ask(call: Call) returns (r: Result<Body>)
      requires call != PostResume
      modifies this
      ensures trace == old(trace) + [Entry(call, tape(|old(trace)|))] && Calm(old(trace), trace)
      ensures r == match tape(|old(trace)|) case Raised => Err case Said(body) => Ok(body)
    {
      r := Request(call);
    }

    method PollOnce(baseline: Option<string>) returns (r: Result<Poll>)
      modifies this
      ensures Calm(old(trace), trace) && (r.Err? ==> LastRaised(trace))
      ensures r.Ok? ==> trace == old(trace) + [Entry(GetRuntime, Said(r.value.runtime))]
                                 + [Entry(GetMessages(NonBlank(baseline)), Said(r.value.messages))]
    {
      var runtime :- Request(GetRuntime);
      var messages :- Request(GetMessages(NonBlank(baseline)));
      return Ok(Poll(runtime, messages));
    }

    /** True exactly if the polls settle, which the last of them then does first; false only
        when every poll the deadline allows was made. */
    method WaitIdle(baseline: Option<string>, patience: nat) returns (r: Result<bool>, ghost polls: seq<Poll>)
      modifies this
      ensures Calm(old(trace), trace) && (r.Err? ==> LastRaised(trace))
      ensures r.Ok? ==> trace == old(trace) + PollEntries(baseline, polls) && r.value == Settled(polls)
      ensures r.Ok? ==> Patient(polls, patience)
    {
      ghost var start := trace;
      polls := [];
      var sawActive, n := false, 0;
      while n < patience
        invariant n == |polls| <= patience
        invariant trace == start + PollEntries(baseline, polls) && Calm(start, trace)
        invariant sawActive == WasActive(polls) && !Settled(polls)
      {
        ghost var before, soFar := polls, trace;
        var p :- PollOnce(baseline);
        CalmOn(start, soFar, trace);
        SettledNext(polls, p);
        PollEntriesNext(baseline, polls, p, start);
        polls := polls + [p];
        sawActive := sawActive || Active(p);
        n := n + 1;
        if Idle(p) && (sawActive || Finished(p)) {
          assert polls[..|polls| - 1] == before;
          return Ok(true), polls;
        }
      }
      return Ok(false), polls;
    }

    /** True exactly if the last poll, and no earlier one, found the session recoverable with a
        resume on offer. */
    method WaitRecoverable(patience: nat) returns (r: Result<bool>)
      modifies this
      ensures Calm(old(trace), trace) && |trace| <= |old(trace)| + patience && (r.Err? ==> LastRaised(trace))
      ensures forall i :: |old(trace)| <= i < |trace| ==> trace[i].call == GetRecovery
      ensures r.Ok? ==> (r.value <==> |trace| > |old(trace)| && Recoverable(trace[|trace| - 1]))
      ensures r.Ok? ==> forall i :: |old(trace)| <= i < |trace| - 1 ==> !Recoverable(trace[i])
      ensures r == Ok(false) ==> |trace| == |old(trace)| + patience
    {
      var n := 0;
      while n < patience
        invariant 0 <= n <= patience && Calm(old(trace), trace) && |trace| == |old(trace)| + n
        invariant forall i :: |old(trace)| <= i < |trace| ==> trace[i].call == GetRecovery
        invariant forall i :: |old(trace)| <= i < |trace| ==> !Recoverable(trace[i])
      {
        var protocol :- Request(GetRecovery);
        n := n + 1;
        if protocol.status == Some("recoverable") && "resume" in protocol.actions {
          return Ok(true);
        }
      }
      return Ok(false);
    }

    /** Notes are posted until the history holds ten messages.  It fails only where a request
        raised, or after all the notes it has the patience for, with the history still short. */
    method AddCompactionHistory(patience: nat) returns (r: Result<()>)
      modifies this
      ensures Calm(old(trace), trace) && |trace| > |old(trace)| && NotesPosted(trace, |old(trace)|)
      ensures forall i :: |old(trace)| <= i < |trace| ==> trace[i].call != GetLedger
      ensures r.Ok? ==> FullHistory(trace[|trace| - 1])
      ensures r.Err? ==>
                || trace[|trace| - 1].answer.Raised?
                || (|trace| == |old(trace)| + 1 + 2 * patience && !FullHistory(trace[|trace| - 1]))
    {
      ghost var start := |trace|;
      NotesNext(trace, start, 0, Entry(GetMessages(None), tape(|trace|)));
      var body :- Request(GetMessages(None));
      var index := 0;
      while |body.messages| < 10
        invariant Calm(old(trace), trace) && |trace| == start + 1 + 2 * index && index <= patience
        invariant NotesPosted(trace, start)
        invariant forall i :: start <= i < |trace| ==> trace[i].call != GetLedger
        invariant trace[|trace| - 1] == Entry(GetMessages(None), Said(body))
        decreases patience - index
      {
        if index == patience { return Err; }
        NotesNext(trace, start, index, Entry(PostNote(index), tape(|trace|)));
        var _ :- Request(PostNote(index));
        index := index + 1;
        NotesNext(trace, start, index, Entry(GetMessages(None), tape(|trace|)));
        body :- Request(GetMessages(None));
      }
      return Ok(());
    }

    /** Resumes, judges the response, and waits for the session to settle. */
    method ResumeAndWait(evidence: Evidence, anchor: Anchor, baseline: Option<string>, patience: nat)
      returns (r: Result<Evidence>, ghost polls: seq<Poll>)
      requires NeverResumed(trace)
      modifies this
      ensures |trace| > |old(trace)| && old(trace) <= trace && ResumedAt(trace, |old(trace)|)
      ensures r.Err? ==> LastRaised(trace) || Governed(anchor).Err?
      ensures r.Ok? ==>
                && Waited(trace, |old(trace)|, baseline, polls, r.value.resumeCompleted == Some(true), patience)
                && trace[|old(trace)|].answer.Said? && Governed(anchor).Ok?
                && r.value == evidence.(
                     anchorMatches := Judged(Governed(anchor).value, ResponseMatches(trace[|old(trace)|].answer.body.response, anchor)),
                     resumeCompleted := Some(Settled(polls)))
    {
      polls := [];
      ghost var start := trace;
      var response :- Request(PostResume);
      var governed :- Governed(anchor);
      var next := evidence.(anchorMatches := Judged(governed, ResponseMatches(response.response, anchor)));
      ghost var resumed := trace;
      var waited;
      waited, polls := WaitIdle(baseline, patience);
      assert forall j :: 0 <= j < |resumed| ==> trace[j] == resumed[j];
      if waited.Err? { return Err, polls; }
      assert trace[|start| + 1..] == PollEntries(baseline, polls);
      return Ok(next.(resumeCompleted := Some(waited.value))), polls;
    }

    /** The history is filled and the command run. */
    method FillAndRun(patience: nat) returns (r: Result<()>)
      requires trace == []
      modifies this
      ensures NeverResumed(trace) && forall i :: 0 <= i < |trace| ==> trace[i].call != GetLedger
      ensures r.Err? ==> LastRaised(trace) || HistoryShort(trace, patience)
      ensures r.Ok? ==>
                && 2 <= |trace| && trace[|trace| - 1].call == RunCommand
                && NotesPosted(trace[..|trace| - 1], 0) && FullHistory(trace[|trace| - 2])
    {
      var _ :- AddCompactionHistory(patience);
      ghost var filled := trace;
      var _ :- Ask(RunCommand);
      assert trace[..|trace| - 1] == filled;
      return Ok(());
    }

    /** The command is run on a full history and the session compacted, between two looks at the
        ledger. */
    method Compact(patience: nat) returns (r: Result<(Evidence, Ledger)>, ghost read: nat)
      requires trace == []
      modifies this
      ensures NeverResumed(trace) && (r.Err? ==> LastRaised(trace) || HistoryShort(trace, patience))
      ensures r.Ok? ==>
                && 2 <= read < |trace| && trace[read - 1].call == RunCommand
                && NotesPosted(trace[..read - 1], 0) && FullHistory(trace[read - 2])
      ensures r.Ok? ==>
                && ReadLedger(trace, read, r.value.1) && CompactedBy(trace, read, r.value.1, r.value.0)
                && |trace| == read + 3 && r.value.0.compactionAttempted
    {
      read := 0;
      var _ :- FillAndRun(patience);
      read := |trace|;
      ghost var soFar := trace;
      var before :- Ask(GetLedger);
      var compacted :- Ask(PostCompact);
      var after :- Ask(GetLedger);
      assert trace[..read] == soFar && trace[..read - 1] == soFar[..read - 1];
      var evidence := NO_EVIDENCE.(
        compactionAttempted := true, compactionSucceeded := Some(compacted.success),
        ledgerRestored := Some(after.ledger == before.ledger));
      return Ok((evidence, before.ledger)), read;
    }

    /** The last packet of the history is compared with the anchor; the last message is where
        the waiting starts. */
    method ComparePacket(evidence: Evidence, ledger: Ledger) returns (r: Result<(Evidence, Option<string>)>)
      modifies this
      ensures Calm(old(trace), trace) && |trace| == |old(trace)| + 1
      ensures r.Err? ==> LastRaised(trace) || Governed(AnchorOf(ledger)).Err?
      ensures r.Ok? ==>
                && ComparedBy(trace, |old(trace)|, ledger, r.value.0) && HistoryEnds(trace, |trace|, r.value.1)
                && r.value.0 == evidence.(recoveryAttempted := true, packetMatches := r.value.0.packetMatches)
    {
      var anchor := AnchorOf(ledger);
      var history :- Ask(GetMessages(None));
      var governed :- Governed(anchor);
      var matches := Matches(LastPacket(Packets(history.messages)), anchor);
      LastPacketIsCarriedLast(history.messages);
      return Ok((evidence.(packetMatches := Judged(governed, matches), recoveryAttempted := true), LastId(history.messages)));
    }

    /** Everything of the compacting run before the resume. */
    method PrepareCompaction(patience: nat)
      returns (r: Result<(Evidence, Ledger, Option<string>)>, ghost read: nat)
      requires trace == []
      modifies this
      ensures NeverResumed(trace) && (r.Err? ==> Excused(trace, patience))
      ensures r.Ok? ==> CompactionCalls(trace) && HistoryEnds(trace, |trace|, r.value.2)
      ensures r.Ok? ==>
                && ReadLedger(trace, read, r.value.1) && ReadyBy(trace, read, r.value.1, r.value.0)
                && r.value.0.compactionAttempted && r.value.0.recoveryAttempted
    {
      var compacted;
      compacted, read := Compact(patience);
      if compacted.Err? { return Err, read; }
      var (started, ledger) := compacted.value;
      ghost var soFar := trace;
      var compared := ComparePacket(started, ledger);
      CalmOn(soFar, soFar, trace);
      LedgerStays(soFar, trace, read, ledger);
      if compared.Err? { return Err, read; }
      assert forall i :: 0 <= i < |soFar| ==> trace[i] == soFar[i];
      assert trace[..read - 1] == soFar[..read - 1];
      return Ok((compared.value.0, ledger, compared.value.1)), read;
    }

    method RunCompaction(patience: nat) returns (r: Result<Evidence>, ghost at: nat)
      requires trace == []
      modifies this
      ensures NeverResumed(trace) || ResumedAt(trace, at)
      ensures r.Ok? ==> Judgement(trace, at, r.value, patience) && r.value.compactionAttempted && !NeverResumed(trace)
      ensures r.Ok? ==> at < |trace| && CompactionCalls(trace[..at])
      ensures r.Err? ==> Excused(trace, patience)
    {
      ghost var read, polls;
      at := 0;
      var prepared;
      prepared, read := PrepareCompaction(patience);
      if prepared.Err? { return Err, at; }
      var (evidence, ledger, baseline) := prepared.value;
      at := |trace|;
      ghost var ready := trace;
      r, polls := ResumeAndWait(evidence, AnchorOf(ledger), baseline, patience);
      HistoryStays(ready, trace, baseline);
      assert trace[..at] == ready;
      LedgerStays(ready, trace, read, ledger);
      if r.Ok? {
        Judge(trace, at, read, ledger, baseline, polls, r.value, patience);
      }
    }

    /** Everything of the interrupting run before the resume. */
    method Interrupt(patience: nat)
      returns (r: Result<(bool, Ledger, Option<string>)>, ghost read: nat)
      requires trace == []
      modifies this
      ensures NeverResumed(trace) && (r.Err? ==> LastRaised(trace))
      ensures r.Ok? ==> InterruptedBy(trace, |trace|) && |trace| <= 3 + patience
      ensures r.Ok? && !r.value.0 ==> |trace| == 3 + patience && !Offered(trace)
      ensures r.Ok? ==> ReadLedger(trace, read, r.value.1) && HistoryEnds(trace, |trace|, r.value.2)
      ensures r.Ok? && r.value.0 ==> trace != [] && Recoverable(trace[|trace| - 1])
    {
      var aborted := Request(PostAbort);
      read := 1;
      var before :- Request(GetLedger);
      var history :- Request(GetMessages(None));
      ghost var soFar := trace;
      var offered :- WaitRecoverable(patience);
      assert forall j :: 0 <= j < |soFar| ==> trace[j] == soFar[j];
      assert trace[2] == Entry(GetMessages(None), Said(history));
      return Ok((offered, before.ledger, LastId(history.messages))), read;
    }

    method RunResume(exitedEarly: bool, observed: bool, patience: nat) returns (r: Result<Evidence>, ghost at: nat)
      requires trace == []
      modifies this
      ensures NeverResumed(trace) || (ResumedAt(trace, at) && at > 0 && Recoverable(trace[at - 1]))
      ensures r.Ok? ==> Judgement(trace, at, r.value, patience) && !r.value.compactionAttempted
      ensures exitedEarly ==> trace == [] && r == Ok(NO_EVIDENCE.(exitedEarly := true))
      ensures r.Ok? && !exitedEarly ==> r.value.interruptionObserved == Some(observed) && !r.value.exitedEarly
      ensures r.Ok? && !exitedEarly ==> (Offered(trace) <==> !NeverResumed(trace))
      ensures r.Ok? && !exitedEarly && !NeverResumed(trace) ==> InterruptedBy(trace, at)
      ensures r.Ok? && !exitedEarly && NeverResumed(trace) ==>
                && InterruptedBy(trace, |trace|) && |trace| == 3 + patience
                && r.value == NO_EVIDENCE.(interruptionObserved := Some(observed), recoveryAttempted := true, resumeCompleted := Some(false))
      ensures r.Err? ==> LastRaised(trace) || NotComparable(trace)
    {
      ghost var read, polls;
      at := 0;
      if exitedEarly {
        return Ok(NO_EVIDENCE.(exitedEarly := true)), at;
      }
      var evidence := NO_EVIDENCE.(interruptionObserved := Some(observed), recoveryAttempted := true);
      var interrupted;
      interrupted, read := Interrupt(patience);
      if interrupted.Err? { return Err, at; }
      var (offered, ledger, baseline) := interrupted.value;
      if !offered {
        return Ok(evidence.(resumeCompleted := Some(false))), at;
      }
      at := |trace|;
      ghost var ready := trace;
      r, polls := ResumeAndWait(evidence, AnchorOf(ledger), baseline, patience);
      HistoryStays(ready, trace, baseline);
      LedgerStays(ready, trace, read, ledger);
      assert trace[..at] == ready && forall i :: 0 <= i < at ==> trace[i] == ready[i];
      if r.Ok? {
        Judge(trace, at, read, ledger, baseline, polls, r.value, patience);
      }
    }

    /** Every run resumes at most once.  The compacting one that ends without failure has
        resumed; the interrupting one resumes exactly if a poll offered it, right after that
        poll, and otherwise has polled as long as it may and reports no completion.  Completion
        is reported exactly if the polls after the resume settled, and a run fails only where a
        request raised, the ledger was not comparable, or the history stayed short. */
    method RunWorkflow(workflow: Workflow, exitedEarly: bool, observed: bool, patience: nat)
      returns (r: Result<Evidence>, ghost at: nat)
      requires trace == []
      modifies this
      ensures NeverResumed(trace) || ResumedAt(trace, at)
      ensures workflow == Resume && !NeverResumed(trace) ==> at > 0 && Recoverable(trace[at - 1])
      ensures workflow == Standard ==> NeverResumed(trace) && |trace| == 1 && trace[0].call == RunCommand
      ensures workflow == Standard && r.Ok? ==> r.value == NO_EVIDENCE
      ensures workflow == Compaction && r.Ok? ==> !NeverResumed(trace) && at < |trace| && CompactionCalls(trace[..at]) && r.value.compactionAttempted
      ensures workflow == Resume && exitedEarly ==> trace == [] && r == Ok(NO_EVIDENCE.(exitedEarly := true))
      ensures workflow == Resume && !exitedEarly && r.Ok? ==>
                && (Offered(trace) <==> !NeverResumed(trace)) && r.value.interruptionObserved == Some(observed)
                && InterruptedBy(trace, if NeverResumed(trace) then |trace| else at)
                && (NeverResumed(trace) ==> |trace| == 3 + patience && r.value.resumeCompleted == Some(false))
      ensures r.Ok? ==> Judgement(trace, at, r.value, patience)
      ensures r.Err? ==> Excused(trace, patience)
    {
      match workflow {
        case Standard =>
          at := 0;
          var _ :- Request(RunCommand);
          r := Ok(NO_EVIDENCE);
        case Compaction => r, at := RunCompaction(patience);
        case Resume => r, at := RunResume(exitedEarly, observed, patience);
      }
    }
  }
}
