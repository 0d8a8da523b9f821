/** The thread that approves permission requests of the harness's own sessions, while other
    threads keep allowing more sessions.  Every step below is one that the lock or the
    interpreter makes atomic; a run is any sequence of them. */
module PermissionWatcher {
  import opened Seqs

  datatype Item = Item(id: Option<string>, session: Option<string>)

  /** A reply that was sent, and whether it got through. */
  datatype Try = Try(id: string, session: string, ok: bool)

  /** Where the watcher is: between polls, going through the items of a poll with the sessions
      allowed when it began, about to note a reply that got through, or about to count it. */
  datatype Place =
    | Waiting
    | Going(items: seq<Item>, snapshot: set<string>)
    | Noting(id: string, session: string, items: seq<Item>, snapshot: set<string>)
    | Counting(session: string, items: seq<Item>, snapshot: set<string>)

  datatype State = State(
    allowed: set<string>, approvals: map<string, nat>, seen: set<string>, place: Place, tries: seq<Try>)

  const START := State({}, map[], {}, Waiting, [])

  datatype Step =
    | Allow(session: string)
    | Poll(items: seq<Item>)      // no items if the request failed
    | Handle(ok: bool)            // the next item; `ok` tells whether a reply would get through
    | See
    | Count
    | Rest

  function Bumped(approvals: map<string, nat>, session: string, n: nat): map<string, nat> {
    approvals[session := Counted(approvals, session) + n]
  }

  function Counted(approvals: map<string, nat>, session: string): nat {
    if session in approvals then approvals[session] else 0
  }

  /** Whether an item is to be replied to. */
  predicate Wanted(item: Item, seen: set<string>, snapshot: set<string>) {
    && item.id.Some? && item.id.value != "" && item.id.value !in seen
    && item.session.Some? && item.session.value in snapshot
  }

  function HandleItem(s: State, item: Item, rest: seq<Item>, snapshot: set<string>, ok: bool): State {
    if !Wanted(item, s.seen, snapshot) then s.(place := Going(rest, snapshot))
    else
      var id, session := item.id.value, item.session.value;
      var tried := s.(tries := s.tries + [Try(id, session, ok)]);
      tried.(place := if ok then Noting(id, session, rest, snapshot) else Going(rest, snapshot))
  }

  /** What a step does; a step whose time has not come does nothing. */
  function Apply(s: State, step: Step): State {
    match step
    case Allow(session) => s.(allowed := s.allowed + {session}, approvals := Bumped(s.approvals, session, 0))
    case Poll(items) => if s.place.Waiting? then s.(place := Going(items, s.allowed)) else s
    case Handle(ok) =>
      if s.place.Going? && s.place.items != []
      then HandleItem(s, s.place.items[0], s.place.items[1..], s.place.snapshot, ok) else s
    case See =>
      if s.place.Noting?
      then s.(seen := s.seen + {s.place.id}, place := Counting(s.place.session, s.place.items, s.place.snapshot)) else s
    case Count =>
      if s.place.Counting?
      then s.(approvals := Bumped(s.approvals, s.place.session, 1), place := Going(s.place.items, s.place.snapshot)) else s
    case Rest => if s.place.Going? && s.place.items == [] then s.(place := Waiting) else s
  }

  function Run(steps: seq<Step>): State {
    Fold(Apply, START, steps)
  }

  // ---- What the replies sent amount to ----

  /** How many replies for a session got through. */
  function Approved(tries: seq<Try>, session: string): nat {
    if tries == [] then 0
    else Approved(tries[..|tries| - 1], session) +
         (if tries[|tries| - 1].ok && tries[|tries| - 1].session == session then 1 else 0)
  }

  function Through(tries: seq<Try>): set<string> {
    set t | t in tries && t.ok :: t.id
  }

  ghost function Sum(counts: map<string, nat>): nat {
    if counts == map[] then 0
    else var k :| k in counts; counts[k] + Sum(counts - {k})
  }

  /** The reply whose count is due, if there is one. */
  function Due(place: Place, session: string): nat {
    if (place.Noting? || place.Counting?) && place.session == session then 1 else 0
  }

  /** The permission still to be noted as seen. */
  function Unnoted(place: Place): set<string> {
    if place.Noting? then {place.id} else {}
  }

  predicate Once(tries: seq<Try>) {
    forall i, j :: 0 <= i < j < |tries| ==> tries[i].ok ==> tries[j].id != tries[i].id
  }

  ghost predicate Sound(s: State) {
    && Once(s.tries)
    && s.seen + Unnoted(s.place) == Through(s.tries) && s.seen !! Unnoted(s.place)
    && (forall t :: t in s.tries ==> t.session in s.allowed)
    && (!s.place.Waiting? ==> s.place.snapshot <= s.allowed)
    && (forall session :: Counted(s.approvals, session) + Due(s.place, session) == Approved(s.tries, session))
    && Sum(s.approvals) + (if s.place.Counting? then 1 else 0) == |s.seen|
  }

  // ---- Sums ----

  lemma {:induction false} SumWithout(counts: map<string, nat>, k: string)
    requires k in counts
    ensures Sum(counts) == counts[k] + Sum(counts - {k})
    decreases |counts|
  {
    var p :| p in counts && Sum(counts) == counts[p] + Sum(counts - {p});
    if p != k {
      SumWithout(counts - {p}, k);
      SumWithout(counts - {k}, p);
      assert counts - {p} - {k} == counts - {k} - {p};
    }
  }

  lemma SumBumped(counts: map<string, nat>, k: string, n: nat)
    ensures Sum(Bumped(counts, k, n)) == Sum(counts) + n
  {
    var next := Bumped(counts, k, n);
    SumWithout(next, k);
    if k in counts {
      SumWithout(counts, k);
      assert next - {k} == counts - {k};
    } else {
      assert next - {k} == counts;
    }
  }

  // ---- Every step keeps the state sound ----

  lemma ApprovedSnoc(tries: seq<Try>, t: Try, session: string)
    ensures Approved(tries + [t], session) == Approved(tries, session) + (if t.ok && t.session == session then 1 else 0)
  {
    assert (tries + [t])[..|tries|] == tries;
  }

  lemma ThroughSnoc(tries: seq<Try>, t: Try)
    ensures Through(tries + [t]) == Through(tries) + (if t.ok then {t.id} else {})
  {
    assert forall x :: x in tries + [t] <==> x in tries || x == t;
  }

  lemma OnceSnoc(tries: seq<Try>, t: Try)
    requires Once(tries) && t.id !in Through(tries)
    ensures Once(tries + [t])
  {
    var all := tries + [t];
    forall i, j | 0 <= i < j < |all| && all[i].ok ensures all[j].id != all[i].id {
      if j == |tries| {
        assert tries[i] in tries && tries[i].id in Through(tries);
      }
    }
  }

  lemma TryIsSound(s: State, id: string, session: string, ok: bool, next: State)
    requires Sound(s) && s.place.Going? && id !in s.seen && session in s.place.snapshot
    requires next == s.(tries := s.tries + [Try(id, session, ok)],
                        place := if ok then Noting(id, session, s.place.items, s.place.snapshot) else s.place)
    ensures Sound(next)
  {
    var t := Try(id, session, ok);
    OnceSnoc(s.tries, t);
    ThroughSnoc(s.tries, t);
    forall other ensures Counted(next.approvals, other) + Due(next.place, other) == Approved(next.tries, other) {
      ApprovedSnoc(s.tries, t, other);
    }
  }

  lemma HandleIsSound(s: State, ok: bool)
    requires Sound(s) && s.place.Going? && s.place.items != []
    ensures Sound(Apply(s, Handle(ok)))
  {
    var item, rest, snapshot := s.place.items[0], s.place.items[1..], s.place.snapshot;
    var moved := s.(place := Going(rest, snapshot));
    assert Sound(moved);
    if Wanted(item, s.seen, snapshot) {
      TryIsSound(moved, item.id.value, item.session.value, ok, Apply(s, Handle(ok)));
    }
  }

  lemma AllowIsSound(s: State, session: string)
    requires Sound(s)
    ensures Sound(Apply(s, Allow(session)))
  {
    SumBumped(s.approvals, session, 0);
  }

  lemma SeeIsSound(s: State)
    requires Sound(s) && s.place.Noting?
    ensures Sound(Apply(s, See))
  {
    assert |s.seen + {s.place.id}| == |s.seen| + 1;
  }

  lemma CountIsSound(s: State)
    requires Sound(s) && s.place.Counting?
    ensures Sound(Apply(s, Count))
  {
    SumBumped(s.approvals, s.place.session, 1);
  }

  lemma StepIsSound(s: State, step: Step)
    requires Sound(s)
    ensures Sound(Apply(s, step))
  {
    match step {
      case Allow(session) => AllowIsSound(s, session);
      case Poll(items) =>
      case Handle(ok) => if s.place.Going? && s.place.items != [] { HandleIsSound(s, ok); }
      case See => if s.place.Noting? { SeeIsSound(s); }
      case Count => if s.place.Counting? { CountIsSound(s); }
      case Rest =>
    }
  }

  lemma {:induction false} RunIsSound(steps: seq<Step>)
    ensures Sound(Run(steps))
  {
    if steps == [] {
      assert Through([]) == {};
    } else {
      RunIsSound(steps[..|steps| - 1]);
      StepIsSound(Run(steps[..|steps| - 1]), steps[|steps| - 1]);
    }
  }

  // ---- The facts, one by one ----

  /** A permission that got through is never replied to again: each is counted at most once. */
  lemma NeverTwice(steps: seq<Step>, i: nat, j: nat)
    requires i < j < |Run(steps).tries| && Run(steps).tries[i].ok
    ensures Run(steps).tries[j].id != Run(steps).tries[i].id
  {
    RunIsSound(steps);
  }

  /** Between items every session's count is the number of its replies that got through, and
      the counts sum to the number of permissions seen, which are those that got through. */
  lemma CountsAddUp(steps: seq<Step>, session: string)
    ensures var s := Run(steps);
            && (s.place.Waiting? || s.place.Going? ==>
                  Counted(s.approvals, session) == Approved(s.tries, session) && s.seen == Through(s.tries))
            && (!s.place.Counting? ==> Sum(s.approvals) == |s.seen|)
            && (s.place.Counting? ==> Sum(s.approvals) + 1 == |s.seen|)
  {
    RunIsSound(steps);
  }

  lemma TriedIsAllowed(s: State, step: Step, t: Try)
    requires !s.place.Waiting? ==> s.place.snapshot <= s.allowed
    requires t in Apply(s, step).tries && t !in s.tries
    ensures t.session in s.allowed
  {
  }

  /** No reply goes to a session that had not been allowed before. */
  lemma OnlyAllowed(before: seq<Step>, step: Step, t: Try)
    requires t in Run(before + [step]).tries && t !in Run(before).tries
    ensures t.session in Run(before).allowed
  {
    RunIsSound(before);
    FoldSnoc(Apply, START, before, step);
    TriedIsAllowed(Run(before), step, t);
  }

  /** Going over a permission of an allowed session sends a reply exactly if none has got
      through before: a failed one is sent again, a successful one is not. */
  lemma FailedIsRetried(steps: seq<Step>, ok: bool)
    requires var s := Run(steps);
             && s.place.Going? && s.place.items != []
             && s.place.items[0].id.Some? && s.place.items[0].id.value != ""
             && s.place.items[0].session.Some? && s.place.items[0].session.value in s.place.snapshot
    ensures var s, next := Run(steps), Run(steps + [Handle(ok)]);
            var t := Try(s.place.items[0].id.value, s.place.items[0].session.value, ok);
            next.tries == if exists x :: x in s.tries && x.id == t.id && x.ok then s.tries else s.tries + [t]
  {
    RunIsSound(steps);
    FoldSnoc(Apply, START, steps, Handle(ok));
  }

  /** The sessions some step allowed. */
  function AllowedBy(steps: seq<Step>): set<string> {
    set step | step in steps && step.Allow? :: step.session
  }

  lemma StepAllows(s: State, step: Step)
    requires s.approvals.Keys == s.allowed && (s.place.Counting? ==> s.place.session in s.allowed)
    ensures var next := Apply(s, step);
            next.approvals.Keys == next.allowed && next.allowed == s.allowed + (if step.Allow? then {step.session} else {})
  {
  }

  /** The sessions allowed, and those with a count, are exactly the ones some step allowed. */
  lemma {:induction false} AllowedIsWhatWasAllowed(steps: seq<Step>)
    ensures Run(steps).allowed == AllowedBy(steps) && Run(steps).approvals.Keys == AllowedBy(steps)
  {
    if steps != [] {
      var front, last := steps[..|steps| - 1], steps[|steps| - 1];
      AllowedIsWhatWasAllowed(front);
      RunIsSound(front);
      if Run(front).place.Counting? {
        DueIsAllowed(Run(front));
      }
      StepAllows(Run(front), last);
      assert steps == front + [last];
      AllowedByNext(front, last);
    }
  }

  lemma AllowedByNext(front: seq<Step>, last: Step)
    ensures AllowedBy(front + [last]) == AllowedBy(front) + (if last.Allow? then {last.session} else {})
  {
    var all := front + [last];
    assert forall step :: step in all <==> step in front || step == last;
  }

  lemma DueIsAllowed(s: State)
    requires Sound(s) && s.place.Counting?
    ensures s.place.session in s.allowed
  {
    var t := ApprovedTry(s.tries, s.place.session);
    assert t in s.tries;
  }

  lemma {:induction false} ApprovedTry(tries: seq<Try>, session: string) returns (t: Try)
    requires Approved(tries, session) > 0
    ensures t in tries && t.session == session
  {
    var last := tries[|tries| - 1];
    if last.ok && last.session == session {
      t := last;
    } else {
      t := ApprovedTry(tries[..|tries| - 1], session);
    }
  }

  // ---- A poll ----

  /** The item is one to be replied to, as far as the sessions go. */
  predicate Ours(item: Item, allowed: set<string>) {
    item.id.Some? && item.id.value != "" && item.session.Some? && item.session.value in allowed
  }

  /** Some reply to the item got through, or one was sent since. */
  ghost predicate Answered(item: Item, tries: seq<Try>, since: nat) {
    item.id.Some? && exists k :: 0 <= k < |tries| && tries[k].id == item.id.value && (tries[k].ok || k >= since)
  }

  /** Some item among the first `n` asked for this reply. */
  ghost predicate Asked(t: Try, items: seq<Item>, n: nat) {
    exists j :: 0 <= j < n <= |items| && items[j] == Item(Some(t.id), Some(t.session))
  }

  /** The watcher, which was waiting at `start`, is going over the items of a poll in order, with
      the sessions that were allowed then: all of theirs are answered, and nobody else is. */
  ghost predicate GoingOver(start: State, items: seq<Item>, s: State) {
    && !s.place.Waiting? && s.place.snapshot == start.allowed
    && |s.place.items| <= |items| && s.place.items == items[|items| - |s.place.items|..]
    && start.tries <= s.tries
    && (forall k :: |start.tries| <= k < |s.tries| ==>
          s.tries[k].id != "" && s.tries[k].session in start.allowed && Asked(s.tries[k], items, |items| - |s.place.items|))
    && (forall j :: 0 <= j < |items| - |s.place.items| && Ours(items[j], start.allowed) ==>
          Answered(items[j], s.tries, |start.tries|))
  }

  lemma AnsweredStays(item: Item, tries: seq<Try>, more: seq<Try>, since: nat)
    requires Answered(item, tries, since) && tries <= more
    ensures Answered(item, more, since)
  {
    var k :| 0 <= k < |tries| && tries[k].id == item.id.value && (tries[k].ok || k >= since);
    assert more[k] == tries[k];
  }

  lemma SeenIsAnswered(s: State, item: Item, since: nat)
    requires Sound(s) && s.place.Going? && item.id.Some? && item.id.value in s.seen
    ensures Answered(item, s.tries, since)
  {
    var t :| t in s.tries && t.ok && t.id == item.id.value;
    var k :| 0 <= k < |s.tries| && s.tries[k] == t;
  }

  lemma HandleGoesOn(start: State, items: seq<Item>, s: State, ok: bool)
    requires GoingOver(start, items, s) && Sound(s) && s.place.Going? && s.place.items != []
    ensures GoingOver(start, items, Apply(s, Handle(ok)))
  {
    var next, n := Apply(s, Handle(ok)), |items| - |s.place.items|;
    var item := s.place.items[0];
    assert item == items[n] && next.place.items == items[n + 1..];
    assert s.tries <= next.tries;
    forall j | 0 <= j < n + 1 && Ours(items[j], start.allowed)
      ensures Answered(items[j], next.tries, |start.tries|)
    {
      if j < n {
        AnsweredStays(items[j], s.tries, next.tries, |start.tries|);
      } else if Wanted(item, s.seen, s.place.snapshot) {
        assert next.tries[|s.tries|].id == item.id.value;
      } else {
        SeenIsAnswered(s, item, |start.tries|);
      }
    }
    forall k | |start.tries| <= k < |next.tries|
      ensures next.tries[k].id != "" && next.tries[k].session in start.allowed && Asked(next.tries[k], items, n + 1)
    {
      if k < |s.tries| {
        assert next.tries[k] == s.tries[k] && Asked(s.tries[k], items, n);
      } else {
        assert items[n] == Item(Some(next.tries[k].id), Some(next.tries[k].session));
      }
    }
  }

  lemma StepGoesOn(start: State, items: seq<Item>, s: State, step: Step)
    requires GoingOver(start, items, s) && Sound(s) && !Apply(s, step).place.Waiting?
    ensures GoingOver(start, items, Apply(s, step))
  {
    if step.Handle? && s.place.Going? && s.place.items != [] {
      HandleGoesOn(start, items, s, step.ok);
    }
  }

  /** From a poll until the watcher rests, its items are gone over in order with the sessions that
      were allowed when it began, whatever is allowed meanwhile: a permission of theirs is replied
      to unless a reply had got through, and no other is. */
  lemma {:induction false} PollIsGoneOver(before: seq<Step>, items: seq<Item>, after: seq<Step>)
    requires Run(before).place.Waiting?
    requires forall k :: 0 <= k <= |after| ==> !Run(before + [Poll(items)] + after[..k]).place.Waiting?
    ensures GoingOver(Run(before), items, Run(before + [Poll(items)] + after))
    decreases |after|
  {
    var all := before + [Poll(items)] + after;
    if after == [] {
      FoldSnoc(Apply, START, before, Poll(items));
      assert all == before + [Poll(items)];
    } else {
      var front, last := after[..|after| - 1], after[|after| - 1];
      assert forall k :: 0 <= k <= |front| ==> front[..k] == after[..k];
      PollIsGoneOver(before, items, front);
      var soFar := before + [Poll(items)] + front;
      assert all == soFar + [last] && after[..|after|] == after;
      FoldSnoc(Apply, START, soFar, last);
      RunIsSound(soFar);
      StepGoesOn(Run(before), items, Run(soFar), last);
    }
  }

  /** And the watcher rests only when all of them are answered. */
  lemma PollAnswersAll(before: seq<Step>, items: seq<Item>, after: seq<Step>, last: Step, j: nat)
    requires Run(before).place.Waiting?
    requires forall k :: 0 <= k <= |after| ==> !Run(before + [Poll(items)] + after[..k]).place.Waiting?
    requires Run(before + [Poll(items)] + after + [last]).place.Waiting?
    requires j < |items| && Ours(items[j], Run(before).allowed)
    ensures Answered(items[j], Run(before + [Poll(items)] + after + [last]).tries, |Run(before).tries|)
  {
    var all := before + [Poll(items)] + after;
    PollIsGoneOver(before, items, after);
    FoldSnoc(Apply, START, all, last);
    assert after[..|after|] == after;
  }

  // ---- The watcher ----

  class Watcher {
    var allowedSessions: set<string>
    var approvalsBySession: map<string, nat>
    var seen: set<string>
    var place: Place          // the local variables of the thread
    ghost var tries: seq<Try>
    ghost var steps: seq<Step>

    ghost function View(): State
      reads this
    {
      State(allowedSessions, approvalsBySession, seen, place, tries)
    }

    ghost predicate Valid()
      reads this
    {
      View() == Run(steps)
    }

    constructor ()
      ensures Valid() && steps == []
    {
      allowedSessions, approvalsBySession, seen, place := {}, map[], {}, Waiting;
      tries, steps := [], [];
    }

    ghost method Note(step: Step)
      requires View() == Apply(Run(steps), step)
      modifies this`steps
      ensures Valid() && steps == old(steps) + [step]
    {
      FoldSnoc(Apply, START, steps, step);
      steps := steps + [step];
    }

    method Allow(session: string)
      requires Valid()
      modifies this
      ensures Valid() && steps == old(steps) + [Step.Allow(session)]
    {
      allowedSessions := allowedSessions + {session};
      if session !in approvalsBySession {
        approvalsBySession := approvalsBySession[session := 0];
      }
      assert approvalsBySession == Bumped(old(approvalsBySession), session, 0);
      Note(Step.Allow(session));
    }

    method ApprovalCount(session: string) returns (count: nat)
      requires Valid()
      ensures count + Due(place, session) == Approved(tries, session)
    {
      RunIsSound(steps);
      assert Sound(View());
      count := if session in approvalsBySession then approvalsBySession[session] else 0;
    }

    method BeginPoll(items: seq<Item>)
      requires Valid() && place.Waiting?
      modifies this
      ensures Valid() && steps == old(steps) + [Poll(items)]
    {
      place := Going(items, allowedSessions);
      Note(Poll(items));
    }

    method HandleNext(ok: bool)
      requires Valid() && place.Going? && place.items != []
      modifies this
      ensures Valid() && steps == old(steps) + [Handle(ok)]
    {
      var item := place.items[0];
      if item.id.None? || item.id.value == "" || item.id.value in seen {
        place := Going(place.items[1..], place.snapshot);
      } else if item.session.None? || item.session.value !in place.snapshot {
        place := Going(place.items[1..], place.snapshot);
      } else {
        tries := tries + [Try(item.id.value, item.session.value, ok)];
        place := if ok then Noting(item.id.value, item.session.value, place.items[1..], place.snapshot)
                 else Going(place.items[1..], place.snapshot);
      }
      Note(Handle(ok));
    }

    method NoteReply()
      requires Valid() && place.Noting?
      modifies this
      ensures Valid() && steps == old(steps) + [See]
    {
      seen := seen + {place.id};
      place := Counting(place.session, place.items, place.snapshot);
      Note(See);
    }

    method CountReply()
      requires Valid() && place.Counting?
      modifies this
      ensures Valid() && steps == old(steps) + [Count]
    {
      var count := if place.session in approvalsBySession then approvalsBySession[place.session] else 0;
      approvalsBySession := approvalsBySession[place.session := count + 1];
      place := Going(place.items, place.snapshot);
      Note(Count);
    }

    method EndPoll()
      requires Valid() && place.Going? && place.items == []
      modifies this
      ensures Valid() && steps == old(steps) + [Rest]
    {
      place := Waiting;
      Note(Rest);
    }
  }
}
