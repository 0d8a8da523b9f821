/** What holds of every GitHub run, whatever its event and whichever of its calls fail. */
module GithubRunSafety {
  import opened Seqs
  import opened GithubRun

  // ---- What a run knows ----

  datatype Facts = Facts(
    permitted: bool, uncommitted: bool, changed: bool, staged: bool, committed: bool, published: bool,
    heads: set<string>, checkedOut: set<string>, pushed: set<string>)

  const NOTHING := Facts(false, false, false, false, false, false, {}, {}, {})

  /** What an entry adds to what is known; a failed call adds nothing. */
  function Learn(k: Facts, e: Entry): Facts {
    if e.answer.Failed? then k
    else
      var call, text := e.call, e.answer.text;
      Facts(
        k.permitted || (call.ReadPermission? && (text == "admin" || text == "write")),
        k.uncommitted || (call.ReadStatus? && text != ""),
        k.changed || (call.ReadStatus? && text != "") || (call.ReadHead? && k.heads - {text} != {}),
        k.staged || call.AddAll?,
        k.committed || call.Commit?,
        k.published || call.PushNew? || call.PushCurrent? || call.PushFork?,
        if call.ReadHead? then k.heads + {text} else k.heads,
        if call.CheckoutNew? then k.checkedOut + {call.branch} else k.checkedOut,
        if call.PushNew? then k.pushed + {call.branch} else k.pushed)
  }

  predicate Within(a: Facts, b: Facts) {
    && (a.permitted ==> b.permitted) && (a.uncommitted ==> b.uncommitted)
    && (a.changed ==> b.changed) && (a.staged ==> b.staged)
    && (a.committed ==> b.committed) && (a.published ==> b.published)
    && a.heads <= b.heads && a.checkedOut <= b.checkedOut && a.pushed <= b.pushed
  }

  /** The same is known about changes of the working copy. */
  predicate SameFindings(a: Facts, b: Facts) {
    a.heads == b.heads && a.changed == b.changed && a.uncommitted == b.uncommitted
  }

  predicate NothingFound(k: Facts) {
    k.heads == {} && !k.changed && !k.uncommitted
  }

  predicate IsPush(call: Call) {
    || call.PushNew? || call.PushCurrent?
    || call.ReadForkRemote? || call.SetForkRemote? || call.AddForkRemote? || call.PushFork?
  }

  predicate IsPublishing(call: Call) {
    IsPush(call) || call.AddAll? || call.Commit? || call.FindPr? || call.PostPr?
  }

  predicate Warranted(job: Job, k: Facts, call: Call) {
    && (call.AddAll? || call.Commit? ==> k.uncommitted)
    && (call.Commit? ==> k.staged)
    && (IsPush(call) ==> k.changed)
    && (call.PushNew? ==> call.branch in k.checkedOut)
    && (call.FindPr? || call.PostPr? ==> call.head in k.pushed && call.head in k.checkedOut)
    && (IsUserEvent(job.event) && IsPublishing(call) ==> k.permitted)
  }

  // ---- What a run tells the outside ----

  /** The comments tried and posted, the reactions tried, the handles obtained, the removals. */
  datatype Talk = Talk(comments: nat, posted: nat, added: nat, handles: seq<Handle>, removals: nat)

  const SILENCE := Talk(0, 0, 0, [], 0)

  /** The handle an added reaction gave, if it gave one. */
  function HandleOf(e: Entry): Option<Handle> {
    if e.call.AddReaction? && e.answer.Said? && e.answer.number.Some?
    then Some(Handle(e.call.target, e.answer.number.value)) else None
  }

  function Hear(t: Talk, e: Entry): Talk {
    match e.call
    case PostComment(_, _, _) =>
      t.(comments := t.comments + 1, posted := t.posted + (if e.answer.Said? then 1 else 0))
    case AddReaction(_, _) =>
      t.(added := t.added + 1, handles := t.handles + (if HandleOf(e).Some? then [HandleOf(e).value] else []))
    case RemoveReaction(_) => t.(removals := t.removals + 1)
    case _ => t
  }

  predicate Silent(call: Call) {
    !call.PostComment? && !call.AddReaction? && !call.RemoveReaction?
  }

  // ---- What an observer makes of a run ----

  datatype View = View(lawful: bool, known: Facts, told: Talk)

  const BLANK := View(true, NOTHING, SILENCE)

  function Look(job: Job, v: View, e: Entry): View {
    View(v.lawful && Warranted(job, v.known, e.call), Learn(v.known, e), Hear(v.told, e))
  }

  function Snoc(tr: Trace, e: Entry): Trace {
    tr + [e]
  }

  type Watch = Trace -> View

  /** All the phases need to know of an observer: it looks at every entry as it comes. */
  ghost predicate Watches(view: Watch, job: Job) {
    forall tr, e {:trigger view(Snoc(tr, e))} :: view(Snoc(tr, e)) == Look(job, view(tr), e)
  }

  // ---- One call ----

  lemma CallIsLawful(view: Watch, tape: Tape, job: Job, tr: Trace, call: Call)
    requires Watches(view, job)
    requires view(tr).lawful && Warranted(job, view(tr).known, call)
    ensures var next, e := Called(tape, tr, call), Entry(call, tape(|tr|));
            view(next).lawful && view(next).known == Learn(view(tr).known, e) && view(next).told == Hear(view(tr).told, e)
  {
    assert view(Snoc(tr, Entry(call, tape(|tr|)))) == Look(job, view(tr), Entry(call, tape(|tr|)));
  }

  lemma LearningKeeps(k: Facts, e: Entry)
    ensures Within(k, Learn(k, e))
  {
  }

  /** A lawful stretch that forgets nothing and tells nothing. */
  predicate Quiet(a: View, b: View) {
    b.lawful && Within(a.known, b.known) && b.told == a.told
  }

  /** Lawful so far and, for a user event, permitted. */
  predicate Cleared(job: Job, v: View) {
    v.lawful && (IsUserEvent(job.event) ==> v.known.permitted)
  }

  lemma QuietTrans(a: View, b: View, c: View)
    requires Quiet(a, b) && Quiet(b, c)
    ensures Quiet(a, c)
  {
  }

  lemma NeedIsQuiet(view: Watch, tape: Tape, job: Job, tr: Trace, call: Call)
    requires Watches(view, job)
    requires view(tr).lawful && Warranted(job, view(tr).known, call) && Silent(call)
    ensures var flow := Need(tape, tr, call);
            && Quiet(view(tr), view(flow.trace)) && (Cleared(job, view(tr)) ==> Cleared(job, view(flow.trace)))
            && view(flow.trace).known == Learn(view(tr).known, Entry(call, tape(|tr|)))
            && (flow.Go? ==> flow.value == tape(|tr|) && flow.value.Said?)
  {
    CallIsLawful(view, tape, job, tr, call);
    LearningKeeps(view(tr).known, Entry(call, tape(|tr|)));
  }

  // ---- The phases ----

  /** A phase that is quiet and stops with no internal error. */
  predicate Fine<T>(view: Watch, job: Job, tr: Trace, flow: Flow<T>) {
    Quiet(view(tr), view(flow.trace)) && Cleared(job, view(flow.trace)) && (flow.Stop? ==> !flow.error.Missing?)
  }

  /** A phase that also finds out nothing new. */
  predicate Plain<T>(view: Watch, job: Job, tr: Trace, flow: Flow<T>) {
    Fine(view, job, tr, flow) && SameFindings(view(tr).known, view(flow.trace).known)
  }

  /** Calls whose answers matter later. */
  predicate Teaches(call: Call) {
    || call.ReadPermission? || call.ReadStatus? || call.ReadHead? || call.AddAll? || call.Commit?
    || call.CheckoutNew? || call.PushNew? || call.PushCurrent? || call.PushFork?
  }

  lemma NeedIsPlain(view: Watch, tape: Tape, job: Job, tr: Trace, call: Call)
    requires Watches(view, job)
    requires Cleared(job, view(tr)) && Warranted(job, view(tr).known, call) && Silent(call) && !Teaches(call)
    ensures var flow := Need(tape, tr, call);
            && Plain(view, job, tr, flow) && view(flow.trace).known == view(tr).known
            && (flow.Go? ==> flow.value == tape(|tr|))
  {
    NeedIsQuiet(view, tape, job, tr, call);
  }

  lemma PrerequisitesLawful(view: Watch, tape: Tape, job: Job, tr: Trace)
    requires Watches(view, job)
    requires view(tr).lawful
    ensures var flow := Prerequisites(tape, job, tr);
            && Quiet(view(tr), view(flow.trace)) && SameFindings(view(tr).known, view(flow.trace).known)
            && (flow.Go? ==> Cleared(job, view(flow.trace)))
            && (flow.Go? && IsUserEvent(job.event) ==> job.repo.Some? && IssueNumber(job).Some?)
            && (flow.Stop? ==> !flow.error.Missing?)
  {
    if IsUserEvent(job.event) && job.repo.Some? && IssueNumber(job).Some? && job.actor.Some? {
      NeedIsQuiet(view, tape, job, tr, ReadPermission(job.repo.value, job.actor.value));
    }
  }

  lemma GatherLawful(view: Watch, tape: Tape, job: Job, tr: Trace)
    requires Watches(view, job)
    requires Cleared(job, view(tr))
    ensures Plain(view, job, tr, Gather(tape, job, tr))
  {
    if job.repo.Some? && IssueNumber(job).Some? {
      NeedIsPlain(view, tape, job, tr, ReadContext(job.repo.value, IssueNumber(job).value, IsPrContext(job)));
    }
  }

  /** Just the head before the work is known. */
  predicate Settled(ready: Prepared, k: Facts) {
    !k.changed && !k.uncommitted && k.heads == if ready.head.Some? then {ready.head.value} else {}
  }

  /** What the publishing phase may rely on. */
  predicate Ready(job: Job, ready: Prepared, k: Facts) {
    && (ready.branch.Some? ==> ready.branch.value in k.checkedOut)
    && (ready.head.Some? ==> job.repo.Some?)
    && (ready.head.Some? && IsPrContext(job) ==> ready.info.Some?)
    && (ready.head.Some? && !IsPrContext(job) ==> ready.branch.Some? && ready.base.Some?)
  }

  lemma PrepareBranchLawful(view: Watch, tape: Tape, job: Job, repo: Repo, branch: string, tr: Trace)
    requires Watches(view, job)
    requires Cleared(job, view(tr)) && job.repo == Some(repo) && !IsPrContext(job) && NothingFound(view(tr).known)
    ensures var flow := PrepareBranch(tape, repo, branch, tr);
            Fine(view, job, tr, flow) && (flow.Go? ==> Ready(job, flow.value, view(flow.trace).known) && Settled(flow.value, view(flow.trace).known))
  {
    NeedIsQuiet(view, tape, job, tr, CheckoutNew(branch));
    var first := Need(tape, tr, CheckoutNew(branch));
    if first.Go? {
      NeedIsPlain(view, tape, job, first.trace, ReadDefaultBranch(repo));
      var second := Need(tape, first.trace, ReadDefaultBranch(repo));
      QuietTrans(view(tr), view(first.trace), view(second.trace));
      if second.Go? {
        NeedIsQuiet(view, tape, job, second.trace, ReadHead);
        QuietTrans(view(tr), view(second.trace), view(Need(tape, second.trace, ReadHead).trace));
      }
    }
  }

  lemma PreparePrLawful(view: Watch, tape: Tape, job: Job, repo: Repo, number: nat, tr: Trace)
    requires Watches(view, job)
    requires Cleared(job, view(tr)) && job.repo == Some(repo) && IsPrContext(job) && NothingFound(view(tr).known)
    ensures var flow := PreparePr(tape, repo, number, tr);
            Fine(view, job, tr, flow) && (flow.Go? ==> Ready(job, flow.value, view(flow.trace).known) && Settled(flow.value, view(flow.trace).known))
  {
    NeedIsPlain(view, tape, job, tr, CheckoutPr(repo, number));
    var first := Need(tape, tr, CheckoutPr(repo, number));
    if first.Go? {
      NeedIsPlain(view, tape, job, first.trace, ReadPrInfo(repo, number));
      var second := Need(tape, first.trace, ReadPrInfo(repo, number));
      QuietTrans(view(tr), view(first.trace), view(second.trace));
      if second.Go? && second.value.info.Some? {
        NeedIsQuiet(view, tape, job, second.trace, ReadHead);
        QuietTrans(view(tr), view(second.trace), view(Need(tape, second.trace, ReadHead).trace));
      }
    }
  }

  lemma PrepareLawful(view: Watch, tape: Tape, job: Job, tr: Trace)
    requires Watches(view, job)
    requires Cleared(job, view(tr)) && NothingFound(view(tr).known)
    ensures var flow := Prepare(tape, job, tr);
            Fine(view, job, tr, flow) && (flow.Go? ==> Ready(job, flow.value, view(flow.trace).known) && Settled(flow.value, view(flow.trace).known))
  {
    if job.repo.Some? {
      if IsRepoEvent(job.event) {
        var prefix := if job.event == "workflow_dispatch" then "dispatch" else "schedule";
        PrepareBranchLawful(view, tape, job, job.repo.value, BranchName(prefix, None, job.stamp), tr);
      } else if IssueNumber(job).Some? {
        if IsPrContext(job) {
          PreparePrLawful(view, tape, job, job.repo.value, IssueNumber(job).value, tr);
        } else {
          PrepareBranchLawful(view, tape, job, job.repo.value, BranchName("issue", IssueNumber(job), job.stamp), tr);
        }
      }
    }
  }

  lemma DetectDirtyLawful(view: Watch, tape: Tape, job: Job, ready: Prepared, tr: Trace)
    requires Watches(view, job)
    requires Cleared(job, view(tr)) && Ready(job, ready, view(tr).known) && Settled(ready, view(tr).known)
    ensures var flow := DetectDirty(tape, ready.head, tr);
            && Fine(view, job, tr, flow) && Ready(job, ready, view(flow.trace).known)
            && (flow.Go? ==> (flow.value.0 <==> view(flow.trace).known.changed))
            && (flow.Go? ==> (flow.value.1 <==> view(flow.trace).known.uncommitted))
            && (flow.Go? && flow.value.0 ==> ready.head.Some?)
  {
    if ready.head.Some? {
      NeedIsQuiet(view, tape, job, tr, ReadStatus);
      var status := Need(tape, tr, ReadStatus);
      if status.Go? && status.value.text == "" {
        NeedIsQuiet(view, tape, job, status.trace, ReadHead);
        var now := Need(tape, status.trace, ReadHead);
        QuietTrans(view(tr), view(status.trace), view(now.trace));
        if now.Go? {
          assert ({ready.head.value} - {now.value.text} != {}) <==> now.value.text != ready.head.value by {
            assert now.value.text != ready.head.value ==> ready.head.value in {ready.head.value} - {now.value.text};
          }
        }
      }
    }
  }

  lemma CommitLawful(view: Watch, tape: Tape, job: Job, uncommitted: bool, tr: Trace)
    requires Watches(view, job)
    requires Cleared(job, view(tr)) && (uncommitted ==> view(tr).known.uncommitted)
    ensures var flow := CommitIf(tape, uncommitted, tr);
            Plain(view, job, tr, flow) && (flow.Go? && uncommitted ==> view(flow.trace).known.committed)
  {
    if uncommitted {
      NeedIsQuiet(view, tape, job, tr, AddAll);
      var added := Need(tape, tr, AddAll);
      if added.Go? {
        NeedIsQuiet(view, tape, job, added.trace, Commit);
        QuietTrans(view(tr), view(added.trace), view(Need(tape, added.trace, Commit).trace));
      }
    }
  }

  lemma CreatePrLawful(view: Watch, tape: Tape, job: Job, repo: Repo, base: string, head: string, tr: Trace)
    requires Watches(view, job)
    requires Cleared(job, view(tr)) && head in view(tr).known.pushed && head in view(tr).known.checkedOut
    ensures Plain(view, job, tr, CreatePr(tape, repo, base, head, tr))
  {
    NeedIsPlain(view, tape, job, tr, FindPr(repo, base, head));
    var found := Need(tape, tr, FindPr(repo, base, head));
    if found.Go? && found.value.number.None? {
      NeedIsPlain(view, tape, job, found.trace, PostPr(repo, base, head));
      QuietTrans(view(tr), view(found.trace), view(Need(tape, found.trace, PostPr(repo, base, head)).trace));
    }
  }

  predicate Done(uncommitted: bool, k: Facts) {
    k.published && (uncommitted ==> k.committed)
  }

  lemma PushAndOpenLawful(view: Watch, tape: Tape, job: Job, repo: Repo, base: string, branch: string, uncommitted: bool, tr: Trace)
    requires Watches(view, job)
    requires Cleared(job, view(tr)) && branch in view(tr).known.checkedOut && view(tr).known.changed
    requires uncommitted ==> view(tr).known.uncommitted
    ensures var flow := PushAndOpen(tape, repo, base, branch, uncommitted, tr);
            Plain(view, job, tr, flow) && (flow.Go? ==> Done(uncommitted, view(flow.trace).known))
  {
    CommitLawful(view, tape, job, uncommitted, tr);
    var committed := CommitIf(tape, uncommitted, tr);
    if committed.Go? {
      NeedIsQuiet(view, tape, job, committed.trace, PushNew(branch));
      var pushed := Need(tape, committed.trace, PushNew(branch));
      QuietTrans(view(tr), view(committed.trace), view(pushed.trace));
      if pushed.Go? {
        CreatePrLawful(view, tape, job, repo, base, branch, pushed.trace);
        QuietTrans(view(tr), view(pushed.trace), view(CreatePr(tape, repo, base, branch, pushed.trace).trace));
      }
    }
  }

  lemma PushToForkLawful(view: Watch, tape: Tape, job: Job, info: PrInfo, tr: Trace)
    requires Watches(view, job)
    requires Cleared(job, view(tr)) && view(tr).known.changed
    ensures var flow := PushToFork(tape, info, tr);
            Plain(view, job, tr, flow) && (flow.Go? ==> view(flow.trace).known.published)
  {
    var url := "https://github.com/" + info.headRepo + ".git";
    NeedIsPlain(view, tape, job, tr, ReadForkRemote);
    var tr1 := Called(tape, tr, ReadForkRemote);
    var remote := if tape(|tr|).Said? then SetForkRemote(url) else AddForkRemote(url);
    NeedIsPlain(view, tape, job, tr1, remote);
    var known := Need(tape, tr1, remote);
    QuietTrans(view(tr), view(tr1), view(known.trace));
    if known.Go? {
      NeedIsQuiet(view, tape, job, known.trace, PushFork(info.headRef));
      QuietTrans(view(tr), view(known.trace), view(Need(tape, known.trace, PushFork(info.headRef)).trace));
    }
  }

  lemma PushPrLawful(view: Watch, tape: Tape, job: Job, info: Option<PrInfo>, tr: Trace)
    requires Watches(view, job)
    requires Cleared(job, view(tr)) && view(tr).known.changed
    ensures var flow := PushPr(tape, info, tr);
            Plain(view, job, tr, flow) && (flow.Go? ==> view(flow.trace).known.published)
  {
    if info.Some? && info.value.headRepo != info.value.baseRepo {
      PushToForkLawful(view, tape, job, info.value, tr);
    } else {
      NeedIsQuiet(view, tape, job, tr, PushCurrent);
    }
  }

  // ---- Publishing ends with at most one comment ----

  /** What was found changed has been published, what was uncommitted has been committed, and
      outside pull requests a change ends in one. */
  predicate Delivered(job: Job, outcome: Outcome, k: Facts) {
    && (k.changed ==> k.published)
    && (k.uncommitted ==> k.committed)
    && (!IsPrContext(job) ==> (outcome.Opened? <==> k.changed))
  }

  /** How work that began after `tr` ends: lawfully, never with an internal error, never by
      falling through.  A user event that succeeds has posted its one comment, a repository
      event none, and a failure has posted none; what succeeds has delivered. */
  predicate WellEnded(view: Watch, job: Job, tr: Trace, flow: Flow<Outcome>) {
    var before, after := view(tr).told, view(flow.trace).told;
    && view(flow.trace).lawful
    && (flow.Stop? ==> !flow.error.Missing? && after == before.(comments := after.comments))
    && (flow.Go? ==> flow.value != FellThrough && Delivered(job, flow.value, view(flow.trace).known)
                     && after == if IsUserEvent(job.event)
                                 then before.(comments := before.comments + 1, posted := before.posted + 1) else before)
  }

  /** A quiet stretch before work that ends well. */
  lemma Prolonged(view: Watch, job: Job, a: Trace, b: Trace, flow: Flow<Outcome>)
    requires Quiet(view(a), view(b)) && WellEnded(view, job, b, flow)
    ensures WellEnded(view, job, a, flow)
  {
  }

  function Commented(tape: Tape, tr: Trace, repo: Repo, issue: nat, message: Message, outcome: Outcome): Flow<Outcome> {
    var (_, next) :- Need(tape, tr, PostComment(repo, issue, message));
    Go(outcome, next)
  }

  lemma CommentEnds(view: Watch, tape: Tape, job: Job, tr: Trace, repo: Repo, issue: nat, message: Message, outcome: Outcome)
    requires Watches(view, job)
    requires view(tr).lawful && IsUserEvent(job.event) && outcome != FellThrough && Delivered(job, outcome, view(tr).known)
    ensures WellEnded(view, job, tr, Commented(tape, tr, repo, issue, message, outcome))
  {
    CallIsLawful(view, tape, job, tr, PostComment(repo, issue, message));
  }

  lemma PublishRepoEnds(view: Watch, tape: Tape, job: Job, ready: Prepared, tr: Trace)
    requires Watches(view, job)
    requires Cleared(job, view(tr)) && Ready(job, ready, view(tr).known) && Settled(ready, view(tr).known)
    requires IsRepoEvent(job.event)
    ensures WellEnded(view, job, tr, PublishRepo(tape, job, ready, tr))
  {
    DetectDirtyLawful(view, tape, job, ready, tr);
    var dirt := DetectDirty(tape, ready.head, tr);
    if dirt.Go? && dirt.value.0 {
      var repo, base, branch := job.repo.value, ready.base.value, ready.branch.value;
      PushAndOpenLawful(view, tape, job, repo, base, branch, dirt.value.1, dirt.trace);
      QuietTrans(view(tr), view(dirt.trace), view(PushAndOpen(tape, repo, base, branch, dirt.value.1, dirt.trace).trace));
    }
  }

  lemma PublishPrEnds(view: Watch, tape: Tape, job: Job, repo: Repo, issue: nat, ready: Prepared, dirt: (bool, bool), tr: Trace)
    requires Watches(view, job)
    requires Cleared(job, view(tr)) && IsUserEvent(job.event) && IsPrContext(job)
    requires (dirt.0 <==> view(tr).known.changed) && (dirt.1 <==> view(tr).known.uncommitted) && (dirt.1 ==> dirt.0)
    ensures WellEnded(view, job, tr, PublishPr(tape, repo, issue, ready, dirt, tr))
  {
    CommitLawful(view, tape, job, dirt.0 && dirt.1, tr);
    var committed := CommitIf(tape, dirt.0 && dirt.1, tr);
    if committed.Go? {
      var pushed := if dirt.0 then PushPr(tape, ready.info, committed.trace) else Go((), committed.trace);
      if dirt.0 {
        PushPrLawful(view, tape, job, ready.info, committed.trace);
        QuietTrans(view(tr), view(committed.trace), view(pushed.trace));
      }
      if pushed.Go? {
        CommentEnds(view, tape, job, pushed.trace, repo, issue, Response, Answered);
        Prolonged(view, job, tr, pushed.trace, Commented(tape, pushed.trace, repo, issue, Response, Answered));
      }
    }
  }

  lemma PublishIssueEnds(view: Watch, tape: Tape, job: Job, repo: Repo, issue: nat, ready: Prepared, dirt: (bool, bool), tr: Trace)
    requires Watches(view, job)
    requires Cleared(job, view(tr)) && IsUserEvent(job.event) && !IsPrContext(job) && Ready(job, ready, view(tr).known)
    requires (dirt.0 <==> view(tr).known.changed) && (dirt.1 <==> view(tr).known.uncommitted) && (dirt.1 ==> dirt.0)
    requires dirt.0 ==> ready.head.Some?
    ensures WellEnded(view, job, tr, PublishIssue(tape, repo, issue, ready, dirt, tr))
  {
    if !dirt.0 {
      CommentEnds(view, tape, job, tr, repo, issue, Response, Answered);
    } else {
      var base, branch := ready.base.value, ready.branch.value;
      PushAndOpenLawful(view, tape, job, repo, base, branch, dirt.1, tr);
      var made := PushAndOpen(tape, repo, base, branch, dirt.1, tr);
      if made.Go? {
        CommentEnds(view, tape, job, made.trace, repo, issue, PrLink(made.value), Opened(made.value));
        Prolonged(view, job, tr, made.trace, Commented(tape, made.trace, repo, issue, PrLink(made.value), Opened(made.value)));
      }
    }
  }

  lemma PublishUserEnds(view: Watch, tape: Tape, job: Job, ready: Prepared, tr: Trace)
    requires Watches(view, job)
    requires Cleared(job, view(tr)) && Ready(job, ready, view(tr).known) && Settled(ready, view(tr).known)
    requires IsUserEvent(job.event)
    requires job.repo.Some? && IssueNumber(job).Some?
    ensures WellEnded(view, job, tr, PublishUser(tape, job, ready, tr))
  {
    DetectDirtyLawful(view, tape, job, ready, tr);
    var dirt := DetectDirty(tape, ready.head, tr);
    if dirt.Go? {
      var repo, issue := job.repo.value, IssueNumber(job).value;
      if IsPrContext(job) {
        PublishPrEnds(view, tape, job, repo, issue, ready, dirt.value, dirt.trace);
        Prolonged(view, job, tr, dirt.trace, PublishPr(tape, repo, issue, ready, dirt.value, dirt.trace));
      } else {
        PublishIssueEnds(view, tape, job, repo, issue, ready, dirt.value, dirt.trace);
        Prolonged(view, job, tr, dirt.trace, PublishIssue(tape, repo, issue, ready, dirt.value, dirt.trace));
      }
    }
  }

  lemma AskedEnds(view: Watch, tape: Tape, job: Job, ready: Prepared, tr: Trace)
    requires Watches(view, job)
    requires Cleared(job, view(tr)) && Ready(job, ready, view(tr).known) && Settled(ready, view(tr).known)
    requires Supported(job.event)
    requires IsUserEvent(job.event) ==> job.repo.Some? && IssueNumber(job).Some?
    ensures WellEnded(view, job, tr, Asked(tape, job, ready, tr))
  {
    NeedIsPlain(view, tape, job, tr, AskAgent);
    var asked := Need(tape, tr, AskAgent);
    if asked.Go? {
      if IsRepoEvent(job.event) {
        PublishRepoEnds(view, tape, job, ready, asked.trace);
      } else {
        PublishUserEnds(view, tape, job, ready, asked.trace);
      }
      Prolonged(view, job, tr, asked.trace, Publish(tape, job, ready, asked.trace));
    }
  }

  lemma WorkEnds(view: Watch, tape: Tape, job: Job, tr: Trace)
    requires Watches(view, job)
    requires Cleared(job, view(tr)) && Supported(job.event) && NothingFound(view(tr).known)
    requires IsUserEvent(job.event) ==> job.repo.Some? && IssueNumber(job).Some?
    ensures WellEnded(view, job, tr, Work(tape, job, tr))
  {
    GatherLawful(view, tape, job, tr);
    var gathered := Gather(tape, job, tr);
    if gathered.Go? {
      PrepareLawful(view, tape, job, gathered.trace);
      var prepared := Prepare(tape, job, gathered.trace);
      QuietTrans(view(tr), view(gathered.trace), view(prepared.trace));
      if prepared.Go? {
        AskedEnds(view, tape, job, prepared.value, prepared.trace);
        Prolonged(view, job, tr, prepared.trace, Work(tape, job, tr));
      }
    }
  }

  // ---- Whole runs ----

  /** Without a handle nothing is removed; the one handle obtained is removed by the last call. */
  predicate Released(view: Watch, tr: Trace) {
    var told := view(tr).told;
    && |told.handles| <= 1
    && told.removals == |told.handles|
    && (told.handles != [] ==> tr != [] && tr[|tr| - 1].call == RemoveReaction(told.handles[0]))
  }

  /** What a run leaves behind. */
  predicate Tidy(view: Watch, job: Job, flow: Flow<Outcome>) {
    var told := view(flow.trace).told;
    && view(flow.trace).lawful && Released(view, flow.trace)
    && (flow.Stop? ==> !flow.error.Missing?)
    && (flow.Go? ==> flow.value != FellThrough)
    && (flow.Go? ==> Delivered(job, flow.value, view(flow.trace).known))
    && told.posted <= 1 && told.added <= 1
    && (flow.Go? && IsUserEvent(job.event) ==> told.posted == 1 && told.comments == 1)
  }

  lemma ReactTold(view: Watch, tape: Tape, job: Job, tr: Trace)
    requires Watches(view, job)
    requires Cleared(job, view(tr)) && view(tr).told == SILENCE
    ensures var (reaction, next) := React(tape, job, tr);
            && Cleared(job, view(next)) && SameFindings(view(tr).known, view(next).known) && view(next).told.added <= 1
            && view(next).told == Talk(0, 0, view(next).told.added, if reaction.Some? then [reaction.value] else [], 0)
  {
    if IsUserEvent(job.event) && job.repo.Some? && IssueNumber(job).Some? {
      CallIsLawful(view, tape, job, tr, AddReaction(job.repo.value, ReactionTarget(job, IssueNumber(job).value)));
    }
  }

  lemma ReportTold(view: Watch, tape: Tape, job: Job, error: Error, tr: Trace)
    requires Watches(view, job)
    requires view(tr).lawful
    ensures var next := Report(tape, job, error, tr);
            && view(next).lawful && view(next).told.posted <= view(tr).told.posted + 1
            && view(next).told == view(tr).told.(comments := view(next).told.comments, posted := view(next).told.posted)
  {
    if IsUserEvent(job.event) && job.repo.Some? && IssueNumber(job).Some? {
      CallIsLawful(view, tape, job, tr, PostComment(job.repo.value, IssueNumber(job).value, Problem(error)));
    }
  }

  lemma CleanUpReleases(view: Watch, tape: Tape, job: Job, reaction: Option<Handle>, tr: Trace)
    requires Watches(view, job)
    requires view(tr).lawful && view(tr).told.removals == 0
    requires view(tr).told.handles == if reaction.Some? then [reaction.value] else []
    ensures var next := CleanUp(tape, reaction, tr);
            view(next).lawful && view(next).known == view(tr).known && Released(view, next) && view(next).told == view(tr).told.(removals := view(next).told.removals)
  {
    if reaction.Some? {
      CallIsLawful(view, tape, job, tr, RemoveReaction(reaction.value));
    }
  }

  lemma WorkedRunIsTidy(view: Watch, tape: Tape, job: Job, tr: Trace)
    requires Watches(view, job)
    requires Cleared(job, view(tr)) && Supported(job.event) && view(tr).told == SILENCE && NothingFound(view(tr).known)
    requires IsUserEvent(job.event) ==> job.repo.Some? && IssueNumber(job).Some?
    ensures Tidy(view, job, Worked(tape, job, tr))
  {
    ReactTold(view, tape, job, tr);
    var (reaction, next) := React(tape, job, tr);
    WorkEnds(view, tape, job, next);
    match Work(tape, job, next) {
      case Stop(error, last) =>
        ReportTold(view, tape, job, error, last);
        CleanUpReleases(view, tape, job, reaction, Report(tape, job, error, last));
      case Go(_, last) =>
        CleanUpReleases(view, tape, job, reaction, last);
    }
  }

  lemma RunIsTidy(view: Watch, tape: Tape, job: Job)
    requires Watches(view, job) && view([]) == BLANK
    ensures Tidy(view, job, Whole(tape, job))
  {
    NeedIsQuiet(view, tape, job, [], CheckGh);
    var first := Need(tape, [], CheckGh);
    if first.Go? && Supported(job.event) {
      PrerequisitesLawful(view, tape, job, first.trace);
      match Prerequisites(tape, job, first.trace) {
        case Stop(error, tr) => ReportTold(view, tape, job, error, tr);
        case Go(_, tr) => WorkedRunIsTidy(view, tape, job, tr);
      }
    }
  }

  // ---- What the trace shows ----

  ghost predicate Did(past: Trace, call: Call) {
    exists e :: e in past && e.call == call && e.answer.Said?
  }

  ghost predicate HeadRead(past: Trace, head: string) {
    exists e :: e in past && e.call == ReadHead && e.answer.Said? && e.answer.text == head
  }

  ghost predicate Uncommitted(past: Trace) {
    exists e :: e in past && e.call == ReadStatus && e.answer.Said? && e.answer.text != ""
  }

  /** Something changed: uncommitted files were seen, or two different heads. */
  ghost predicate Changed(past: Trace) {
    Uncommitted(past) || exists a, b :: a != b && HeadRead(past, a) && HeadRead(past, b)
  }

  ghost predicate Permitted(past: Trace) {
    exists e :: e in past && e.call.ReadPermission? && e.answer.Said? && (e.answer.text == "admin" || e.answer.text == "write")
  }

  ghost predicate Pushed(past: Trace) {
    exists e :: e in past && (e.call.PushNew? || e.call.PushCurrent? || e.call.PushFork?) && e.answer.Said?
  }

  /** Commits need uncommitted changes, all of them staged, pushes a change, pull requests a
      push of the branch that was checked out; for a user event all of them need the
      permission. */
  ghost predicate Justified(job: Job, past: Trace, call: Call) {
    && (call.AddAll? || call.Commit? ==> Uncommitted(past))
    && (call.Commit? ==> Did(past, AddAll))
    && (IsPush(call) ==> Changed(past))
    && (call.PushNew? ==> Did(past, CheckoutNew(call.branch)))
    && (call.FindPr? || call.PostPr? ==> Did(past, PushNew(call.head)) && Did(past, CheckoutNew(call.head)))
    && (IsUserEvent(job.event) && IsPublishing(call) ==> Permitted(past))
  }

  /** Every fact known was read off the trace. */
  ghost predicate Grounded(k: Facts, tr: Trace) {
    && (k.permitted ==> Permitted(tr)) && (k.uncommitted ==> Uncommitted(tr))
    && (k.changed ==> Changed(tr)) && (k.staged ==> Did(tr, AddAll))
    && (k.committed ==> Did(tr, Commit)) && (k.published ==> Pushed(tr))
    && (forall head :: head in k.heads ==> HeadRead(tr, head))
    && (forall branch :: branch in k.checkedOut ==> Did(tr, CheckoutNew(branch)))
    && (forall branch :: branch in k.pushed ==> Did(tr, PushNew(branch)))
  }

  /** What a trace shows, a longer one shows too. */
  lemma Lasting(a: Trace, e: Entry)
    ensures forall call :: Did(a, call) ==> Did(a + [e], call)
    ensures forall head :: HeadRead(a, head) ==> HeadRead(a + [e], head)
    ensures Uncommitted(a) ==> Uncommitted(a + [e])
    ensures Permitted(a) ==> Permitted(a + [e])
    ensures Pushed(a) ==> Pushed(a + [e])
  {
    assert forall x :: x in a ==> x in a + [e];
  }

  lemma StaysChanged(a: Trace, e: Entry)
    requires Changed(a)
    ensures Changed(a + [e])
  {
    Lasting(a, e);
    if !Uncommitted(a) {
      var x, y :| x != y && HeadRead(a, x) && HeadRead(a, y);
      assert HeadRead(a + [e], x) && HeadRead(a + [e], y);
    }
  }

  lemma StaysGrounded(k: Facts, a: Trace, e: Entry)
    requires Grounded(k, a)
    ensures Grounded(k, a + [e])
  {
    Lasting(a, e);
    if k.changed {
      StaysChanged(a, e);
    }
  }

  lemma HeadIsGrounded(k: Facts, tr: Trace, e: Entry)
    requires Grounded(k, tr) && e.answer.Said? && e.call == ReadHead && e in tr
    ensures Grounded(Learn(k, e), tr)
  {
    assert HeadRead(tr, e.answer.text);
    if k.heads - {e.answer.text} != {} {
      var other :| other in k.heads - {e.answer.text};
      assert HeadRead(tr, other);
    }
  }

  lemma BranchIsGrounded(k: Facts, tr: Trace, e: Entry)
    requires Grounded(k, tr) && e.answer.Said? && (e.call.CheckoutNew? || e.call.PushNew?) && e in tr
    ensures Grounded(Learn(k, e), tr)
  {
    assert Did(tr, e.call);
  }

  lemma MarkIsGrounded(k: Facts, tr: Trace, e: Entry)
    requires Grounded(k, tr) && e in tr && !e.call.ReadHead? && !e.call.CheckoutNew? && !e.call.PushNew?
    ensures Grounded(Learn(k, e), tr)
  {
    assert e.answer.Said? ==> Did(tr, e.call);
  }

  lemma LearntIsGrounded(k: Facts, tr: Trace, e: Entry)
    requires Grounded(k, tr) && e in tr
    ensures Grounded(Learn(k, e), tr)
  {
    if e.answer.Said? && e.call.ReadHead? {
      HeadIsGrounded(k, tr, e);
    } else if e.answer.Said? && (e.call.CheckoutNew? || e.call.PushNew?) {
      BranchIsGrounded(k, tr, e);
    } else if e.answer.Said? {
      MarkIsGrounded(k, tr, e);
    }
  }

  /** The observer of whole traces. */
  function See(job: Job, tr: Trace): View {
    if tr == [] then BLANK else Look(job, See(job, tr[..|tr| - 1]), tr[|tr| - 1])
  }

  function Told(tr: Trace): Talk {
    if tr == [] then SILENCE else Hear(Told(tr[..|tr| - 1]), tr[|tr| - 1])
  }

  lemma SeeingWatches(job: Job)
    ensures Watches(tr => See(job, tr), job)
  {
    forall tr, e ensures See(job, Snoc(tr, e)) == Look(job, See(job, tr), e) {
      assert Snoc(tr, e)[..|tr|] == tr;
    }
  }

  lemma {:induction false} SeeTold(job: Job, tr: Trace)
    ensures See(job, tr).told == Told(tr)
  {
    if tr != [] {
      SeeTold(job, tr[..|tr| - 1]);
    }
  }

  lemma {:induction false} KnownIsGrounded(job: Job, tr: Trace)
    ensures Grounded(See(job, tr).known, tr)
  {
    if tr != [] {
      var front := tr[..|tr| - 1];
      KnownIsGrounded(job, front);
      StaysGrounded(See(job, front).known, front, tr[|tr| - 1]);
      assert tr == front + [tr[|tr| - 1]];
      LearntIsGrounded(See(job, front).known, tr, tr[|tr| - 1]);
    }
  }

  /** Every finding on the trace is known. */
  ghost predicate Complete(k: Facts, tr: Trace) {
    && (Uncommitted(tr) ==> k.uncommitted && k.changed)
    && (forall head :: HeadRead(tr, head) ==> head in k.heads)
    && (forall a, b :: a in k.heads && b in k.heads && a != b ==> k.changed)
  }

  lemma CompleteOneMore(k: Facts, tr: Trace, e: Entry)
    requires Complete(k, tr)
    ensures Complete(Learn(k, e), tr + [e])
  {
    var next := Learn(k, e);
    assert forall x :: x in tr + [e] ==> x in tr || x == e;
    if e.answer.Said? && e.call == ReadHead {
      forall a | a in k.heads && a != e.answer.text ensures next.changed {
        assert a in k.heads - {e.answer.text};
      }
    }
  }

  lemma {:induction false} KnownIsComplete(job: Job, tr: Trace)
    ensures Complete(See(job, tr).known, tr)
  {
    if tr != [] {
      var front := tr[..|tr| - 1];
      KnownIsComplete(job, front);
      CompleteOneMore(See(job, front).known, front, tr[|tr| - 1]);
      assert tr == front + [tr[|tr| - 1]];
    }
  }

  lemma KnowsWhatChanged(job: Job, tr: Trace)
    ensures var k := See(job, tr).known;
            && (k.changed <==> Changed(tr)) && (k.uncommitted <==> Uncommitted(tr))
            && (k.committed ==> Did(tr, Commit)) && (k.published ==> Pushed(tr))
  {
    KnownIsGrounded(job, tr);
    KnownIsComplete(job, tr);
  }

  lemma {:induction false} LawfulIsJustified(job: Job, tr: Trace, i: nat)
    requires See(job, tr).lawful && i < |tr|
    ensures Justified(job, tr[..i], tr[i].call)
  {
    var front := tr[..|tr| - 1];
    if i < |front| {
      LawfulIsJustified(job, front, i);
      assert front[..i] == tr[..i];
    } else {
      KnownIsGrounded(job, front);
    }
  }

  lemma {:induction false} HandleIsListed(tr: Trace, e: Entry)
    requires e in tr && HandleOf(e).Some?
    ensures HandleOf(e).value in Told(tr).handles && Told(tr).added >= 1
  {
    if tr[|tr| - 1] != e {
      HandleIsListed(tr[..|tr| - 1], e);
    }
  }

  lemma SeenRunIsTidy(tape: Tape, job: Job)
    ensures Tidy(tr => See(job, tr), job, Whole(tape, job))
    ensures See(job, Whole(tape, job).trace).told == Told(Whole(tape, job).trace)
  {
    SeeingWatches(job);
    RunIsTidy(tr => See(job, tr), tape, job);
    SeeTold(job, Whole(tape, job).trace);
  }

  // ---- The facts, one by one ----

  /** The internal errors and the last branch of the publishing phase cannot be reached. */
  lemma InternalErrorsUnreachable(tape: Tape, job: Job)
    ensures var flow := Whole(tape, job);
            (flow.Stop? ==> !flow.error.Missing?) && (flow.Go? ==> flow.value != FellThrough)
  {
    SeenRunIsTidy(tape, job);
  }

  /** Every commit, push and pull request of every run is justified by what came before it. */
  lemma EffectsAreJustified(tape: Tape, job: Job, i: nat)
    requires i < |Whole(tape, job).trace|
    ensures var tr := Whole(tape, job).trace; Justified(job, tr[..i], tr[i].call)
  {
    SeenRunIsTidy(tape, job);
    LawfulIsJustified(job, Whole(tape, job).trace, i);
  }

  /** What a run that succeeds has seen changed, it has pushed, and what it has seen
      uncommitted, committed; outside pull requests it ends with a pull request exactly if
      something changed. */
  lemma SuccessDelivers(tape: Tape, job: Job)
    requires Whole(tape, job).Go?
    ensures var flow := Whole(tape, job);
            && (Uncommitted(flow.trace) ==> Did(flow.trace, Commit))
            && (Changed(flow.trace) ==> Pushed(flow.trace))
            && (!IsPrContext(job) ==> (flow.value.Opened? <==> Changed(flow.trace)))
  {
    SeenRunIsTidy(tape, job);
    KnowsWhatChanged(job, Whole(tape, job).trace);
    DeliveredWhenTidy(tr => See(job, tr), job, Whole(tape, job));
  }

  lemma DeliveredWhenTidy(view: Watch, job: Job, flow: Flow<Outcome>)
    requires Tidy(view, job, flow) && flow.Go?
    ensures Delivered(job, flow.value, view(flow.trace).known)
  {
  }

  lemma ReleasedHandle(view: Watch, job: Job, flow: Flow<Outcome>, handle: Handle)
    requires Tidy(view, job, flow) && handle in view(flow.trace).told.handles
    ensures flow.trace != [] && flow.trace[|flow.trace| - 1].call == RemoveReaction(handle)
    ensures view(flow.trace).told.removals == 1 && view(flow.trace).told.added <= 1
  {
  }

  lemma TidyReleases(job: Job, flow: Flow<Outcome>, e: Entry)
    requires Tidy(tr => See(job, tr), job, flow) && See(job, flow.trace).told == Told(flow.trace)
    requires e in flow.trace && HandleOf(e).Some?
    ensures flow.trace[|flow.trace| - 1].call == RemoveReaction(HandleOf(e).value)
    ensures Told(flow.trace).removals == 1 && Told(flow.trace).added == 1
  {
    HandleIsListed(flow.trace, e);
    ReleasedHandle(tr => See(job, tr), job, flow, HandleOf(e).value);
  }

  /** A reaction handle, once obtained, is removed by exactly one call, the last of the run. */
  lemma ReactionRemovedLast(tape: Tape, job: Job, e: Entry)
    requires e in Whole(tape, job).trace && HandleOf(e).Some?
    ensures var tr := Whole(tape, job).trace;
            && tr[|tr| - 1].call == RemoveReaction(HandleOf(e).value)
            && Told(tr).removals == 1 && Told(tr).added == 1
  {
    SeenRunIsTidy(tape, job);
    TidyReleases(job, Whole(tape, job), e);
  }

  /** No run posts two comments, and a user event that succeeds makes and posts exactly one. */
  lemma CommentsPosted(tape: Tape, job: Job)
    ensures var flow := Whole(tape, job);
            && Told(flow.trace).posted <= 1
            && (flow.Go? && IsUserEvent(job.event) ==> Told(flow.trace).posted == 1 && Told(flow.trace).comments == 1)
  {
    SeenRunIsTidy(tape, job);
  }
}
