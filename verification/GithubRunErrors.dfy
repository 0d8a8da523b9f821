/** Why a GitHub run fails: every error has its reason in the event or in the trace. */
module GithubRunErrors {
  import opened Seqs
  import opened GithubRun
  import opened GithubRunAims
  import Safety = GithubRunSafety

  /** Calls that a run can do without: their failure stops nothing. */
  predicate Optional(call: Call) {
    || call.AddReaction? || call.RemoveReaction? || call.ReadForkRemote?
    || (call.PostComment? && call.message.Problem?)
  }

  ghost predicate Failing(tr: Trace, call: Call) {
    Entry(call, Failed) in tr && !Optional(call)
  }

  ghost predicate Excused(job: Job, tr: Trace, error: Error) {
    match error
    case CallFailed(call) => Failing(tr, call)
    case UnsupportedEvent =>
      job.event !in {"issue_comment", "pull_request_review_comment", "issues", "pull_request", "schedule", "workflow_dispatch"}
    case NoRepository => OfUser(job) && job.repo.None?
    case NoIssueNumber => OfUser(job) && Origin(job).None?
    case MissingActor => OfUser(job) && job.actor.None?
    case NoWritePermission =>
      OfUser(job) && exists e :: e in tr && e.call.ReadPermission? && e.answer.Said? && e.answer.text !in {"admin", "write"}
    case NoPrompt => job.prompt.None?
    case MissingHeadRef => OfPr(job) && exists e :: e in tr && e.call.ReadPrInfo? && e.answer.Said? && e.answer.info.None?
    case NoPrNumber => !OfPr(job) && exists e :: e in tr && e.call.PostPr? && e.answer.Said? && e.answer.number.None?
    case Missing(_) => true
  }

  /** A phase goes on from its trace, and stops only with a reason. */
  ghost predicate Lawful<T(!new)>(job: Job, tr: Trace, flow: Flow<T>) {
    tr <= flow.trace && (flow.Stop? ==> Excused(job, flow.trace, flow.error))
  }

  lemma ExcusedStays(job: Job, tr: Trace, more: Trace, error: Error)
    requires Excused(job, tr, error) && tr <= more
    ensures Excused(job, more, error)
  {
    assert forall e :: e in tr ==> e in more;
  }

  lemma NeedIsLawful(tape: Tape, job: Job, tr: Trace, call: Call)
    requires !Optional(call)
    ensures Lawful(job, tr, Need(tape, tr, call))
  {
    var flow := Need(tape, tr, call);
    assert flow.trace[|tr|] == Entry(call, tape(|tr|));
  }

  lemma PrerequisitesAreLawful(tape: Tape, job: Job, tr: Trace)
    ensures Lawful(job, tr, Prerequisites(tape, job, tr))
  {
    SameEvent(job);
    if OfUser(job) && job.repo.Some? && Origin(job).Some? && job.actor.Some? {
      var call := ReadPermission(job.repo.value, job.actor.value);
      NeedIsLawful(tape, job, tr, call);
      assert Entry(call, tape(|tr|)) in Called(tape, tr, call);
    }
  }

  lemma GatherIsLawful(tape: Tape, job: Job, tr: Trace)
    ensures Lawful(job, tr, Gather(tape, job, tr))
  {
    if job.repo.Some? && IssueNumber(job).Some? {
      NeedIsLawful(tape, job, tr, ReadContext(job.repo.value, IssueNumber(job).value, IsPrContext(job)));
    }
  }

  lemma PrepareBranchIsLawful(tape: Tape, job: Job, repo: Repo, branch: string, tr: Trace)
    ensures Lawful(job, tr, PrepareBranch(tape, repo, branch, tr))
  {
    var out := Need(tape, tr, CheckoutNew(branch));
    NeedIsLawful(tape, job, tr, CheckoutNew(branch));
    NeedIsLawful(tape, job, out.trace, ReadDefaultBranch(repo));
    var base := Need(tape, out.trace, ReadDefaultBranch(repo));
    NeedIsLawful(tape, job, base.trace, ReadHead);
  }

  lemma PreparePrIsLawful(tape: Tape, job: Job, repo: Repo, number: nat, tr: Trace)
    requires OfPr(job)
    ensures Lawful(job, tr, PreparePr(tape, repo, number, tr))
  {
    var out := Need(tape, tr, CheckoutPr(repo, number));
    NeedIsLawful(tape, job, tr, CheckoutPr(repo, number));
    NeedIsLawful(tape, job, out.trace, ReadPrInfo(repo, number));
    var info := Need(tape, out.trace, ReadPrInfo(repo, number));
    assert Entry(ReadPrInfo(repo, number), tape(|out.trace|)) in info.trace;
    NeedIsLawful(tape, job, info.trace, ReadHead);
  }

  lemma PrepareIsLawful(tape: Tape, job: Job, tr: Trace)
    ensures Lawful(job, tr, Prepare(tape, job, tr))
  {
    SameEvent(job);
    if job.repo.Some? {
      if IsRepoEvent(job.event) {
        var prefix := if job.event == "workflow_dispatch" then "dispatch" else "schedule";
        PrepareBranchIsLawful(tape, job, job.repo.value, BranchName(prefix, None, job.stamp), tr);
      } else if Origin(job).Some? && OfPr(job) {
        PreparePrIsLawful(tape, job, job.repo.value, Origin(job).value, tr);
      } else if Origin(job).Some? {
        PrepareBranchIsLawful(tape, job, job.repo.value, BranchName("issue", Origin(job), job.stamp), tr);
      }
    }
  }

  lemma DetectIsLawful(tape: Tape, job: Job, head: Option<string>, tr: Trace)
    ensures Lawful(job, tr, DetectDirty(tape, head, tr))
  {
    NeedIsLawful(tape, job, tr, ReadStatus);
    NeedIsLawful(tape, job, Need(tape, tr, ReadStatus).trace, ReadHead);
  }

  lemma CommitIsLawful(tape: Tape, job: Job, uncommitted: bool, tr: Trace)
    ensures Lawful(job, tr, CommitIf(tape, uncommitted, tr))
  {
    NeedIsLawful(tape, job, tr, AddAll);
    NeedIsLawful(tape, job, Need(tape, tr, AddAll).trace, Commit);
  }

  lemma CreatePrIsLawful(tape: Tape, job: Job, repo: Repo, base: string, head: string, tr: Trace)
    requires !OfPr(job)
    ensures Lawful(job, tr, CreatePr(tape, repo, base, head, tr))
  {
    var found := Need(tape, tr, FindPr(repo, base, head));
    NeedIsLawful(tape, job, tr, FindPr(repo, base, head));
    NeedIsLawful(tape, job, found.trace, PostPr(repo, base, head));
    var made := Need(tape, found.trace, PostPr(repo, base, head));
    assert Entry(PostPr(repo, base, head), tape(|found.trace|)) in made.trace;
  }

  lemma PushAndOpenIsLawful(tape: Tape, job: Job, repo: Repo, base: string, branch: string, uncommitted: bool, tr: Trace)
    requires !OfPr(job)
    ensures Lawful(job, tr, PushAndOpen(tape, repo, base, branch, uncommitted, tr))
  {
    var committed := CommitIf(tape, uncommitted, tr);
    CommitIsLawful(tape, job, uncommitted, tr);
    NeedIsLawful(tape, job, committed.trace, PushNew(branch));
    CreatePrIsLawful(tape, job, repo, base, branch, Need(tape, committed.trace, PushNew(branch)).trace);
  }

  lemma PublishRepoIsLawful(tape: Tape, job: Job, ready: Prepared, tr: Trace)
    requires !OfPr(job)
    ensures Lawful(job, tr, PublishRepo(tape, job, ready, tr))
  {
    var dirt := DetectDirty(tape, ready.head, tr);
    DetectIsLawful(tape, job, ready.head, tr);
    if dirt.Go? && job.repo.Some? && ready.branch.Some? && ready.base.Some? {
      PushAndOpenIsLawful(tape, job, job.repo.value, ready.base.value, ready.branch.value, dirt.value.1, dirt.trace);
    }
  }

  lemma PushToForkIsLawful(tape: Tape, job: Job, info: PrInfo, tr: Trace)
    ensures Lawful(job, tr, PushToFork(tape, info, tr))
  {
    var url := "https://github.com/" + info.headRepo + ".git";
    var read := Called(tape, tr, ReadForkRemote);
    var call := if tape(|tr|).Said? then SetForkRemote(url) else AddForkRemote(url);
    NeedIsLawful(tape, job, read, call);
    NeedIsLawful(tape, job, Need(tape, read, call).trace, PushFork(info.headRef));
  }

  lemma PushPrIsLawful(tape: Tape, job: Job, info: Option<PrInfo>, tr: Trace)
    ensures Lawful(job, tr, PushPr(tape, info, tr))
  {
    NeedIsLawful(tape, job, tr, PushCurrent);
    if info.Some? {
      PushToForkIsLawful(tape, job, info.value, tr);
    }
  }

  lemma PublishPrIsLawful(
    tape: Tape, job: Job, repo: Repo, issue: nat, ready: Prepared, dirt: (bool, bool), tr: Trace)
    ensures Lawful(job, tr, PublishPr(tape, repo, issue, ready, dirt, tr))
  {
    var committed := CommitIf(tape, dirt.0 && dirt.1, tr);
    CommitIsLawful(tape, job, dirt.0 && dirt.1, tr);
    PushPrIsLawful(tape, job, ready.info, committed.trace);
    var pushed := if dirt.0 then PushPr(tape, ready.info, committed.trace) else Go((), committed.trace);
    NeedIsLawful(tape, job, pushed.trace, PostComment(repo, issue, Response));
  }

  lemma PublishIssueIsLawful(
    tape: Tape, job: Job, repo: Repo, issue: nat, ready: Prepared, dirt: (bool, bool), tr: Trace)
    requires !OfPr(job)
    ensures Lawful(job, tr, PublishIssue(tape, repo, issue, ready, dirt, tr))
  {
    NeedIsLawful(tape, job, tr, PostComment(repo, issue, Response));
    if ready.branch.Some? && ready.base.Some? {
      var made := PushAndOpen(tape, repo, ready.base.value, ready.branch.value, dirt.1, tr);
      PushAndOpenIsLawful(tape, job, repo, ready.base.value, ready.branch.value, dirt.1, tr);
      if made.Go? {
        NeedIsLawful(tape, job, made.trace, PostComment(repo, issue, PrLink(made.value)));
      }
    }
  }

  lemma PublishUserIsLawful(tape: Tape, job: Job, ready: Prepared, tr: Trace)
    ensures Lawful(job, tr, PublishUser(tape, job, ready, tr))
  {
    SameEvent(job);
    if job.repo.Some? && Origin(job).Some? {
      var dirt := DetectDirty(tape, ready.head, tr);
      DetectIsLawful(tape, job, ready.head, tr);
      if dirt.Go? && OfPr(job) {
        PublishPrIsLawful(tape, job, job.repo.value, Origin(job).value, ready, dirt.value, dirt.trace);
      } else if dirt.Go? {
        PublishIssueIsLawful(tape, job, job.repo.value, Origin(job).value, ready, dirt.value, dirt.trace);
      }
    }
  }

  lemma AskedIsLawful(tape: Tape, job: Job, ready: Prepared, tr: Trace)
    ensures Lawful(job, tr, GithubRun.Asked(tape, job, ready, tr))
  {
    var asked := Need(tape, tr, AskAgent);
    SameEvent(job);
    NeedIsLawful(tape, job, tr, AskAgent);
    if IsRepoEvent(job.event) {
      PublishRepoIsLawful(tape, job, ready, asked.trace);
    } else {
      PublishUserIsLawful(tape, job, ready, asked.trace);
    }
  }

  lemma WorkIsLawful(tape: Tape, job: Job, tr: Trace)
    ensures Lawful(job, tr, Work(tape, job, tr))
  {
    var gathered := Gather(tape, job, tr);
    GatherIsLawful(tape, job, tr);
    PrepareIsLawful(tape, job, gathered.trace);
    var prepared := Prepare(tape, job, gathered.trace);
    if prepared.Go? {
      AskedIsLawful(tape, job, prepared.value, prepared.trace);
    }
  }

  lemma WorkedIsLawful(tape: Tape, job: Job, tr: Trace)
    ensures Lawful(job, tr, Worked(tape, job, tr))
  {
    var (reaction, reacted) := React(tape, job, tr);
    var work := Work(tape, job, reacted);
    WorkIsLawful(tape, job, reacted);
    if work.Stop? {
      ExcusedStays(job, work.trace, CleanUp(tape, reaction, Report(tape, job, work.error, work.trace)), work.error);
    }
  }

  /** A run fails only for one of these reasons: a call failed that it needs, the event is none that
      is supported, or lacks its repository, number, actor or prompt, or the permission, the pull
      request or the new pull request's number was not what it needs.  Reactions, error comments and
      the look for a fork remote never fail a run. */
  lemma FailureHasItsReason(tape: Tape, job: Job)
    ensures var flow := Whole(tape, job);
            flow.Stop? ==> Excused(job, flow.trace, flow.error) && !flow.error.Missing?
  {
    var first := Need(tape, [], CheckGh);
    NeedIsLawful(tape, job, [], CheckGh);
    Safety.InternalErrorsUnreachable(tape, job);
    if first.Go? && Supported(job.event) {
      var passed := Prerequisites(tape, job, first.trace);
      PrerequisitesAreLawful(tape, job, first.trace);
      match passed {
        case Stop(error, tr) => ExcusedStays(job, tr, Report(tape, job, error, tr), error);
        case Go(_, tr) => WorkedIsLawful(tape, job, tr);
      }
    }
  }
}
