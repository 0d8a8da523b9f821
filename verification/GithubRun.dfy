/** A GitHub run as a series of external calls, each of which may fail.

    The answers come from a tape: the n-th call of a run gets the n-th answer, whatever it
    is.  A run is thus a function of its event and the tape, and what holds for every tape
    holds for every pattern of failures. */
module GithubRun {
  import opened Seqs

  // ---- The event ----

  datatype Repo = Repo(owner: string, name: string)

  datatype Payload = Payload(
    issueNumber: Option<nat>, prNumber: Option<nat>, issueIsPr: bool, commentId: Option<nat>)

  /** What a run starts from: the event, what its payload and environment yield, and the time
      stamp for branch names. */
  datatype Job = Job(
    event: string, payload: Payload, repo: Option<Repo>, actor: Option<string>, prompt: Option<string>, stamp: string)

  function IsUserEvent(event: string): bool {
    event == "issue_comment" || event == "pull_request_review_comment" || event == "issues" || event == "pull_request"
  }

  function IsRepoEvent(event: string): bool {
    event == "schedule" || event == "workflow_dispatch"
  }

  function IsCommentEvent(event: string): bool {
    event == "issue_comment" || event == "pull_request_review_comment"
  }

  function Supported(event: string): bool {
    event in ["issue_comment", "pull_request_review_comment", "issues", "pull_request", "schedule", "workflow_dispatch"]
  }

  function IssueNumber(job: Job): Option<nat> {
    if job.event == "issue_comment" || job.event == "issues" then job.payload.issueNumber
    else if job.event == "pull_request" || job.event == "pull_request_review_comment" then job.payload.prNumber
    else None
  }

  function IsPrContext(job: Job): bool {
    && !IsRepoEvent(job.event)
    && (|| job.event == "pull_request" || job.event == "pull_request_review_comment"
        || (job.event == "issue_comment" && job.payload.issueIsPr))
  }

  function CommentId(job: Job): Option<nat> {
    if IsCommentEvent(job.event) then job.payload.commentId else None
  }

  function BranchName(prefix: string, issue: Option<nat>, stamp: string): string {
    "agendao/" + prefix + (if issue.Some? then Digits(issue.value) else "") + "-" + stamp
  }

  // ---- External calls ----

  datatype Target = OnReviewComment(id: nat) | OnIssueComment(id: nat) | OnIssue(number: nat)
  datatype Handle = Handle(target: Target, id: nat)
  datatype Message = Response | PrLink(number: nat) | Problem(error: Error)

  datatype Call =
    | CheckGh
    | ReadPermission(repo: Repo, actor: string)
    | PostComment(repo: Repo, issue: nat, message: Message)
    | AddReaction(repo: Repo, target: Target)
    | RemoveReaction(handle: Handle)
    | ReadContext(repo: Repo, number: nat, isPr: bool)
    | CheckoutNew(branch: string)
    | ReadDefaultBranch(repo: Repo)
    | CheckoutPr(repo: Repo, number: nat)
    | ReadPrInfo(repo: Repo, number: nat)
    | ReadHead
    | AskAgent
    | ReadStatus
    | AddAll
    | Commit
    | PushNew(branch: string)
    | PushCurrent
    | ReadForkRemote
    | SetForkRemote(url: string)
    | AddForkRemote(url: string)
    | PushFork(ref: string)
    | FindPr(repo: Repo, base: string, head: string)
    | PostPr(repo: Repo, base: string, head: string)

  datatype PrInfo = PrInfo(headRef: string, headRepo: string, baseRepo: string)

  /** A failed call, or what it said: a text, a number, the description of a pull request. */
  datatype Answer = Failed | Said(text: string, number: Option<nat>, info: Option<PrInfo>)

  datatype Error =
    | CallFailed(call: Call)
    | UnsupportedEvent
    | NoRepository | NoIssueNumber | MissingActor | NoWritePermission
    | NoPrompt | MissingHeadRef | NoPrNumber
    | Missing(what: Part)   // an internal error of the publishing phase

  datatype Part =
    | RepositoryForPermission | RepositoryForPr | RepoBranch | RepoBase
    | RepositoryForResponse | IssueForResponse | IssueBranch | IssueBase

  datatype Entry = Entry(call: Call, answer: Answer)
  type Trace = seq<Entry>
  type Tape = nat -> Answer

  // ---- Steps that may stop the run ----

  datatype Flow<T> = Go(value: T, trace: Trace) | Stop(error: Error, trace: Trace) {
    predicate IsFailure() { Stop? }

    function PropagateFailure<U>(): Flow<U>
      requires Stop?
    {
      Stop(error, trace)
    }

    function Extract(): (T, Trace)
      requires Go?
    {
      (value, trace)
    }
  }

  function Called(tape: Tape, tr: Trace, call: Call): Trace {
    tr + [Entry(call, tape(|tr|))]
  }

  /** A call whose failure stops the run. */
  function Need(tape: Tape, tr: Trace, call: Call): Flow<Answer> {
    if tape(|tr|).Failed? then Stop(CallFailed(call), Called(tape, tr, call)) else Go(tape(|tr|), Called(tape, tr, call))
  }

  // ---- The phases ----

  function Prerequisites(tape: Tape, job: Job, tr: Trace): Flow<()> {
    if !IsUserEvent(job.event) then Go((), tr)
    else if job.repo.None? then Stop(NoRepository, tr)
    else if IssueNumber(job).None? then Stop(NoIssueNumber, tr)
    else if job.repo.None? then Stop(Missing(RepositoryForPermission), tr)
    else if job.actor.None? then Stop(MissingActor, tr)
    else
      var (permission, tr1) :- Need(tape, tr, ReadPermission(job.repo.value, job.actor.value));
      if permission.text != "admin" && permission.text != "write" then Stop(NoWritePermission, tr1) else Go((), tr1)
  }

  function ReactionTarget(job: Job, issue: nat): Target {
    var id := CommentId(job);
    if job.event == "pull_request_review_comment" && id.Some? then OnReviewComment(id.value)
    else if job.event == "issue_comment" && id.Some? then OnIssueComment(id.value)
    else OnIssue(issue)
  }

  /** The reaction is optional: no handle if the call fails or does not give an id. */
  function React(tape: Tape, job: Job, tr: Trace): (Option<Handle>, Trace) {
    if IsUserEvent(job.event) && job.repo.Some? && IssueNumber(job).Some? then
      var target := ReactionTarget(job, IssueNumber(job).value);
      var answer := tape(|tr|);
      (if answer.Said? && answer.number.Some? then Some(Handle(target, answer.number.value)) else None,
       Called(tape, tr, AddReaction(job.repo.value, target)))
    else (None, tr)
  }

  function Gather(tape: Tape, job: Job, tr: Trace): Flow<()> {
    if job.prompt.None? then Stop(NoPrompt, tr)
    else if IsRepoEvent(job.event) || job.repo.None? || IssueNumber(job).None? then Go((), tr)
    else
      var (_, tr1) :- Need(tape, tr, ReadContext(job.repo.value, IssueNumber(job).value, IsPrContext(job)));
      Go((), tr1)
  }

  datatype Prepared = Prepared(
    head: Option<string>, branch: Option<string>, base: Option<string>, info: Option<PrInfo>)

  const UNPREPARED := Prepared(None, None, None, None)

  function PrepareBranch(tape: Tape, repo: Repo, branch: string, tr: Trace): Flow<Prepared> {
    var (_, tr1) :- Need(tape, tr, CheckoutNew(branch));
    var (base, tr2) :- Need(tape, tr1, ReadDefaultBranch(repo));
    var (head, tr3) :- Need(tape, tr2, ReadHead);
    Go(Prepared(Some(head.text), Some(branch), Some(base.text), None), tr3)
  }

  function PreparePr(tape: Tape, repo: Repo, number: nat, tr: Trace): Flow<Prepared> {
    var (_, tr1) :- Need(tape, tr, CheckoutPr(repo, number));
    var (info, tr2) :- Need(tape, tr1, ReadPrInfo(repo, number));
    if info.info.None? then Stop(MissingHeadRef, tr2)
    else
      var (head, tr3) :- Need(tape, tr2, ReadHead);
      Go(Prepared(Some(head.text), None, None, info.info), tr3)
  }

  function Prepare(tape: Tape, job: Job, tr: Trace): Flow<Prepared> {
    if IsRepoEvent(job.event) then
      if job.repo.None? then Go(UNPREPARED, tr)
      else
        var prefix := if job.event == "workflow_dispatch" then "dispatch" else "schedule";
        PrepareBranch(tape, job.repo.value, BranchName(prefix, None, job.stamp), tr)
    else if job.repo.None? || IssueNumber(job).None? then Go(UNPREPARED, tr)
    else if IsPrContext(job) then PreparePr(tape, job.repo.value, IssueNumber(job).value, tr)
    else if IsUserEvent(job.event) then
      PrepareBranch(tape, job.repo.value, BranchName("issue", IssueNumber(job), job.stamp), tr)
    else Go(UNPREPARED, tr)
  }

  /** Whether the run changed anything since `head`, and whether that is still uncommitted. */
  function DetectDirty(tape: Tape, head: Option<string>, tr: Trace): Flow<(bool, bool)> {
    if head.None? then Go((false, false), tr)
    else
      var (status, tr1) :- Need(tape, tr, ReadStatus);
      if status.text != "" then Go((true, true), tr1)
      else
        var (now, tr2) :- Need(tape, tr1, ReadHead);
        Go((now.text != head.value, false), tr2)
  }

  function CommitIf(tape: Tape, uncommitted: bool, tr: Trace): Flow<()> {
    if !uncommitted then Go((), tr)
    else
      var (_, tr1) :- Need(tape, tr, AddAll);
      var (_, tr2) :- Need(tape, tr1, Commit);
      Go((), tr2)
  }

  /** An open pull request for the branch is reused; otherwise one is created. */
  function CreatePr(tape: Tape, repo: Repo, base: string, head: string, tr: Trace): Flow<nat> {
    var (found, tr1) :- Need(tape, tr, FindPr(repo, base, head));
    if found.number.Some? then Go(found.number.value, tr1)
    else
      var (created, tr2) :- Need(tape, tr1, PostPr(repo, base, head));
      if created.number.None? then Stop(NoPrNumber, tr2) else Go(created.number.value, tr2)
  }

  function PushAndOpen(tape: Tape, repo: Repo, base: string, branch: string, uncommitted: bool, tr: Trace): Flow<nat> {
    var (_, tr1) :- CommitIf(tape, uncommitted, tr);
    var (_, tr2) :- Need(tape, tr1, PushNew(branch));
    CreatePr(tape, repo, base, branch, tr2)
  }

  datatype Outcome = Opened(number: nat) | Answered | Printed | FellThrough

  function PublishRepo(tape: Tape, job: Job, ready: Prepared, tr: Trace): Flow<Outcome> {
    var (dirt, tr1) :- DetectDirty(tape, ready.head, tr);
    if !dirt.0 then Go(Printed, tr1)
    else if job.repo.None? then Stop(Missing(RepositoryForPr), tr1)
    else if ready.branch.None? then Stop(Missing(RepoBranch), tr1)
    else if ready.base.None? then Stop(Missing(RepoBase), tr1)
    else
      var (number, tr2) :- PushAndOpen(tape, job.repo.value, ready.base.value, ready.branch.value, dirt.1, tr1);
      Go(Opened(number), tr2)
  }

  function PushToFork(tape: Tape, info: PrInfo, tr: Trace): Flow<()> {
    var url := "https://github.com/" + info.headRepo + ".git";
    var tr1 := Called(tape, tr, ReadForkRemote);
    var (_, tr2) :- Need(tape, tr1, if tape(|tr|).Said? then SetForkRemote(url) else AddForkRemote(url));
    var (_, tr3) :- Need(tape, tr2, PushFork(info.headRef));
    Go((), tr3)
  }

  function PushPr(tape: Tape, info: Option<PrInfo>, tr: Trace): Flow<()> {
    if info.Some? && info.value.headRepo != info.value.baseRepo then PushToFork(tape, info.value, tr)
    else
      var (_, tr1) :- Need(tape, tr, PushCurrent);
      Go((), tr1)
  }

  function PublishPr(tape: Tape, repo: Repo, issue: nat, ready: Prepared, dirt: (bool, bool), tr: Trace): Flow<Outcome> {
    var (_, tr1) :- CommitIf(tape, dirt.0 && dirt.1, tr);
    var (_, tr2) :- if dirt.0 then PushPr(tape, ready.info, tr1) else Go((), tr1);
    var (_, tr3) :- Need(tape, tr2, PostComment(repo, issue, Response));
    Go(Answered, tr3)
  }

  function PublishIssue(tape: Tape, repo: Repo, issue: nat, ready: Prepared, dirt: (bool, bool), tr: Trace): Flow<Outcome> {
    if !dirt.0 then
      var (_, tr1) :- Need(tape, tr, PostComment(repo, issue, Response));
      Go(Answered, tr1)
    else if ready.branch.None? then Stop(Missing(IssueBranch), tr)
    else if ready.base.None? then Stop(Missing(IssueBase), tr)
    else
      var (number, tr1) :- PushAndOpen(tape, repo, ready.base.value, ready.branch.value, dirt.1, tr);
      var (_, tr2) :- Need(tape, tr1, PostComment(repo, issue, PrLink(number)));
      Go(Opened(number), tr2)
  }

  function PublishUser(tape: Tape, job: Job, ready: Prepared, tr: Trace): Flow<Outcome> {
    if job.repo.None? then Stop(Missing(RepositoryForResponse), tr)
    else if IssueNumber(job).None? then Stop(Missing(IssueForResponse), tr)
    else
      var (dirt, tr1) :- DetectDirty(tape, ready.head, tr);
      if IsPrContext(job) then PublishPr(tape, job.repo.value, IssueNumber(job).value, ready, dirt, tr1)
      else PublishIssue(tape, job.repo.value, IssueNumber(job).value, ready, dirt, tr1)
  }

  function Publish(tape: Tape, job: Job, ready: Prepared, tr: Trace): Flow<Outcome> {
    if IsRepoEvent(job.event) then PublishRepo(tape, job, ready, tr)
    else if IsUserEvent(job.event) then PublishUser(tape, job, ready, tr)
    else Go(FellThrough, tr)
  }

  function Asked(tape: Tape, job: Job, ready: Prepared, tr: Trace): Flow<Outcome> {
    var (_, tr1) :- Need(tape, tr, AskAgent);
    Publish(tape, job, ready, tr1)
  }

  /** The part of the run whose failure is reported and cleaned up after. */
  function Work(tape: Tape, job: Job, tr: Trace): Flow<Outcome> {
    var (_, tr1) :- Gather(tape, job, tr);
    var (ready, tr2) :- Prepare(tape, job, tr1);
    Asked(tape, job, ready, tr2)
  }

  /** An error of a user event is posted where the event came from, if that is known. */
  function Report(tape: Tape, job: Job, error: Error, tr: Trace): Trace {
    if IsUserEvent(job.event) && job.repo.Some? && IssueNumber(job).Some?
    then Called(tape, tr, PostComment(job.repo.value, IssueNumber(job).value, Problem(error)))
    else tr
  }

  function CleanUp(tape: Tape, reaction: Option<Handle>, tr: Trace): Trace {
    if reaction.Some? then Called(tape, tr, RemoveReaction(reaction.value)) else tr
  }

  /** After the prerequisites: the reaction, the work, and the cleaning up. */
  function Worked(tape: Tape, job: Job, tr: Trace): Flow<Outcome> {
    var (reaction, tr1) := React(tape, job, tr);
    match Work(tape, job, tr1)
    case Stop(error, tr2) => Stop(error, CleanUp(tape, reaction, Report(tape, job, error, tr2)))
    case Go(outcome, tr2) => Go(outcome, CleanUp(tape, reaction, tr2))
  }

  function Whole(tape: Tape, job: Job): Flow<Outcome> {
    var (_, tr) :- Need(tape, [], CheckGh);
    if !Supported(job.event) then Stop(UnsupportedEvent, tr)
    else
      match Prerequisites(tape, job, tr)
      case Stop(error, tr1) => Stop(error, Report(tape, job, error, tr1))
      case Go(_, tr1) => Worked(tape, job, tr1)
  }
}
