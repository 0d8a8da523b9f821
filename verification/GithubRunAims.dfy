/** Where the calls of a GitHub run go: every argument of every call comes from the event or from
    an earlier answer, and a pull request is pushed to the repository that its branch is in. */
module GithubRunAims {
  import opened Seqs
  import opened GithubRun
  import Safety = GithubRunSafety

  // ---- The event, field by field ----

  predicate OfUser(job: Job) {
    || job.event == "issue_comment" || job.event == "issues"
    || job.event == "pull_request" || job.event == "pull_request_review_comment"
  }

  /** The issue or pull request an event is about. */
  function Origin(job: Job): Option<nat> {
    match job.event
    case "issue_comment" => job.payload.issueNumber
    case "issues" => job.payload.issueNumber
    case "pull_request" => job.payload.prNumber
    case "pull_request_review_comment" => job.payload.prNumber
    case _ => None
  }

  predicate OfPr(job: Job) {
    || job.event == "pull_request" || job.event == "pull_request_review_comment"
    || (job.event == "issue_comment" && job.payload.issueIsPr)
  }

  /** A comment is reacted to where it stands, anything else at its issue. */
  function ReactedTo(job: Job, issue: nat): Target {
    if job.payload.commentId.Some? && job.event == "issue_comment" then OnIssueComment(job.payload.commentId.value)
    else if job.payload.commentId.Some? && job.event == "pull_request_review_comment"
    then OnReviewComment(job.payload.commentId.value)
    else OnIssue(issue)
  }

  /** The branch a run works on outside pull requests. */
  function WorkBranch(job: Job): string {
    match job.event
    case "workflow_dispatch" => "agendao/dispatch-" + job.stamp
    case "schedule" => "agendao/schedule-" + job.stamp
    case _ => "agendao/issue" + (if Origin(job).Some? then Digits(Origin(job).value) else "") + "-" + job.stamp
  }

  lemma SameEvent(job: Job)
    ensures IsUserEvent(job.event) == OfUser(job) && IssueNumber(job) == Origin(job) && IsPrContext(job) == OfPr(job)
    ensures IsRepoEvent(job.event) <==> job.event == "schedule" || job.event == "workflow_dispatch"
  {
  }

  // ---- What earlier answers gave ----

  datatype Given = Given(
    infos: set<PrInfo>, bases: set<string>, numbers: set<nat>, urls: set<string>, remote: Option<bool>, none: bool,
    duty: Duty)

  /** How far a run has come: before the agent is asked, after, with a clean status, and when it
      has been looked whether anything changed. */
  datatype Stage = Unasked | Asked | Clean | Looked

  /** What is done: reacted, context read, branch checked out, its head read. */
  datatype Duty = Duty(reacted: bool, context: bool, out: bool, head: bool, stage: Stage)

  const NOTHING := Given({}, {}, {}, {}, None, false, Duty(false, false, false, false, Unasked))

  function Progress(d: Duty, e: Entry): Duty {
    match e.call
    case AddReaction(_, _) => d.(reacted := true)
    case ReadContext(_, _, _) => d.(context := d.context || e.answer.Said?)
    case CheckoutNew(_) => d.(out := d.out || e.answer.Said?)
    case CheckoutPr(_, _) => d.(out := d.out || e.answer.Said?)
    case AskAgent => if e.answer.Said? then d.(stage := Asked) else d
    case ReadStatus =>
      if e.answer.Said? && d.stage == Asked then d.(stage := if e.answer.text == "" then Clean else Looked) else d
    case ReadHead =>
      if e.answer.Failed? then d
      else if d.stage == Unasked then d.(head := true)
      else if d.stage == Clean then d.(stage := Looked) else d
    case _ => d
  }

  function Add<T>(items: set<T>, item: Option<T>): set<T> {
    if item.Some? then items + {item.value} else items
  }

  function Learn(g: Given, e: Entry): Given {
    Answered(g, e).(duty := Progress(g.duty, e))
  }

  function Answered(g: Given, e: Entry): Given {
    if e.answer.Failed? then (if e.call.ReadForkRemote? then g.(remote := Some(false)) else g)
    else
      match e.call
      case ReadPrInfo(_, _) => g.(infos := Add(g.infos, e.answer.info))
      case ReadDefaultBranch(_) => g.(bases := g.bases + {e.answer.text})
      case FindPr(_, _, _) => g.(numbers := Add(g.numbers, e.answer.number), none := e.answer.number.None?)
      case PostPr(_, _, _) => g.(numbers := Add(g.numbers, e.answer.number))
      case ReadForkRemote => g.(remote := Some(true))
      case SetForkRemote(url) => g.(urls := g.urls + {url})
      case AddForkRemote(url) => g.(urls := g.urls + {url})
      case _ => g
  }

  predicate FromFork(info: PrInfo) {
    info.headRepo != info.baseRepo
  }

  function ForkUrl(info: PrInfo): string {
    "https://github.com/" + info.headRepo + ".git"
  }

  ghost predicate ToFork(g: Given, url: string) {
    exists info :: info in g.infos && FromFork(info) && url == ForkUrl(info)
  }

  /** The agent is asked once, for a user event after a reaction and with its context, and for any
      event of a known repository on a checked out branch whose head has been read. */
  predicate MayAsk(job: Job, d: Duty) {
    && job.prompt.Some? && d.stage == Unasked && (OfUser(job) ==> d.reacted && d.context) && (job.repo.Some? ==> d.out && d.head)
  }

  /** A call goes to the repository and issue of the event, and where earlier answers say. */
  ghost predicate Aimed(job: Job, g: Given, call: Call) {
    match call
    case ReadPermission(repo, actor) => OfUser(job) && job.repo == Some(repo) && job.actor == Some(actor)
    case PostComment(repo, issue, message) =>
      && OfUser(job) && job.repo == Some(repo) && Origin(job) == Some(issue)
      && (message.PrLink? ==> message.number in g.numbers)
      && (message.Response? ==> g.numbers == {})
    case AddReaction(repo, target) =>
      OfUser(job) && job.repo == Some(repo) && Origin(job).Some? && target == ReactedTo(job, Origin(job).value)
    case ReadContext(repo, number, isPr) => job.repo == Some(repo) && Origin(job) == Some(number) && isPr == OfPr(job)
    case CheckoutNew(branch) => !OfPr(job) && branch == WorkBranch(job)
    case AskAgent => MayAsk(job, g.duty)
    case ReadDefaultBranch(repo) => !OfPr(job) && job.repo == Some(repo)
    case CheckoutPr(repo, number) => OfPr(job) && job.repo == Some(repo) && Origin(job) == Some(number)
    case ReadPrInfo(repo, number) =>
      OfPr(job) && job.repo == Some(repo) && Origin(job) == Some(number) && g.infos == {}
    case PushNew(branch) => !OfPr(job) && branch == WorkBranch(job)
    case PushCurrent => OfPr(job) && exists info :: info in g.infos && !FromFork(info)
    case ReadForkRemote => OfPr(job) && exists info :: info in g.infos && FromFork(info)
    case SetForkRemote(url) => OfPr(job) && g.remote == Some(true) && ToFork(g, url)
    case AddForkRemote(url) => OfPr(job) && g.remote == Some(false) && ToFork(g, url)
    case PushFork(ref) =>
      OfPr(job) && exists info :: info in g.infos && FromFork(info) && ref == info.headRef && ForkUrl(info) in g.urls
    case FindPr(repo, base, head) => !OfPr(job) && job.repo == Some(repo) && base in g.bases && head == WorkBranch(job)
    case PostPr(repo, base, head) =>
      !OfPr(job) && job.repo == Some(repo) && base in g.bases && head == WorkBranch(job) && g.none
    case _ => true
  }

  // ---- What an observer makes of a run ----

  datatype Sight = Sight(aimed: bool, given: Given)

  const BLANK := Sight(true, NOTHING)

  ghost function Look(job: Job, v: Sight, e: Entry): Sight {
    Sight(v.aimed && Aimed(job, v.given, e.call), Learn(v.given, e))
  }

  type Watch = Trace -> Sight

  ghost predicate Watches(view: Watch, job: Job) {
    forall tr, e {:trigger view(Safety.Snoc(tr, e))} :: view(Safety.Snoc(tr, e)) == Look(job, view(tr), e)
  }

  /** A stretch whose calls are aimed and that forgets nothing and gets no pull request, */
  predicate Grows(a: Sight, b: Sight) {
    && b.aimed && b.given.numbers == a.given.numbers
    && a.given.infos <= b.given.infos && a.given.bases <= b.given.bases && a.given.urls <= b.given.urls
  }

  /** nor the description of one, */
  predicate Finds(a: Sight, b: Sight) {
    Grows(a, b) && b.given.infos == a.given.infos
  }

  /** and comes no further. */
  predicate Keeps(a: Sight, b: Sight) {
    Finds(a, b) && b.given.duty == a.given.duty
  }

  /** Calls by which a run comes further. */
  predicate Advances(call: Call) {
    || call.AddReaction? || call.ReadContext? || call.CheckoutNew? || call.CheckoutPr? || call.AskAgent?
    || call.ReadStatus? || call.ReadHead?
  }

  lemma CallIsAimed(view: Watch, tape: Tape, job: Job, tr: Trace, call: Call)
    requires Watches(view, job) && view(tr).aimed && Aimed(job, view(tr).given, call)
    ensures var next := Called(tape, tr, call);
            view(next) == Sight(true, Learn(view(tr).given, Entry(call, tape(|tr|))))
  {
    assert view(Safety.Snoc(tr, Entry(call, tape(|tr|)))) == Look(job, view(tr), Entry(call, tape(|tr|)));
  }

  lemma NeedAims(view: Watch, tape: Tape, job: Job, tr: Trace, call: Call)
    requires Watches(view, job) && view(tr).aimed && Aimed(job, view(tr).given, call)
    ensures var flow := Need(tape, tr, call);
            && view(flow.trace) == Sight(true, Learn(view(tr).given, Entry(call, tape(|tr|))))
            && (flow.Go? ==> flow.value == tape(|tr|) && flow.value.Said?)
            && (!call.FindPr? && !call.PostPr? ==> Grows(view(tr), view(flow.trace)))
            && (!call.FindPr? && !call.PostPr? && !call.ReadPrInfo? ==> Finds(view(tr), view(flow.trace)))
            && (!call.FindPr? && !call.PostPr? && !call.ReadPrInfo? && !Advances(call) ==> Keeps(view(tr), view(flow.trace)))
  {
    CallIsAimed(view, tape, job, tr, call);
  }

  // ---- The phases ----

  lemma PrerequisitesAim(view: Watch, tape: Tape, job: Job, tr: Trace)
    requires Watches(view, job) && view(tr).aimed
    ensures Keeps(view(tr), view(Prerequisites(tape, job, tr).trace))
    ensures Prerequisites(tape, job, tr).Go? && OfUser(job) ==> job.repo.Some? && Origin(job).Some?
  {
    SameEvent(job);
    if OfUser(job) && job.repo.Some? && Origin(job).Some? && job.actor.Some? {
      NeedAims(view, tape, job, tr, ReadPermission(job.repo.value, job.actor.value));
    }
  }

  lemma ReactAims(view: Watch, tape: Tape, job: Job, tr: Trace)
    requires Watches(view, job) && view(tr).aimed
    ensures var next := view(React(tape, job, tr).1);
            Finds(view(tr), next)
            && next.given.duty == view(tr).given.duty.(
                 reacted := view(tr).given.duty.reacted || (OfUser(job) && job.repo.Some? && Origin(job).Some?))
  {
    SameEvent(job);
    if OfUser(job) && job.repo.Some? && Origin(job).Some? {
      CallIsAimed(view, tape, job, tr, AddReaction(job.repo.value, ReactionTarget(job, Origin(job).value)));
    }
  }

  lemma GatherAims(view: Watch, tape: Tape, job: Job, tr: Trace)
    requires Watches(view, job) && view(tr).aimed
    ensures var flow, duty := Gather(tape, job, tr), view(tr).given.duty;
            Finds(view(tr), view(flow.trace))
            && view(flow.trace).given.duty == duty.(context := view(flow.trace).given.duty.context)
            && (flow.Go? ==> job.prompt.Some?)
            && (flow.Go? && OfUser(job) && job.repo.Some? && Origin(job).Some? ==> view(flow.trace).given.duty.context)
  {
    SameEvent(job);
    if job.repo.Some? && Origin(job).Some? {
      NeedAims(view, tape, job, tr, ReadContext(job.repo.value, Origin(job).value, IsPrContext(job)));
    }
  }

  /** What the preparation found was answered to it. */
  predicate Ready(job: Job, ready: Prepared, g: Given) {
    && (ready.base.Some? ==> ready.base.value in g.bases)
    && (ready.branch.Some? ==> ready.branch.value == WorkBranch(job) && !OfPr(job))
    && (ready.info.Some? ==> ready.info.value in g.infos)
    && (ready.head.Some? && OfPr(job) ==> ready.info.Some?)
    && (ready.head.Some? ==> job.repo.Some?)
  }

  /** The duties of a preparation, done for a repository that is known. */
  predicate Prepares(job: Job, before: Duty, ready: Prepared, g: Given) {
    var after := g.duty;
    && Ready(job, ready, g) && after == before.(out := after.out, head := after.head)
    && (job.repo.Some? && (OfUser(job) ==> Origin(job).Some?) && Supported(job.event)
        ==> ready.head.Some? && after.out && after.head)
  }

  lemma PrepareBranchAims(view: Watch, tape: Tape, job: Job, repo: Repo, branch: string, tr: Trace)
    requires Watches(view, job) && view(tr).aimed && !OfPr(job) && job.repo == Some(repo) && branch == WorkBranch(job)
    requires view(tr).given.duty.stage == Unasked
    ensures var flow := PrepareBranch(tape, repo, branch, tr);
            Grows(view(tr), view(flow.trace)) && (flow.Go? ==> Prepares(job, view(tr).given.duty, flow.value, view(flow.trace).given))
  {
    NeedAims(view, tape, job, tr, CheckoutNew(branch));
    var first := Need(tape, tr, CheckoutNew(branch));
    if first.Go? {
      NeedAims(view, tape, job, first.trace, ReadDefaultBranch(repo));
      var second := Need(tape, first.trace, ReadDefaultBranch(repo));
      if second.Go? {
        NeedAims(view, tape, job, second.trace, ReadHead);
      }
    }
  }

  lemma PreparePrAims(view: Watch, tape: Tape, job: Job, repo: Repo, number: nat, tr: Trace)
    requires Watches(view, job) && view(tr).aimed && OfPr(job) && job.repo == Some(repo) && Origin(job) == Some(number)
    requires view(tr).given.infos == {} && view(tr).given.duty.stage == Unasked
    ensures var flow := PreparePr(tape, repo, number, tr);
            Grows(view(tr), view(flow.trace)) && (flow.Go? ==> Prepares(job, view(tr).given.duty, flow.value, view(flow.trace).given))
  {
    NeedAims(view, tape, job, tr, CheckoutPr(repo, number));
    var first := Need(tape, tr, CheckoutPr(repo, number));
    if first.Go? {
      NeedAims(view, tape, job, first.trace, ReadPrInfo(repo, number));
      var second := Need(tape, first.trace, ReadPrInfo(repo, number));
      if second.Go? && second.value.info.Some? {
        NeedAims(view, tape, job, second.trace, ReadHead);
      }
    }
  }

  lemma BranchIsWork(job: Job)
    ensures job.event == "workflow_dispatch" ==> BranchName("dispatch", None, job.stamp) == WorkBranch(job)
    ensures job.event == "schedule" ==> BranchName("schedule", None, job.stamp) == WorkBranch(job)
    ensures OfUser(job) ==> BranchName("issue", Origin(job), job.stamp) == WorkBranch(job)
  {
    assert "agendao/" + "dispatch" + "" + "-" == "agendao/dispatch-";
    assert "agendao/" + "schedule" + "" + "-" == "agendao/schedule-";
    assert "agendao/" + "issue" == "agendao/issue";
  }

  lemma PrepareAims(view: Watch, tape: Tape, job: Job, tr: Trace)
    requires Watches(view, job) && view(tr).aimed && view(tr).given.infos == {} && view(tr).given.duty.stage == Unasked
    ensures var flow := Prepare(tape, job, tr);
            Grows(view(tr), view(flow.trace)) && (flow.Go? ==> Prepares(job, view(tr).given.duty, flow.value, view(flow.trace).given))
  {
    SameEvent(job);
    BranchIsWork(job);
    if job.repo.Some? {
      if IsRepoEvent(job.event) {
        var prefix := if job.event == "workflow_dispatch" then "dispatch" else "schedule";
        PrepareBranchAims(view, tape, job, job.repo.value, BranchName(prefix, None, job.stamp), tr);
      } else if Origin(job).Some? {
        if OfPr(job) {
          PreparePrAims(view, tape, job, job.repo.value, Origin(job).value, tr);
        } else {
          PrepareBranchAims(view, tape, job, job.repo.value, BranchName("issue", Origin(job), job.stamp), tr);
        }
      }
    }
  }

  lemma DetectDirtyAims(view: Watch, tape: Tape, job: Job, head: Option<string>, tr: Trace)
    requires Watches(view, job) && view(tr).aimed
    ensures var flow := DetectDirty(tape, head, tr);
            Finds(view(tr), view(flow.trace)) && (flow.Go? && flow.value.0 ==> head.Some?)
            && (view(tr).given.duty.stage == Asked && head.Some? && flow.Go? ==> view(flow.trace).given.duty.stage == Looked)
            && (head.None? ==> view(flow.trace) == view(tr))
  {
    if head.Some? {
      NeedAims(view, tape, job, tr, ReadStatus);
      var status := Need(tape, tr, ReadStatus);
      if status.Go? && status.value.text == "" {
        NeedAims(view, tape, job, status.trace, ReadHead);
      }
    }
  }

  lemma CommitAims(view: Watch, tape: Tape, job: Job, uncommitted: bool, tr: Trace)
    requires Watches(view, job) && view(tr).aimed
    ensures Keeps(view(tr), view(CommitIf(tape, uncommitted, tr).trace))
  {
    if uncommitted {
      NeedAims(view, tape, job, tr, AddAll);
      var added := Need(tape, tr, AddAll);
      if added.Go? {
        NeedAims(view, tape, job, added.trace, Commit);
      }
    }
  }

  /** Aimed, and the number that comes of it was answered. */
  predicate Numbered(v: Sight, duty: Duty, flow: Flow<nat>) {
    v.aimed && v.given.duty == duty && (flow.Go? ==> flow.value in v.given.numbers)
  }

  lemma CreatePrAims(view: Watch, tape: Tape, job: Job, repo: Repo, base: string, head: string, tr: Trace)
    requires Watches(view, job) && view(tr).aimed && !OfPr(job) && job.repo == Some(repo)
    requires base in view(tr).given.bases && head == WorkBranch(job)
    ensures Numbered(view(CreatePr(tape, repo, base, head, tr).trace), view(tr).given.duty, CreatePr(tape, repo, base, head, tr))
  {
    NeedAims(view, tape, job, tr, FindPr(repo, base, head));
    var found := Need(tape, tr, FindPr(repo, base, head));
    if found.Go? && found.value.number.None? {
      NeedAims(view, tape, job, found.trace, PostPr(repo, base, head));
    }
  }

  lemma PushAndOpenAims(view: Watch, tape: Tape, job: Job, repo: Repo, base: string, branch: string, uncommitted: bool, tr: Trace)
    requires Watches(view, job) && view(tr).aimed && !OfPr(job) && job.repo == Some(repo)
    requires base in view(tr).given.bases && branch == WorkBranch(job)
    ensures var flow := PushAndOpen(tape, repo, base, branch, uncommitted, tr);
            Numbered(view(flow.trace), view(tr).given.duty, flow)
  {
    CommitAims(view, tape, job, uncommitted, tr);
    var committed := CommitIf(tape, uncommitted, tr);
    if committed.Go? {
      NeedAims(view, tape, job, committed.trace, PushNew(branch));
      var pushed := Need(tape, committed.trace, PushNew(branch));
      if pushed.Go? {
        CreatePrAims(view, tape, job, repo, base, branch, pushed.trace);
      }
    }
  }

  /** The remote is set if there is one and added if not. */
  lemma RemoteAims(view: Watch, tape: Tape, job: Job, info: PrInfo, tr: Trace) returns (known: Flow<Answer>)
    requires Watches(view, job) && view(tr).aimed && OfPr(job) && info in view(tr).given.infos && FromFork(info)
    ensures var url, tr1 := ForkUrl(info), Called(tape, tr, ReadForkRemote);
            && known == Need(tape, tr1, if tape(|tr|).Said? then SetForkRemote(url) else AddForkRemote(url))
            && Keeps(view(tr), view(known.trace)) && (known.Go? ==> url in view(known.trace).given.urls)
  {
    var url := ForkUrl(info);
    CallIsAimed(view, tape, job, tr, ReadForkRemote);
    var tr1 := Called(tape, tr, ReadForkRemote);
    assert ToFork(view(tr1).given, url);
    var remote := if tape(|tr|).Said? then SetForkRemote(url) else AddForkRemote(url);
    NeedAims(view, tape, job, tr1, remote);
    known := Need(tape, tr1, remote);
  }

  lemma PushToForkAims(view: Watch, tape: Tape, job: Job, info: PrInfo, tr: Trace)
    requires Watches(view, job) && view(tr).aimed && OfPr(job) && info in view(tr).given.infos && FromFork(info)
    ensures Keeps(view(tr), view(PushToFork(tape, info, tr).trace))
  {
    var known := RemoteAims(view, tape, job, info, tr);
    if known.Go? {
      NeedAims(view, tape, job, known.trace, PushFork(info.headRef));
    }
  }

  lemma PushPrAims(view: Watch, tape: Tape, job: Job, info: PrInfo, tr: Trace)
    requires Watches(view, job) && view(tr).aimed && OfPr(job) && info in view(tr).given.infos
    ensures Keeps(view(tr), view(PushPr(tape, Some(info), tr).trace))
  {
    if FromFork(info) {
      PushToForkAims(view, tape, job, info, tr);
    } else {
      NeedAims(view, tape, job, tr, PushCurrent);
    }
  }

  /** How a phase ends whose calls are all aimed: a pull request it says it opened was answered,
      and success comes only after looking whether anything changed, if the repository is known. */
  predicate Ended(job: Job, v: Sight, flow: Flow<Outcome>) {
    && v.aimed && (flow.Go? && flow.value.Opened? ==> flow.value.number in v.given.numbers)
    && (flow.Go? ==> v.given.duty.stage == if job.repo.Some? then Looked else Asked)
  }

  lemma PublishRepoAims(view: Watch, tape: Tape, job: Job, ready: Prepared, tr: Trace)
    requires Watches(view, job) && view(tr).aimed && Ready(job, ready, view(tr).given)
    requires view(tr).given.duty.stage == Asked && (job.repo.Some? ==> ready.head.Some?)
    ensures Ended(job, view(PublishRepo(tape, job, ready, tr).trace), PublishRepo(tape, job, ready, tr))
  {
    DetectDirtyAims(view, tape, job, ready.head, tr);
    var dirt := DetectDirty(tape, ready.head, tr);
    if dirt.Go? && dirt.value.0 && ready.branch.Some? && ready.base.Some? {
      PushAndOpenAims(view, tape, job, job.repo.value, ready.base.value, ready.branch.value, dirt.value.1, dirt.trace);
    }
  }

  lemma PublishPrAims(view: Watch, tape: Tape, job: Job, repo: Repo, issue: nat, ready: Prepared, dirt: (bool, bool), tr: Trace)
    requires Watches(view, job) && view(tr).aimed && OfPr(job) && job.repo == Some(repo) && Origin(job) == Some(issue)
    requires view(tr).given.numbers == {} && Ready(job, ready, view(tr).given) && (dirt.0 ==> ready.info.Some?)
    requires view(tr).given.duty.stage == Looked
    ensures var flow := PublishPr(tape, repo, issue, ready, dirt, tr); Ended(job, view(flow.trace), flow)
  {
    CommitAims(view, tape, job, dirt.0 && dirt.1, tr);
    var committed := CommitIf(tape, dirt.0 && dirt.1, tr);
    if committed.Go? {
      var pushed := if dirt.0 then PushPr(tape, ready.info, committed.trace) else Go((), committed.trace);
      if dirt.0 {
        PushPrAims(view, tape, job, ready.info.value, committed.trace);
      }
      if pushed.Go? {
        NeedAims(view, tape, job, pushed.trace, PostComment(repo, issue, Response));
      }
    }
  }

  lemma PublishIssueAims(view: Watch, tape: Tape, job: Job, repo: Repo, issue: nat, ready: Prepared, dirt: (bool, bool), tr: Trace)
    requires Watches(view, job) && view(tr).aimed && OfUser(job) && !OfPr(job) && job.repo == Some(repo) && Origin(job) == Some(issue)
    requires view(tr).given.numbers == {} && Ready(job, ready, view(tr).given) && view(tr).given.duty.stage == Looked
    ensures var flow := PublishIssue(tape, repo, issue, ready, dirt, tr); Ended(job, view(flow.trace), flow)
  {
    if !dirt.0 {
      NeedAims(view, tape, job, tr, PostComment(repo, issue, Response));
    } else if ready.branch.Some? && ready.base.Some? {
      PushAndOpenAims(view, tape, job, repo, ready.base.value, ready.branch.value, dirt.1, tr);
      var made := PushAndOpen(tape, repo, ready.base.value, ready.branch.value, dirt.1, tr);
      if made.Go? {
        NeedAims(view, tape, job, made.trace, PostComment(repo, issue, PrLink(made.value)));
      }
    }
  }

  lemma PublishAims(view: Watch, tape: Tape, job: Job, ready: Prepared, tr: Trace)
    requires Watches(view, job) && view(tr).aimed && view(tr).given.numbers == {} && Ready(job, ready, view(tr).given)
    requires view(tr).given.duty.stage == Asked && (job.repo.Some? ==> ready.head.Some?) && Supported(job.event)
    requires OfUser(job) ==> job.repo.Some? && Origin(job).Some?
    ensures Ended(job, view(Publish(tape, job, ready, tr).trace), Publish(tape, job, ready, tr))
  {
    SameEvent(job);
    if IsRepoEvent(job.event) {
      PublishRepoAims(view, tape, job, ready, tr);
    } else if OfUser(job) && job.repo.Some? && Origin(job).Some? {
      DetectDirtyAims(view, tape, job, ready.head, tr);
      var dirt := DetectDirty(tape, ready.head, tr);
      if dirt.Go? {
        if OfPr(job) {
          PublishPrAims(view, tape, job, job.repo.value, Origin(job).value, ready, dirt.value, dirt.trace);
        } else {
          PublishIssueAims(view, tape, job, job.repo.value, Origin(job).value, ready, dirt.value, dirt.trace);
        }
      }
    }
  }

  lemma AskedAims(view: Watch, tape: Tape, job: Job, ready: Prepared, tr: Trace)
    requires Watches(view, job) && view(tr).aimed && view(tr).given.numbers == {} && Ready(job, ready, view(tr).given)
    requires MayAsk(job, view(tr).given.duty) && (job.repo.Some? ==> ready.head.Some?) && Supported(job.event)
    requires OfUser(job) ==> job.repo.Some? && Origin(job).Some?
    ensures Ended(job, view(GithubRun.Asked(tape, job, ready, tr).trace), GithubRun.Asked(tape, job, ready, tr))
  {
    NeedAims(view, tape, job, tr, AskAgent);
    var asked := Need(tape, tr, AskAgent);
    if asked.Go? {
      PublishAims(view, tape, job, ready, asked.trace);
    }
  }

  lemma WorkAims(view: Watch, tape: Tape, job: Job, tr: Trace)
    requires Watches(view, job) && view(tr).aimed && view(tr).given.numbers == {} && view(tr).given.infos == {}
    requires view(tr).given.duty.stage == Unasked && (OfUser(job) ==> view(tr).given.duty.reacted) && Supported(job.event)
    requires OfUser(job) ==> job.repo.Some? && Origin(job).Some?
    ensures Ended(job, view(Work(tape, job, tr).trace), Work(tape, job, tr))
  {
    GatherAims(view, tape, job, tr);
    var gathered := Gather(tape, job, tr);
    if gathered.Go? {
      PrepareAims(view, tape, job, gathered.trace);
      var prepared := Prepare(tape, job, gathered.trace);
      if prepared.Go? {
        AskedAims(view, tape, job, prepared.value, prepared.trace);
      }
    }
  }

  lemma EndAims(view: Watch, tape: Tape, job: Job, error: Error, reaction: Option<Handle>, tr: Trace)
    requires Watches(view, job) && view(tr).aimed
    ensures view(Report(tape, job, error, tr)).aimed
    ensures Keeps(view(tr), view(CleanUp(tape, reaction, tr)))
  {
    SameEvent(job);
    if OfUser(job) && job.repo.Some? && Origin(job).Some? {
      CallIsAimed(view, tape, job, tr, PostComment(job.repo.value, Origin(job).value, Problem(error)));
    }
    if reaction.Some? {
      CallIsAimed(view, tape, job, tr, RemoveReaction(reaction.value));
    }
  }

  lemma WorkedAims(view: Watch, tape: Tape, job: Job, tr: Trace)
    requires Watches(view, job) && view(tr).aimed && view(tr).given.numbers == {} && view(tr).given.infos == {}
    requires view(tr).given.duty.stage == Unasked && Supported(job.event)
    requires OfUser(job) ==> job.repo.Some? && Origin(job).Some?
    ensures Ended(job, view(Worked(tape, job, tr).trace), Worked(tape, job, tr))
  {
    ReactAims(view, tape, job, tr);
    var (reaction, next) := React(tape, job, tr);
    WorkAims(view, tape, job, next);
    match Work(tape, job, next) {
      case Stop(error, last) =>
        EndAims(view, tape, job, error, reaction, last);
        EndAims(view, tape, job, error, reaction, Report(tape, job, error, last));
      case Go(_, last) =>
        EndAims(view, tape, job, NoPrompt, reaction, last);
    }
  }

  lemma RunAims(view: Watch, tape: Tape, job: Job)
    requires Watches(view, job) && view([]) == BLANK
    ensures Ended(job, view(Whole(tape, job).trace), Whole(tape, job))
  {
    NeedAims(view, tape, job, [], CheckGh);
    var first := Need(tape, [], CheckGh);
    if first.Go? && Supported(job.event) {
      PrerequisitesAim(view, tape, job, first.trace);
      match Prerequisites(tape, job, first.trace) {
        case Stop(error, tr) => EndAims(view, tape, job, error, None, tr);
        case Go(_, tr) => WorkedAims(view, tape, job, tr);
      }
    }
  }

  // ---- What the trace shows ----

  ghost predicate Described(past: Trace, info: PrInfo) {
    exists e :: e in past && e.call.ReadPrInfo? && e.answer.Said? && e.answer.info == Some(info)
  }

  ghost predicate DefaultIs(past: Trace, base: string) {
    exists e :: e in past && e.call.ReadDefaultBranch? && e.answer.Said? && e.answer.text == base
  }

  ghost predicate Numbers(past: Trace, number: nat) {
    exists e :: e in past && (e.call.FindPr? || e.call.PostPr?) && e.answer.Said? && e.answer.number == Some(number)
  }

  ghost predicate RemoteIs(past: Trace, url: string) {
    exists e :: e in past && (e.call == SetForkRemote(url) || e.call == AddForkRemote(url)) && e.answer.Said?
  }

  ghost predicate RemoteExists(past: Trace, yes: bool) {
    exists e :: e in past && e.call == ReadForkRemote && e.answer.Said? == yes
  }

  ghost predicate NoneFound(past: Trace) {
    exists e :: e in past && e.call.FindPr? && e.answer.Said? && e.answer.number.None?
  }

  /** What is given is what the trace shows. */
  ghost predicate Shown(g: Given, tr: Trace) {
    && (forall info :: info in g.infos <==> Described(tr, info))
    && (forall base :: base in g.bases ==> DefaultIs(tr, base))
    && (forall number :: number in g.numbers <==> Numbers(tr, number))
    && (forall url :: url in g.urls ==> RemoteIs(tr, url))
    && (g.remote.Some? ==> RemoteExists(tr, g.remote.value))
    && (g.none ==> NoneFound(tr))
  }

  lemma ShownNext(g: Given, tr: Trace, e: Entry)
    requires Shown(g, tr)
    ensures Shown(Learn(g, e), tr + [e])
  {
    var next, longer := Learn(g, e), tr + [e];
    assert forall x :: x in longer <==> x in tr || x == e;
    forall info ensures info in next.infos <==> Described(longer, info) {
      InfoNext(g, tr, e, info);
    }
    forall number ensures number in next.numbers <==> Numbers(longer, number) {
      NumberNext(g, tr, e, number);
    }
    forall base | base in next.bases ensures DefaultIs(longer, base) {
      assert base in g.bases ==> DefaultIs(tr, base);
    }
    forall url | url in next.urls ensures RemoteIs(longer, url) {
      assert url in g.urls ==> RemoteIs(tr, url);
    }
  }

  lemma InfoNext(g: Given, tr: Trace, e: Entry, info: PrInfo)
    requires info in g.infos <==> Described(tr, info)
    ensures info in Learn(g, e).infos <==> Described(tr + [e], info)
  {
    assert forall x :: x in tr + [e] <==> x in tr || x == e;
  }

  lemma NumberNext(g: Given, tr: Trace, e: Entry, number: nat)
    requires number in g.numbers <==> Numbers(tr, number)
    ensures number in Learn(g, e).numbers <==> Numbers(tr + [e], number)
  {
    assert forall x :: x in tr + [e] <==> x in tr || x == e;
  }

  // ---- What was done ----

  predicate Answers(e: Entry, call: Call) {
    e.call == call && e.answer.Said?
  }

  ghost predicate AgentAsked(past: Trace) {
    exists e :: e in past && Answers(e, AskAgent)
  }

  ghost predicate StatusAt(tr: Trace, i: nat, j: nat) {
    i < j < |tr| && Answers(tr[i], AskAgent) && Answers(tr[j], ReadStatus)
  }

  /** The status was read after the agent had answered, and it was clean. */
  ghost predicate CleanAfter(tr: Trace) {
    exists i, j :: StatusAt(tr, i, j)
  }

  /** And it was not, or the head was read once more. */
  ghost predicate LookedAt(tr: Trace, i: nat, j: nat) {
    StatusAt(tr, i, j) && (tr[j].answer.text != "" || exists k :: j < k < |tr| && Answers(tr[k], ReadHead))
  }

  ghost predicate LookedAfter(tr: Trace) {
    exists i, j :: LookedAt(tr, i, j)
  }

  ghost predicate MarksShown(d: Duty, tr: Trace) {
    && (d.reacted ==> exists e :: e in tr && e.call.AddReaction?)
    && (d.context ==> exists e :: e in tr && e.call.ReadContext? && e.answer.Said?)
    && (d.out ==> exists e :: e in tr && (e.call.CheckoutNew? || e.call.CheckoutPr?) && e.answer.Said?)
    && (d.head ==> exists e :: e in tr && Answers(e, ReadHead))
  }

  ghost predicate StageShown(stage: Stage, tr: Trace) {
    && (stage == Unasked <==> !AgentAsked(tr))
    && (stage == Clean ==> CleanAfter(tr))
    && (stage == Looked ==> LookedAfter(tr))
  }

  ghost predicate Done(d: Duty, tr: Trace) {
    MarksShown(d, tr) && StageShown(d.stage, tr)
  }

  lemma MarksNext(d: Duty, tr: Trace, e: Entry)
    requires MarksShown(d, tr)
    ensures MarksShown(Progress(d, e), tr + [e])
  {
    var next := Progress(d, e);
    assert forall x :: x in tr ==> x in tr + [e];
    assert e in tr + [e];
    assert next.(stage := d.stage) == d || next.(stage := d.stage) == d.(reacted := true) || e.answer.Said?;
  }

  lemma AskedNext(tr: Trace, e: Entry)
    ensures AgentAsked(tr + [e]) <==> AgentAsked(tr) || Answers(e, AskAgent)
  {
    assert forall x :: x in tr + [e] <==> x in tr || x == e;
    if AgentAsked(tr) {
      var x :| x in tr && Answers(x, AskAgent);
      assert x in tr + [e];
    }
  }

  lemma StageNext(d: Duty, tr: Trace, e: Entry)
    requires StageShown(d.stage, tr)
    ensures StageShown(Progress(d, e).stage, tr + [e])
  {
    AskedNext(tr, e);
    StagesStay(tr, e);
    if Answers(e, ReadStatus) && d.stage == Asked {
      StatusNext(tr, e);
    }
    if Answers(e, ReadHead) && d.stage == Clean {
      HeadNext(tr, e);
    }
  }

  lemma DoneNext(d: Duty, tr: Trace, e: Entry)
    requires Done(d, tr)
    ensures Done(Progress(d, e), tr + [e])
  {
    MarksNext(d, tr, e);
    StageNext(d, tr, e);
  }

  lemma StagesStay(tr: Trace, e: Entry)
    ensures CleanAfter(tr) ==> CleanAfter(tr + [e])
    ensures LookedAfter(tr) ==> LookedAfter(tr + [e])
  {
    var longer := tr + [e];
    assert forall k :: 0 <= k < |tr| ==> longer[k] == tr[k];
    if CleanAfter(tr) {
      var i, j :| StatusAt(tr, i, j);
      assert StatusAt(longer, i, j);
    }
    if LookedAfter(tr) {
      var i, j :| LookedAt(tr, i, j);
      assert StatusAt(longer, i, j) && LookedAt(longer, i, j);
    }
  }

  lemma StatusNext(tr: Trace, e: Entry)
    requires AgentAsked(tr) && Answers(e, ReadStatus)
    ensures CleanAfter(tr + [e]) && (e.answer.text != "" ==> LookedAfter(tr + [e]))
  {
    var x :| x in tr && Answers(x, AskAgent);
    var i: nat :| i < |tr| && tr[i] == x;
    assert StatusAt(tr + [e], i, |tr|);
    assert e.answer.text != "" ==> LookedAt(tr + [e], i, |tr|);
  }

  lemma HeadNext(tr: Trace, e: Entry)
    requires CleanAfter(tr) && Answers(e, ReadHead)
    ensures LookedAfter(tr + [e])
  {
    var longer := tr + [e];
    var i, j :| StatusAt(tr, i, j);
    assert StatusAt(longer, i, j) && Answers(longer[|tr|], ReadHead);
    assert LookedAt(longer, i, j);
  }

  ghost function See(job: Job, tr: Trace): Sight {
    if tr == [] then BLANK else Look(job, See(job, tr[..|tr| - 1]), tr[|tr| - 1])
  }

  lemma {:induction false} SeesWhatIsShown(job: Job, tr: Trace)
    ensures Shown(See(job, tr).given, tr) && Done(See(job, tr).given.duty, tr)
  {
    if tr != [] {
      var front := tr[..|tr| - 1];
      SeesWhatIsShown(job, front);
      DoneNext(See(job, front).given.duty, front, tr[|tr| - 1]);
      ShownNext(See(job, front).given, front, tr[|tr| - 1]);
      assert tr == front + [tr[|tr| - 1]];
    }
  }

  /** There is a prompt and the agent has not answered yet; a user event was reacted to and its context read; in a known
      repository a branch is checked out and its head has been read. */
  ghost predicate ReadyToAsk(job: Job, past: Trace) {
    && job.prompt.Some? && !AgentAsked(past)
    && (OfUser(job) ==>
          && (exists e :: e in past && e.call.AddReaction?)
          && (exists e :: e in past && e.call.ReadContext? && e.answer.Said?))
    && (job.repo.Some? ==>
          && (exists e :: e in past && (e.call.CheckoutNew? || e.call.CheckoutPr?) && e.answer.Said?)
          && (exists e :: e in past && Answers(e, ReadHead)))
  }

  /** A call is aimed by what the entries before it show. */
  ghost predicate AimedAfter(job: Job, past: Trace, call: Call) {
    match call
    case ReadPermission(repo, actor) => OfUser(job) && job.repo == Some(repo) && job.actor == Some(actor)
    case PostComment(repo, issue, message) =>
      && OfUser(job) && job.repo == Some(repo) && Origin(job) == Some(issue)
      && (message.PrLink? ==> Numbers(past, message.number))
      && (message.Response? ==> forall n :: !Numbers(past, n))
    case AddReaction(repo, target) =>
      OfUser(job) && job.repo == Some(repo) && Origin(job).Some? && target == ReactedTo(job, Origin(job).value)
    case ReadContext(repo, number, isPr) => job.repo == Some(repo) && Origin(job) == Some(number) && isPr == OfPr(job)
    case CheckoutNew(branch) => !OfPr(job) && branch == WorkBranch(job)
    case AskAgent => ReadyToAsk(job, past)
    case ReadDefaultBranch(repo) => !OfPr(job) && job.repo == Some(repo)
    case CheckoutPr(repo, number) => OfPr(job) && job.repo == Some(repo) && Origin(job) == Some(number)
    case ReadPrInfo(repo, number) =>
      OfPr(job) && job.repo == Some(repo) && Origin(job) == Some(number) && forall info :: !Described(past, info)
    case PushNew(branch) => !OfPr(job) && branch == WorkBranch(job)
    case PushCurrent => OfPr(job) && exists info :: Described(past, info) && info.headRepo == info.baseRepo
    case ReadForkRemote => OfPr(job) && exists info :: Described(past, info) && info.headRepo != info.baseRepo
    case SetForkRemote(url) => OfPr(job) && RemoteExists(past, true) && ForkIs(past, url)
    case AddForkRemote(url) => OfPr(job) && RemoteExists(past, false) && ForkIs(past, url)
    case PushFork(ref) =>
      OfPr(job) && exists info :: Described(past, info) && info.headRepo != info.baseRepo
                                  && ref == info.headRef && RemoteIs(past, ForkUrl(info))
    case FindPr(repo, base, head) => !OfPr(job) && job.repo == Some(repo) && DefaultIs(past, base) && head == WorkBranch(job)
    case PostPr(repo, base, head) =>
      !OfPr(job) && job.repo == Some(repo) && DefaultIs(past, base) && head == WorkBranch(job) && NoneFound(past)
    case _ => true
  }

  ghost predicate ForkIs(past: Trace, url: string) {
    exists info :: Described(past, info) && info.headRepo != info.baseRepo && url == ForkUrl(info)
  }

  lemma AimedIsShown(job: Job, g: Given, past: Trace, call: Call)
    requires Shown(g, past) && Done(g.duty, past) && Aimed(job, g, call)
    ensures AimedAfter(job, past, call)
  {
    match call {
      case PushCurrent =>
        var info :| info in g.infos && !FromFork(info);
        assert Described(past, info);
      case ReadForkRemote =>
        var info :| info in g.infos && FromFork(info);
        assert Described(past, info);
      case SetForkRemote(url) => ForkIsShown(g, past, url);
      case AddForkRemote(url) => ForkIsShown(g, past, url);
      case PushFork(ref) => PushIsShown(g, past, ref);
      case AskAgent => assert ReadyToAsk(job, past);
      case _ =>
    }
  }

  lemma PushIsShown(g: Given, past: Trace, ref: string)
    requires Shown(g, past)
    requires exists info :: info in g.infos && FromFork(info) && ref == info.headRef && ForkUrl(info) in g.urls
    ensures exists info :: Described(past, info) && info.headRepo != info.baseRepo
                           && ref == info.headRef && RemoteIs(past, ForkUrl(info))
  {
    var info :| info in g.infos && FromFork(info) && ref == info.headRef && ForkUrl(info) in g.urls;
    assert Described(past, info) && RemoteIs(past, ForkUrl(info));
  }

  lemma ForkIsShown(g: Given, past: Trace, url: string)
    requires Shown(g, past) && ToFork(g, url)
    ensures ForkIs(past, url)
  {
    var info :| info in g.infos && FromFork(info) && url == ForkUrl(info);
    assert Described(past, info);
  }

  lemma {:induction false} AllAimed(job: Job, tr: Trace, i: nat)
    requires See(job, tr).aimed && i < |tr|
    ensures AimedAfter(job, tr[..i], tr[i].call)
  {
    var front := tr[..|tr| - 1];
    if i < |front| {
      AllAimed(job, front, i);
      assert front[..i] == tr[..i];
    } else {
      SeesWhatIsShown(job, front);
      AimedIsShown(job, See(job, front).given, front, tr[i].call);
    }
  }

  lemma SeeingWatches(job: Job)
    ensures Watches(tr => See(job, tr), job)
  {
    forall tr, e ensures See(job, Safety.Snoc(tr, e)) == Look(job, See(job, tr), e) {
      assert Safety.Snoc(tr, e)[..|tr|] == tr;
    }
  }

  lemma SeenRunAims(tape: Tape, job: Job)
    ensures Ended(job, See(job, Whole(tape, job).trace), Whole(tape, job))
  {
    SeeingWatches(job);
    RunAims(tr => See(job, tr), tape, job);
  }

  // ---- The facts, one by one ----

  /** Every call of every run goes where the event and the answers before it say. */
  lemma CallsAreAimed(tape: Tape, job: Job, i: nat)
    requires i < |Whole(tape, job).trace|
    ensures var tr := Whole(tape, job).trace; AimedAfter(job, tr[..i], tr[i].call)
  {
    SeenRunAims(tape, job);
    AllAimed(job, Whole(tape, job).trace, i);
  }

  /** A run that says it opened a pull request got its number from an answer. */
  lemma OpenedWasAnswered(tape: Tape, job: Job)
    ensures var flow := Whole(tape, job);
            flow.Go? && flow.value.Opened? ==> Numbers(flow.trace, flow.value.number)
  {
    SeenRunAims(tape, job);
    SeesWhatIsShown(job, Whole(tape, job).trace);
  }

  /** A run that succeeds has asked the agent and, if it knows the repository, has looked
      afterwards whether anything changed: for uncommitted files, and without any at the head. */
  lemma SuccessHasLooked(tape: Tape, job: Job)
    requires Whole(tape, job).Go?
    ensures var tr := Whole(tape, job).trace; AgentAsked(tr) && (job.repo.Some? ==> LookedAfter(tr))
  {
    SeenRunAims(tape, job);
    SeesWhatIsShown(job, Whole(tape, job).trace);
  }

  /** A failure of a user event whose repository and issue are known is reported there, at the end
      of the run, unless the tool itself was missing. */
  lemma FailureIsReported(tape: Tape, job: Job)
    requires Whole(tape, job).Stop? && tape(0).Said? && OfUser(job) && job.repo.Some? && Origin(job).Some?
    ensures var flow := Whole(tape, job);
            exists i: nat :: |flow.trace| - 2 <= i < |flow.trace|
              && flow.trace[i].call == PostComment(job.repo.value, Origin(job).value, Problem(flow.error))
  {
    SameEvent(job);
    var first := Need(tape, [], CheckGh);
    match Prerequisites(tape, job, first.trace) {
      case Stop(error, tr) => ReportedAt(tape, job, error, None, tr);
      case Go(_, tr) =>
        var (reaction, next) := React(tape, job, tr);
        var work := Work(tape, job, next);
        ReportedAt(tape, job, work.error, reaction, work.trace);
    }
  }

  lemma ReportedAt(tape: Tape, job: Job, error: Error, reaction: Option<Handle>, tr: Trace)
    requires OfUser(job) && job.repo.Some? && Origin(job).Some?
    ensures var done := CleanUp(tape, reaction, Report(tape, job, error, tr));
            |tr| < |done| <= |tr| + 2 && done[|tr|].call == PostComment(job.repo.value, Origin(job).value, Problem(error))
  {
    SameEvent(job);
  }

  /** The push of a pull request that fits its description. */
  ghost predicate Fits(past: Trace, e: Entry, info: PrInfo) {
    && e.answer.Said? && Described(past, info)
    && if info.headRepo == info.baseRepo then e.call == PushCurrent
       else e.call == PushFork(info.headRef) && RemoteIs(past, ForkUrl(info))
  }

  lemma PushFits(job: Job, past: Trace, e: Entry) returns (info: PrInfo)
    requires OfPr(job) && AimedAfter(job, past, e.call) && e.answer.Said?
    requires e.call.PushNew? || e.call.PushCurrent? || e.call.PushFork?
    ensures Fits(past, e, info)
  {
    if e.call.PushCurrent? {
      info :| Described(past, info) && info.headRepo == info.baseRepo;
    } else {
      info :| Described(past, info) && info.headRepo != info.baseRepo && e.call.ref == info.headRef && RemoteIs(past, ForkUrl(info));
    }
  }

  /** A run for a pull request that succeeds and changed something has pushed where the branch of
      the pull request is: to the fork, or else to the repository itself. */
  lemma PullRequestIsPushed(tape: Tape, job: Job)
    requires Whole(tape, job).Go? && OfPr(job) && Safety.Changed(Whole(tape, job).trace)
    ensures var tr := Whole(tape, job).trace;
            exists i: nat, info :: i < |tr| && Fits(tr[..i], tr[i], info)
  {
    var tr := Whole(tape, job).trace;
    Safety.SuccessDelivers(tape, job);
    var e :| e in tr && (e.call.PushNew? || e.call.PushCurrent? || e.call.PushFork?) && e.answer.Said?;
    var i: nat :| i < |tr| && tr[i] == e;
    CallsAreAimed(tape, job, i);
    var info := PushFits(job, tr[..i], e);
    assert Fits(tr[..i], tr[i], info);
  }
}
