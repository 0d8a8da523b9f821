/** The GitHub run as it is written: calls made one after the other, a failed one ending the
    phase.  Its result and its trace are those of `GithubRun.Whole`. */
module GithubRunner {
  import opened Seqs
  import G = GithubRun
  import opened GithubRunSafety

  datatype Result<T> = Ok(value: T) | Err(error: G.Error) {
    predicate IsFailure() { Err? }

    function PropagateFailure<U>(): Result<U>
      requires Err?
    {
      Err(error)
    }

    function Extract(): T
      requires Ok?
    {
      value
    }
  }

  function Flowing<T>(r: Result<T>, tr: G.Trace): G.Flow<T> {
    match r
    case Ok(value) => G.Go(value, tr)
    case Err(error) => G.Stop(error, tr)
  }

  class Runner {
    const tape: G.Tape
    const job: G.Job
    var trace: G.Trace

    constructor (tape: G.Tape, job: G.Job)
      ensures this.tape == tape && this.job == job && trace == []
    {
      this.tape, this.job, trace := tape, job, [];
    }

    method Make(call: G.Call) returns (answer: G.Answer)
      modifies this
      ensures trace == G.Called(tape, old(trace), call) && answer == tape(|old(trace)|)
    {
      answer := tape(|trace|);
      trace := trace + [G.Entry(call, answer)];
    }

    method Try(call: G.Call) returns (r: Result<G.Answer>)
      modifies this
      ensures Flowing(r, trace) == G.Need(tape, old(trace), call)
    {
      var answer := Make(call);
      r := if answer.Failed? then Err(G.CallFailed(call)) else Ok(answer);
    }

    method CheckPrerequisites() returns (r: Result<()>)
      modifies this
      ensures Flowing(r, trace) == G.Prerequisites(tape, job, old(trace))
    {
      var user := G.IsUserEvent(job.event);
      if user && job.repo.None? { return Err(G.NoRepository); }
      if user && G.IssueNumber(job).None? { return Err(G.NoIssueNumber); }
      if user {
        if job.actor.None? { return Err(G.MissingActor); }
        var permission :- Try(G.ReadPermission(job.repo.value, job.actor.value));
        if permission.text != "admin" && permission.text != "write" { return Err(G.NoWritePermission); }
      }
      return Ok(());
    }

    method AddReaction() returns (reaction: Option<G.Handle>)
      modifies this
      ensures (reaction, trace) == G.React(tape, job, old(trace))
    {
      reaction := None;
      if G.IsUserEvent(job.event) && job.repo.Some? && G.IssueNumber(job).Some? {
        var target := G.ReactionTarget(job, G.IssueNumber(job).value);
        var answer := Make(G.AddReaction(job.repo.value, target));
        if answer.Said? && answer.number.Some? {
          reaction := Some(G.Handle(target, answer.number.value));
        }
      }
    }

    method Gather() returns (r: Result<()>)
      modifies this
      ensures Flowing(r, trace) == G.Gather(tape, job, old(trace))
    {
      if job.prompt.None? { return Err(G.NoPrompt); }
      if !G.IsRepoEvent(job.event) && job.repo.Some? && G.IssueNumber(job).Some? {
        var _ :- Try(G.ReadContext(job.repo.value, G.IssueNumber(job).value, G.IsPrContext(job)));
      }
      return Ok(());
    }

    method PrepareBranch(repo: G.Repo, branch: string) returns (r: Result<G.Prepared>)
      modifies this
      ensures Flowing(r, trace) == G.PrepareBranch(tape, repo, branch, old(trace))
    {
      var _ :- Try(G.CheckoutNew(branch));
      var base :- Try(G.ReadDefaultBranch(repo));
      var head :- Try(G.ReadHead);
      return Ok(G.Prepared(Some(head.text), Some(branch), Some(base.text), None));
    }

    method PreparePr(repo: G.Repo, number: nat) returns (r: Result<G.Prepared>)
      modifies this
      ensures Flowing(r, trace) == G.PreparePr(tape, repo, number, old(trace))
    {
      var _ :- Try(G.CheckoutPr(repo, number));
      var info :- Try(G.ReadPrInfo(repo, number));
      if info.info.None? { return Err(G.MissingHeadRef); }
      var head :- Try(G.ReadHead);
      return Ok(G.Prepared(Some(head.text), None, None, info.info));
    }

    method Prepare() returns (r: Result<G.Prepared>)
      modifies this
      ensures Flowing(r, trace) == G.Prepare(tape, job, old(trace))
    {
      r := Ok(G.UNPREPARED);
      if G.IsRepoEvent(job.event) {
        if job.repo.Some? {
          var prefix := if job.event == "workflow_dispatch" then "dispatch" else "schedule";
          r := PrepareBranch(job.repo.value, G.BranchName(prefix, None, job.stamp));
        }
      } else if G.IsPrContext(job) {
        if job.repo.Some? && G.IssueNumber(job).Some? {
          r := PreparePr(job.repo.value, G.IssueNumber(job).value);
        }
      } else if G.IsUserEvent(job.event) {
        if job.repo.Some? && G.IssueNumber(job).Some? {
          r := PrepareBranch(job.repo.value, G.BranchName("issue", G.IssueNumber(job), job.stamp));
        }
      }
    }

    method DetectDirty(head: Option<string>) returns (r: Result<(bool, bool)>)
      modifies this
      ensures Flowing(r, trace) == G.DetectDirty(tape, head, old(trace))
    {
      if head.None? { return Ok((false, false)); }
      var status :- Try(G.ReadStatus);
      if status.text != "" { return Ok((true, true)); }
      var now :- Try(G.ReadHead);
      return Ok((now.text != head.value, false));
    }

    method CommitIf(uncommitted: bool) returns (r: Result<()>)
      modifies this
      ensures Flowing(r, trace) == G.CommitIf(tape, uncommitted, old(trace))
    {
      if uncommitted {
        var _ :- Try(G.AddAll);
        var _ :- Try(G.Commit);
      }
      return Ok(());
    }

    method CreatePr(repo: G.Repo, base: string, head: string) returns (r: Result<nat>)
      modifies this
      ensures Flowing(r, trace) == G.CreatePr(tape, repo, base, head, old(trace))
    {
      var found :- Try(G.FindPr(repo, base, head));
      if found.number.Some? { return Ok(found.number.value); }
      var created :- Try(G.PostPr(repo, base, head));
      if created.number.None? { return Err(G.NoPrNumber); }
      return Ok(created.number.value);
    }

    method PushAndOpen(repo: G.Repo, base: string, branch: string, uncommitted: bool) returns (r: Result<nat>)
      modifies this
      ensures Flowing(r, trace) == G.PushAndOpen(tape, repo, base, branch, uncommitted, old(trace))
    {
      var _ :- CommitIf(uncommitted);
      var _ :- Try(G.PushNew(branch));
      r := CreatePr(repo, base, branch);
    }

    method PublishRepo(ready: G.Prepared) returns (r: Result<G.Outcome>)
      modifies this
      ensures Flowing(r, trace) == G.PublishRepo(tape, job, ready, old(trace))
    {
      var dirt :- DetectDirty(ready.head);
      if !dirt.0 { return Ok(G.Printed); }
      if job.repo.None? { return Err(G.Missing(G.RepositoryForPr)); }
      if ready.branch.None? { return Err(G.Missing(G.RepoBranch)); }
      if ready.base.None? { return Err(G.Missing(G.RepoBase)); }
      var number :- PushAndOpen(job.repo.value, ready.base.value, ready.branch.value, dirt.1);
      return Ok(G.Opened(number));
    }

    method PushToFork(info: G.PrInfo) returns (r: Result<()>)
      modifies this
      ensures Flowing(r, trace) == G.PushToFork(tape, info, old(trace))
    {
      var url := "https://github.com/" + info.headRepo + ".git";
      var remote := Make(G.ReadForkRemote);
      var _ :- Try(if remote.Said? then G.SetForkRemote(url) else G.AddForkRemote(url));
      var _ :- Try(G.PushFork(info.headRef));
      return Ok(());
    }

    method PushPr(info: Option<G.PrInfo>) returns (r: Result<()>)
      modifies this
      ensures Flowing(r, trace) == G.PushPr(tape, info, old(trace))
    {
      if info.Some? && info.value.headRepo != info.value.baseRepo {
        r := PushToFork(info.value);
      } else {
        var _ :- Try(G.PushCurrent);
        r := Ok(());
      }
    }

    method PublishPr(repo: G.Repo, issue: nat, ready: G.Prepared, dirt: (bool, bool)) returns (r: Result<G.Outcome>)
      modifies this
      ensures Flowing(r, trace) == G.PublishPr(tape, repo, issue, ready, dirt, old(trace))
    {
      var _ :- CommitIf(dirt.0 && dirt.1);
      if dirt.0 {
        var _ :- PushPr(ready.info);
      }
      var _ :- Try(G.PostComment(repo, issue, G.Response));
      return Ok(G.Answered);
    }

    method PublishIssue(repo: G.Repo, issue: nat, ready: G.Prepared, dirt: (bool, bool)) returns (r: Result<G.Outcome>)
      modifies this
      ensures Flowing(r, trace) == G.PublishIssue(tape, repo, issue, ready, dirt, old(trace))
    {
      if dirt.0 {
        if ready.branch.None? { return Err(G.Missing(G.IssueBranch)); }
        if ready.base.None? { return Err(G.Missing(G.IssueBase)); }
        var number :- PushAndOpen(repo, ready.base.value, ready.branch.value, dirt.1);
        var _ :- Try(G.PostComment(repo, issue, G.PrLink(number)));
        return Ok(G.Opened(number));
      } else {
        var _ :- Try(G.PostComment(repo, issue, G.Response));
        return Ok(G.Answered);
      }
    }

    method Publish(ready: G.Prepared) returns (r: Result<G.Outcome>)
      modifies this
      ensures Flowing(r, trace) == G.Publish(tape, job, ready, old(trace))
    {
      if G.IsRepoEvent(job.event) {
        r := PublishRepo(ready);
      } else if G.IsUserEvent(job.event) {
        if job.repo.None? { return Err(G.Missing(G.RepositoryForResponse)); }
        if G.IssueNumber(job).None? { return Err(G.Missing(G.IssueForResponse)); }
        var dirt :- DetectDirty(ready.head);
        if G.IsPrContext(job) {
          r := PublishPr(job.repo.value, G.IssueNumber(job).value, ready, dirt);
        } else {
          r := PublishIssue(job.repo.value, G.IssueNumber(job).value, ready, dirt);
        }
      } else {
        r := Ok(G.FellThrough);
      }
    }

    method Work() returns (r: Result<G.Outcome>)
      modifies this
      ensures Flowing(r, trace) == G.Work(tape, job, old(trace))
    {
      var _ :- Gather();
      var ready :- Prepare();
      var _ :- Try(G.AskAgent);
      r := Publish(ready);
    }

    method Report(error: G.Error)
      modifies this
      ensures trace == G.Report(tape, job, error, old(trace))
    {
      if G.IsUserEvent(job.event) && job.repo.Some? && G.IssueNumber(job).Some? {
        var _ := Make(G.PostComment(job.repo.value, G.IssueNumber(job).value, G.Problem(error)));
      }
    }

    method CleanUp(reaction: Option<G.Handle>)
      modifies this
      ensures trace == G.CleanUp(tape, reaction, old(trace))
    {
      if reaction.Some? {
        var _ := Make(G.RemoveReaction(reaction.value));
      }
    }

    /** The whole run: what it returns and every call it made, and with them every fact about
        whole runs. */
    method Run() returns (r: Result<G.Outcome>)
      requires trace == []
      modifies this
      ensures Flowing(r, trace) == G.Whole(tape, job)
      ensures r.Err? ==> !r.error.Missing?
      ensures r.Ok? && G.IsUserEvent(job.event) ==> Told(trace).posted == 1
      ensures forall i :: 0 <= i < |trace| ==> Justified(job, trace[..i], trace[i].call)
    {
      r := RunPhases();
      InternalErrorsUnreachable(tape, job);
      CommentsPosted(tape, job);
      forall i | 0 <= i < |trace| ensures Justified(job, trace[..i], trace[i].call) {
        EffectsAreJustified(tape, job, i);
      }
    }

    method RunPhases() returns (r: Result<G.Outcome>)
      requires trace == []
      modifies this
      ensures Flowing(r, trace) == G.Whole(tape, job)
    {
      var _ :- Try(G.CheckGh);
      if !G.Supported(job.event) { return Err(G.UnsupportedEvent); }
      var cleared := CheckPrerequisites();
      if cleared.Err? {
        Report(cleared.error);
        return Err(cleared.error);
      }
      var reaction := AddReaction();
      r := Work();
      if r.Err? {
        Report(r.error);
      }
      CleanUp(reaction);
    }
  }
}
