/** What every interleaving of the stores keeps about the rows of one run. */
module Invariant {
  import opened Options
  import opened Rows
  import opened ActionExecution

  // ---- One proposal ---------------------------------------------------------

  /** The CHECKs `consumed_at` and `version` of `approval_requests`, and the consumption deadline. */
  predicate RequestOk(p: Proposal)
  {
    && p.request.Some? && ExactBinding(p)
    && var r := p.request.value;
       && (r.status == Consumed <==> r.consumedAt.Some?)
       && r.version >= 1
       && (r.consumedAt.Some? ==> r.consumedAt.value < r.expiresAt)
  }

  /** Decisions agree with the request's status and precede its expiry. */
  predicate DecisionsOk(p: Proposal)
    requires p.request.Some?
  {
    var r := p.request.value;
    && |p.decisions| <= 1
    && (p.decisions != [] ==> p.decisions[0].decidedAt < r.expiresAt)
    && match r.status
       case Pending => p.decisions == []
       case Approved => |p.decisions| == 1 && p.decisions[0].verdict == Approve
       case Consumed => |p.decisions| == 1 && p.decisions[0].verdict == Approve
       case Rejected => |p.decisions| == 1 && p.decisions[0].verdict == Reject
       case Expired => p.decisions != [] ==> p.decisions[0].verdict == Approve
  }

  /** The CHECK `terminal_fields` of `tool_invocations`. */
  predicate InvocationFields(v: Invocation)
  {
    match v.status
    case InvPrepared => v.startedAt.None? && v.finishedAt.None? && !v.hasResult && v.errorCategory.None?
    case InvExecuting => v.startedAt.Some? && v.finishedAt.None? && !v.hasResult && v.errorCategory.None?
    case InvSucceeded => v.startedAt.Some? && v.finishedAt.Some? && v.hasResult && v.errorCategory.None?
    case InvFailed => v.finishedAt.Some? && !v.hasResult && v.errorCategory.Some?
    case InvUnknown => v.startedAt.Some? && v.finishedAt.Some? && !v.hasResult
                       && v.errorCategory == Some(ExternalOutcomeUnknown)
  }

  /** Which request and invocation go with an intent's status. */
  predicate Linked(p: Proposal)
    requires p.request.Some?
  {
    var consumed := p.request.value.status == Consumed;
    match p.intent.status
    case Proposed => !consumed && p.invocation.None?
    case Authorized =>
      consumed && p.invocation.Some? && p.invocation.value.status == InvPrepared && p.invocation.value.attempt == 0
    case Cancelled =>
      if consumed then
        p.invocation.Some? && p.invocation.value.status == InvFailed && p.invocation.value.attempt == 0
      else p.request.value.status in {Rejected, Expired} && p.invocation.None?
    case _ =>
      consumed && p.invocation.Some? && Some(p.invocation.value.status) == InvocationOf(p.intent.status)
      && p.invocation.value.attempt >= 1
  }

  /** Attempts are bounded by the reconciliations that authorized them. */
  predicate Recovery(p: Proposal, recoveryMax: int)
  {
    && 0 <= p.intent.recoveryAttempts <= recoveryMax
    && (p.invocation.Some? ==>
          && p.invocation.value.args == p.intent.args
          && InvocationFields(p.invocation.value)
          && 0 <= p.invocation.value.resentFor <= p.intent.recoveryAttempts
          && 0 <= p.invocation.value.attempt <= 1 + p.invocation.value.resentFor)
  }

  predicate ProposalOk(p: Proposal, recoveryMax: int)
  {
    RequestOk(p) && DecisionsOk(p) && Linked(p) && Recovery(p, recoveryMax)
  }

  // ---- All proposals of a run -----------------------------------------------

  /** Superseded for good: cancelled without ever being consumed. */
  predicate Retired(p: Proposal)
  {
    p.intent.status == Cancelled && p.request.Some? && p.request.value.status != Consumed
  }

  /** Revisions are 1..n, all but the newest are cancelled, identities are distinct. */
  predicate Revisions(ps: seq<Proposal>)
  {
    && (forall i :: 0 <= i < |ps| ==> ps[i].intent.revision == i + 1 && ps[i].request.Some?)
    && (forall i :: 0 <= i < |ps| - 1 ==> Retired(ps[i]))
    && (forall i, j :: 0 <= i < j < |ps| ==> ps[i].intent.id != ps[j].intent.id)
    && (forall i, j :: 0 <= i < j < |ps| ==> ps[i].request.value.id != ps[j].request.value.id)
  }

  predicate ProposalsOk(ps: seq<Proposal>, recoveryMax: int)
  {
    Revisions(ps) && forall i :: 0 <= i < |ps| ==> ProposalOk(ps[i], recoveryMax)
  }

  function Newest(ps: seq<Proposal>): Proposal
    requires ps != []
  {
    ps[|ps| - 1]
  }

  predicate NewestIs(ps: seq<Proposal>, status: IntentStatus) { ps != [] && Newest(ps).intent.status == status }

  // ---- Run and job ----------------------------------------------------------

  /** CHECK constraints of `runs`. */
  predicate RunOk(r: Run)
  {
    && (r.status == RunQueued ==> r.startedAt.None? && r.finishedAt.None? && !r.hasResult
                                  && r.errorCategory.None? && r.cancelRequestedAt.None?)
    && (Terminal(r.status) <==> r.finishedAt.Some?)
    && (r.status in {RunRunning, RunWaiting, RunCompleted, RunFailed} ==> r.startedAt.Some?)
    && (r.status == RunCompleted ==> r.hasResult && r.errorCategory.None?)
    && (r.status == RunFailed ==> r.errorCategory.Some?)
    && (r.finishedAt.Some? && r.startedAt.Some? ==> r.finishedAt.value >= r.startedAt.value)
    && (r.finishedAt.Some? && r.cancelRequestedAt.Some? ==> r.finishedAt.value >= r.cancelRequestedAt.value)
    && (r.mode == Resume ==> r.status != RunWaiting)
  }

  /** CHECK constraints of `run_jobs`. */
  predicate JobOk(j: Job)
  {
    && 0 <= j.attempt <= j.maxAttempts && j.maxAttempts > 0
    && (j.status == JobLeased <==> j.lease.Some?)
    && (j.status == JobLeased ==> j.attempt >= 1)
    && (j.status == JobDead ==> j.errorSummary.Some?)
  }

  /** The outstanding lease is a claim that was handed out, and no other claim has its token. */
  predicate LeaseOk(job: Job, graphVersion: int, issued: set<ClaimedJob>)
  {
    job.lease.Some? ==>
      var current := ClaimedJob(job.lease.value.token, job.attempt, job.maxAttempts, graphVersion, job.resumeRequest);
      && current in issued
      && forall h :: h in issued && h.token == current.token ==> h == current
  }

  /** A waiting run either sleeps on its open request or has a job that will wake it with
      the request that was decided or has expired. */
  predicate WaitOk(ps: seq<Proposal>, job: Job)
  {
    && NewestIs(ps, Proposed) && Newest(ps).request.Some?
    && var r := Newest(ps).request.value;
       if job.status == JobDone then r.status == Pending && job.resumeRequest == None
       else job.status != JobDead && job.resumeRequest == Some(r.id) && r.status != Pending
  }

  predicate Progress(status: RunStatus, job: Job, executing: Option<Token>)
  {
    && (status in {RunQueued, RunRunning} ==> job.status in {JobQueued, JobLeased})
    && (Terminal(status) ==> job.status in {JobDone, JobDead})
    && (job.lease.Some? && executing == Some(job.lease.value.token) ==> status == RunRunning)
  }

  /** The statuses that count as a call having been attempted. */
  const ACTED: set<IntentStatus> := {Executing, Succeeded, Failed, OutcomeUnknown}

  /** A queued job has attempts left, or its action was already being executed. */
  predicate QueueOk(ps: seq<Proposal>, job: Job)
  {
    job.status == JobQueued && job.attempt == job.maxAttempts ==> ps != [] && Newest(ps).intent.status in ACTED
  }

  predicate ResumeOk(ps: seq<Proposal>, resumeRequest: Option<RequestId>)
  {
    resumeRequest.Some? ==>
      exists i :: 0 <= i < |ps| && HasRequest(ps[i], resumeRequest.value) && ps[i].request.value.status != Pending
  }

  /** Actions exist only in application runs that have started; an executing action keeps
      its run live; a consumed action is cancelled only for a reason that is there to stay. */
  predicate ActionsOk(ps: seq<Proposal>, run: Run, memberActive: bool)
  {
    ps != [] ==>
      && run.mode == Application && run.graphVersion == CURRENT_GRAPH_VERSION && run.status != RunQueued
      && (NewestIs(ps, Executing) ==> run.status == RunRunning)
      && var p := Newest(ps);
         (p.intent.status == Cancelled && p.request.Some? && p.request.value.status == Consumed ==>
            !memberActive || run.cancelRequestedAt.Some? || Terminal(run.status))
  }

  // ---- The outside world ----------------------------------------------------

  /** A call with this key and payload was authorized by the newest, consumed approval. */
  predicate Authorizes(ps: seq<Proposal>, key: IntentId, args: Args, attempt: int)
  {
    && ps != []
    && var p := Newest(ps);
       && p.intent.id == key && p.intent.args == args
       && p.request.Some? && p.request.value.status == Consumed
       && p.invocation.Some? && 1 <= attempt <= p.invocation.value.attempt
  }

  predicate OutsideOk(ps: seq<Proposal>, wire: set<Message>, portal: seq<Submission>)
  {
    && (forall m :: m in wire ==> Authorizes(ps, m.key, m.args, m.attempt))
    && (forall i :: 0 <= i < |portal| ==> Authorizes(ps, portal[i].key, portal[i].args, 1))
    && |portal| <= 1
  }

  // ---- The event log --------------------------------------------------------

  predicate Numbered(nextEventSeq: int, events: seq<Event>)
  {
    nextEventSeq == |events| + 1 && forall i :: 0 <= i < |events| ==> events[i].seqno == i + 1
  }

  function TerminalEvents(events: seq<Event>): nat
  {
    if events == [] then 0 else
    TerminalEvents(events[..|events| - 1]) + (if TerminalKind(events[|events| - 1].kind) then 1 else 0)
  }

  /** Consecutive sequence numbers, and one terminal event exactly if the run has ended. */
  predicate LogOk(nextEventSeq: int, events: seq<Event>, ended: bool)
  {
    Numbered(nextEventSeq, events) && TerminalEvents(events) == if ended then 1 else 0
  }

  // ---- The invariant --------------------------------------------------------

  predicate Inv(s: Rows, recoveryMax: int)
  {
    && ProposalsOk(s.proposals, recoveryMax)
    && RunOk(s.run) && JobOk(s.job)
    && LeaseOk(s.job, s.run.graphVersion, s.issued)
    && Progress(s.run.status, s.job, s.executing)
    && (s.run.status == RunQueued ==> s.job.resumeRequest == None)
    && (s.run.status == RunWaiting ==> WaitOk(s.proposals, s.job))
    && QueueOk(s.proposals, s.job)
    && ResumeOk(s.proposals, s.job.resumeRequest)
    && ActionsOk(s.proposals, s.run, s.memberActive)
    && OutsideOk(s.proposals, s.wire, s.portal)
    && LogOk(s.run.nextEventSeq, s.events, Terminal(s.run.status))
  }
}
