/** The transactions of `src/app/db/jobs.py` and the cancellation of `src/app/db/runs.py`. */
module Jobs {
  import opened Options
  import opened Rows
  import opened ActionExecution

  /** `_active_lease_predicates`. */
  predicate ActiveLease(job: Job, h: ClaimedJob, now: Time)
  {
    && job.status == JobLeased && job.lease.Some?
    && job.lease.value.token == h.token && job.attempt == h.attempt
    && job.lease.value.expiresAt > now
  }

  // ---- Terminal convergence -------------------------------------------------

  datatype Verdict = FailRun(category: Category) | CancelRun(reason: Category)

  /** How a failed or unknown action ends its run. */
  function ConvergedVerdict(s: Rows, p: Proposal): Verdict
    requires p.invocation.Some?
  {
    var category := p.invocation.value.errorCategory;
    var confirmedAbsent := p.intent.evidence.Some?
      && p.intent.evidence.value.classification == ConfirmedAbsent
      && p.intent.evidence.value.reason == category;
    if p.intent.status == OutcomeUnknown then FailRun(ExternalOutcomeUnknown)
    else if confirmedAbsent && category == Some(CancelledConfirmedAbsent) && s.run.cancelRequestedAt.Some? then
      CancelRun(UserRequested)
    else if confirmedAbsent && category == Some(AuthorizationRevoked) && !s.memberActive then
      CancelRun(AuthorizationRevoked)
    else FailRun(ExternalActionFailed)
  }

  function EndRun(s: Rows, v: Verdict, now: Time): Rows
  {
    match v
    case FailRun(c) => MarkRunFailed(s, c, now)
    case CancelRun(r) => MarkRunCancelled(s, r, now)
  }

  function SummaryOf(v: Verdict): Option<Category> { if v.FailRun? then Some(v.category) else None }

  /** `_converge_terminal_action` with the job row already given up as done. */
  function Converge(s: Rows, i: nat, now: Time): Outcome<()>
    requires i < |s.proposals|
  {
    var p := s.proposals[i];
    if p.invocation.None? || Some(p.invocation.value.status) != InvocationOf(p.intent.status) then
      Raised(Broken(TerminalInvocationInconsistent))
    else if p.intent.status !in {Failed, OutcomeUnknown} then Raised(Broken(ConvergenceRequiresFailure))
    else
      var v := ConvergedVerdict(s, p);
      Committed(EndRun(SetJob(s, JobDone, SummaryOf(v)), v, now), ())
  }

  // ---- claim_due_job --------------------------------------------------------

  predicate SomeRecoverable(s: Rows, recoveryMax: int)
  {
    exists i :: 0 <= i < |s.proposals| && s.proposals[i].intent.status == Executing
             && s.proposals[i].intent.recoveryAttempts <= recoveryMax
  }

  predicate Claimable(s: Rows, executable: set<int>, recoveryMax: int, now: Time)
  {
    && s.job.status == JobQueued && s.job.availableAt <= now && s.run.graphVersion in executable
    && (s.job.attempt < s.job.maxAttempts
        || SomeRecoverable(s, recoveryMax)
        || (FirstWith(s.proposals, {Succeeded}).Some? && s.job.attempt < s.job.maxAttempts + recoveryMax))
  }

  /** `token` is the fresh fencing token. */
  function Claim(s: Rows, executable: set<int>, recoveryMax: int, worker: Actor, token: Token, now: Time,
                 duration: Time): Outcome<Option<ClaimedJob>>
  {
    if !Claimable(s, executable, recoveryMax, now) then Committed(s, None)
    else
      var attempt := if s.job.attempt < s.job.maxAttempts then s.job.attempt + 1 else s.job.attempt;
      var s1 := s.(job := s.job.(status := JobLeased, attempt := attempt,
                                 lease := Some(Lease(worker, token, now + duration))),
                   issued := s.issued + {HandleOf(s.(job := s.job.(attempt := attempt)), token)});
      Committed(s1, Some(HandleOf(s1, token)))
  }

  // ---- prepare_claimed_job --------------------------------------------------

  datatype Disposition = Execute | RecoverAction(action: Identity) | Finished | LeaseLost

  /** `_require_resume_request`, with `_require_consumed_resume` where consumption is allowed. */
  function ResumeFault(s: Rows, h: ClaimedJob, allowConsumed: bool): Option<Fault>
  {
    if h.resumeRequest.None? then Some(Broken(WaitingJobWithoutResumeIdentity)) else
    var found := FindRequest(s.proposals, h.resumeRequest.value);
    if found.None? then Some(Broken(ResumeRequestMissing)) else
    var p := s.proposals[found.value];
    if p.request.value.status != Consumed then None
    else if !allowConsumed then Some(Broken(ResumeRequestStatusInvalid))
    else if ConsumedResumeAgrees(p) then None
    else Some(Broken(ConsumedResumeConflict))
  }

  predicate ConsumedResumeAgrees(p: Proposal)
  {
    && p.request.Some? && p.request.value.consumedAt.Some? && ExactBinding(p) && ValidInvocation(p)
    && var v := p.invocation.value;
       match p.intent.status
       case Authorized => v.status == InvPrepared && v.attempt == 0
       case Executing => v.status == InvExecuting && v.attempt >= 1
       case Succeeded => v.status == InvSucceeded && v.attempt >= 1
       case _ => false
  }

  /** The run's own part of a preparation, once nothing ends the run early. */
  function StartRun(s: Rows, h: ClaimedJob, now: Time): Outcome<Disposition>
  {
    if s.job.resumeRequest != h.resumeRequest then Raised(Broken(ResumeIdentityChanged))
    else match s.run.status
      case RunWaiting =>
        var fault := ResumeFault(s, h, false);
        if fault.Some? then Raised(fault.value)
        else
          var s1 := Append(s.(run := s.run.(status := RunRunning)), RunStatusChanged(RunWaiting, RunRunning));
          var again := ResumeFault(s1, h, true);
          if again.Some? then Raised(again.value)
          else Committed(s1.(executing := Some(h.token)), Execute)
      case RunQueued =>
        if h.resumeRequest.Some? then Raised(Broken(InitialRunHasResumeIdentity))
        else Committed(Append(s.(run := s.run.(status := RunRunning, startedAt := Some(now)),
                                 executing := Some(h.token)),
                              RunStatusChanged(RunQueued, RunRunning)), Execute)
      case RunRunning =>
        var fault := if h.resumeRequest.Some? then ResumeFault(s, h, true) else None;
        if fault.Some? then Raised(fault.value)
        else Committed(s.(executing := Some(h.token)), Execute)
      case _ => Raised(Broken(ClaimedRunStatusInvalid))
  }

  function PrepareClaimedJob(s: Rows, h: ClaimedJob, executable: set<int>, now: Time): Outcome<Disposition>
  {
    if !ActiveLease(s.job, h, now) then Committed(s, LeaseLost) else
    var inDoubt := FirstWith(s.proposals, {Executing});
    var ended := FirstWith(s.proposals, {Failed, OutcomeUnknown});
    if inDoubt.Some? && (!s.memberActive || s.run.cancelRequestedAt.Some?) then
      var p := s.proposals[inDoubt.value];
      if p.request.None? || p.request.value.status != Consumed then Raised(Broken(BindingMissing))
      else Committed(s, RecoverAction(Identity(p.intent.id, p.request.value.id)))
    else if ended.Some? then
      var c := Converge(s, ended.value, now);
      if c.Raised? then Raised(c.fault) else Committed(c.rows, Finished)
    else if Terminal(s.run.status) then Committed(SetJob(s, JobDone, None), Finished)
    else if !s.memberActive then
      Committed(MarkRunCancelled(SetJob(s, JobDone, None), AuthorizationRevoked, now), Finished)
    else if s.run.graphVersion != h.graphVersion || s.run.graphVersion !in executable then
      Committed(KillJob(s, UnsupportedGraphVersion, now), Finished)
    else if s.run.cancelRequestedAt.Some? then
      Committed(MarkRunCancelled(SetJob(s, JobDone, None), UserRequested, now), Finished)
    else StartRun(s, h, now)
  }

  /** `_mark_job_dead` and then `_mark_run_failed`. */
  function KillJob(s: Rows, category: Category, now: Time): Rows
  {
    MarkRunFailed(Append(SetJob(s, JobDead, Some(category)), JobDeadEvent(s.job.attempt, category)), category, now)
  }

  // ---- heartbeat, complete, wait_for_approval -------------------------------

  function Heartbeat(s: Rows, h: ClaimedJob, now: Time, duration: Time): Outcome<bool>
  {
    if !ActiveLease(s.job, h, now) then Committed(s, false)
    else Committed(s.(job := s.job.(lease := Some(s.job.lease.value.(expiresAt := now + duration)))), true)
  }

  /** `publishes` marks a resume candidate, which also needs a live membership. */
  function Complete(s: Rows, h: ClaimedJob, publishes: bool, now: Time): Outcome<bool>
  {
    if !ActiveLease(s.job, h, now) then Committed(s, false) else
    var s1 := SetJob(s, JobDone, None);
    if Terminal(s.run.status) then Committed(s1, true)
    else if s.run.cancelRequestedAt.Some? then Committed(MarkRunCancelled(s1, UserRequested, now), true)
    else if s.run.status != RunRunning then Raised(Broken(CompletedRunNotRunning))
    else if publishes && !s.memberActive then Committed(MarkRunCancelled(s1, AuthorizationRevoked, now), true)
    else
      Committed(Append(s1.(run := s.run.(status := RunCompleted, hasResult := true, errorCategory := None,
                                         finishedAt := Some(TerminalTime(s.run, now)))),
                       RunCompletedEvent), true)
  }

  function WaitForApproval(s: Rows, h: ClaimedJob, request: RequestId, now: Time): Outcome<bool>
  {
    if !ActiveLease(s.job, h, now) then Committed(s, false) else
    var found := FindRequest(s.proposals, request);
    if s.run.mode == Resume then Raised(Broken(PauseModeInvalid))
    else if found.None? then Raised(Broken(PauseRequestMissing))
    else
      var r := s.proposals[found.value].request.value;
      if s.job.resumeRequest.Some? && (s.job.resumeRequest != Some(request) || h.resumeRequest != Some(request)) then
        Raised(Broken(PauseIdentityInvalid))
      else if s.job.resumeRequest.Some? && r.status == Consumed then Raised(Broken(ResumeRequestStatusInvalid))
      else if s.job.resumeRequest.None? && h.resumeRequest.Some? then Raised(Broken(PauseIdentityInvalid))
      else if s.job.resumeRequest.None? && r.status != Pending then Raised(Broken(PauseRequestNotPending))
      else if s.run.status != RunRunning then Raised(Broken(PauseRunNotRunning))
      else Committed(Append(SetJob(s, JobDone, None).(run := s.run.(status := RunWaiting)),
                            RunStatusChanged(RunRunning, RunWaiting)), true)
  }

  // ---- requeue, fail, cancel, release ---------------------------------------

  function Requeue(s: Rows, h: ClaimedJob, category: Category, now: Time, delay: Time): Outcome<bool>
  {
    if !ActiveLease(s.job, h, now) then Committed(s, false)
    else if s.run.cancelRequestedAt.Some? && s.run.status == RunRunning && !SomeExecuting(s) then
      Committed(MarkRunCancelled(s.(job := LeaveJob(s.job, JobDone, None).(availableAt := now + delay)),
                                 UserRequested, now), true)
    else Committed(RequeueJob(s, category, now + delay), true)
  }

  function FailJob(s: Rows, h: ClaimedJob, category: Category, recoveryMax: int, now: Time, delay: Time): Outcome<bool>
  {
    if !ActiveLease(s.job, h, now) then Committed(s, false) else
    var found := FirstWith(s.proposals, {Executing, Succeeded, Failed, OutcomeUnknown});
    if found.Some? && s.proposals[found.value].intent.status == Executing then
      GiveUpInDoubt(s, found.value, recoveryMax, now, delay)
    else if Terminal(s.run.status) then
      var ended := found.Some? && s.proposals[found.value].intent.status != Succeeded;
      Committed(SetJob(s, if ended then JobDone else JobDead, Some(category)), true)
    else if found.Some? && s.proposals[found.value].intent.status != Succeeded then
      var c := Converge(s, found.value, now);
      if c.Raised? then Raised(c.fault) else Committed(c.rows, true)
    else if s.run.cancelRequestedAt.Some? then
      Committed(MarkRunCancelled(SetJob(s, JobDone, None), UserRequested, now), true)
    else
      Committed(MarkRunFailed(Append(SetJob(s, JobDead, Some(category)), JobDeadEvent(h.attempt, category)),
                              category, now), true)
  }

  /** A worker or the sweeper gives up a lease while the action at `i` is executing. */
  function GiveUpInDoubt(s: Rows, i: nat, recoveryMax: int, now: Time, delay: Time): Outcome<bool>
    requires i < |s.proposals|
  {
    var p := s.proposals[i];
    if p.intent.recoveryAttempts < recoveryMax then
      Committed(RequeueJob(s, ActionRecoveryRequired, now + delay), true)
    else if p.invocation.None? || p.invocation.value.status != InvExecuting then
      Raised(Broken(TerminalInvocationInconsistent))
    else
      Committed(MarkRunFailed(MarkUnknown(SetJob(s, JobDone, Some(ExternalOutcomeUnknown)), i, EXHAUSTED, now),
                              ExternalOutcomeUnknown, now), true)
  }

  function CancelJob(s: Rows, h: ClaimedJob, reason: Category, now: Time, delay: Time): Outcome<bool>
  {
    if !ActiveLease(s.job, h, now) then Committed(s, false) else
    var found := FirstWith(s.proposals, {Executing, Failed, OutcomeUnknown});
    if found.Some? && s.proposals[found.value].intent.status == Executing then
      Committed(RequeueJob(s, ActionRecoveryRequired, now + delay), true)
    else if found.Some? then
      var c := Converge(s, found.value, now);
      if c.Raised? then Raised(c.fault) else Committed(c.rows, true)
    else
      var persisted := if s.run.cancelRequestedAt.Some? then UserRequested
                       else if !s.memberActive then AuthorizationRevoked else reason;
      Committed(MarkRunCancelled(SetJob(s, JobDone, None), persisted, now), true)
  }

  function Release(s: Rows, h: ClaimedJob, category: Category, now: Time, delay: Time): Outcome<bool>
  {
    if ActiveLease(s.job, h, now) && s.job.attempt < s.job.maxAttempts then
      Committed(RequeueJob(s, category, now + delay), true)
    else Committed(s, false)
  }

  // ---- reclaim_stale_leases -------------------------------------------------

  predicate Stale(s: Rows, executable: set<int>, now: Time)
  {
    s.job.status == JobLeased && s.job.lease.Some? && s.job.lease.value.expiresAt <= now
    && s.run.graphVersion in executable
  }

  datatype Reclaimed = Requeued | FinishedJob | DeadJob

  /** One iteration of the reclaim loop on a stale job. */
  function ReclaimOne(s: Rows, recoveryMax: int, now: Time, delay: Time): Outcome<Reclaimed>
  {
    var found := FirstWith(s.proposals, {Executing, Succeeded, Failed, OutcomeUnknown});
    if found.Some? && s.proposals[found.value].intent.status == Executing then
      var p := s.proposals[found.value];
      if p.invocation.None? || p.invocation.value.status != InvExecuting then
        Raised(Broken(TerminalInvocationInconsistent))
      else
        var g := GiveUpInDoubt(Append(s, JobLeaseExpired(s.job.attempt)), found.value, recoveryMax, now, delay);
        if g.Raised? then Raised(g.fault)
        else Committed(g.rows, if p.intent.recoveryAttempts < recoveryMax then Requeued else FinishedJob)
    else if found.Some? && s.proposals[found.value].intent.status != Succeeded then
      var c := Converge(s, found.value, now);
      if c.Raised? then Raised(c.fault) else Committed(c.rows, FinishedJob)
    else if found.Some? && !Terminal(s.run.status) && s.job.attempt < s.job.maxAttempts + recoveryMax then
      Committed(RequeueJob(Append(s, JobLeaseExpired(s.job.attempt)), TerminalActionConvergence, now + delay), Requeued)
    else if Terminal(s.run.status) then Committed(SetJob(s, JobDone, None), FinishedJob)
    else if s.run.cancelRequestedAt.Some? then
      Committed(MarkRunCancelled(SetJob(s, JobDone, None), UserRequested, now), FinishedJob)
    else ReclaimIdle(Append(s, JobLeaseExpired(s.job.attempt)), now, delay)
  }

  /** The tail of the loop: no action in the way and the run is live. */
  function ReclaimIdle(s: Rows, now: Time, delay: Time): Outcome<Reclaimed>
  {
    var waitingResume := s.run.status == RunWaiting && s.job.resumeRequest.Some?;
    if s.job.attempt < s.job.maxAttempts && (s.run.status in {RunQueued, RunRunning} || waitingResume) then
      if waitingResume && FindRequest(s.proposals, s.job.resumeRequest.value).None? then
        Raised(Broken(ResumeRequestMissing))
      else Committed(RequeueJob(s, LeaseExpired, now + delay), Requeued)
    else
      Committed(KillJob(s, if s.run.status == RunWaiting then UnexpectedWaitingApproval else JobAttemptsExhausted, now),
                DeadJob)
  }

  // ---- cancel_run (src/app/db/runs.py) --------------------------------------

  /** `authorized` reports the caller's own membership, role and creator checks. */
  function CancelRunByUser(s: Rows, authorized: bool, now: Time): Outcome<RunStatus>
  {
    var active := FirstWith(s.proposals, {Proposed, Authorized});
    if active.Some? && FirstWith(s.proposals, {Proposed, Authorized}, active.value + 1).Some? then
      Raised(Broken(SeveralActiveRequests))
    else if !authorized then Raised(NotFound)
    else match s.run.status
      case RunWaiting => CancelWaiting(s, now)
      case RunQueued =>
        if s.job.status !in {JobQueued, JobLeased} then Raised(Broken(CancelJobStatusInvalid))
        else Committed(Append(SetJob(s, JobDone, None).(
                                run := s.run.(status := RunCancelled, finishedAt := Some(now))),
                              RunCancelledEvent(RunQueued, UserRequested)), RunCancelled)
      case RunRunning =>
        Committed(if s.run.cancelRequestedAt.Some? then s
                  else s.(run := s.run.(cancelRequestedAt := Some(now))), RunRunning)
      case _ => Committed(s, s.run.status)
  }

  /** The wait of a cancelled run ends: request expired, action cancelled, run cancelled. */
  function CancelWaiting(s: Rows, now: Time): Outcome<RunStatus>
  {
    var active := FirstWith(s.proposals, {Proposed, Authorized});
    if active.None? || s.proposals[active.value].request.None? then Raised(Broken(WaitingRunWithoutRequest))
    else
      var p := s.proposals[active.value];
      var r := p.request.value;
      if r.status == Consumed then Raised(Conflict)
      else if s.job.status == JobDead then Raised(Broken(CancelJobStatusInvalid))
      else
        var open := r.status in {Pending, Approved};
        var request := if open then r.(status := Expired, version := r.version + 1) else r;
        var s1 := if open then
          Append(s, ApprovalExpiredEvent(p.intent.id, r.id, p.intent.revision, ExpiredByUser)) else s;
        var s2 := Append(SetProposal(s1, active.value,
                           p.(request := Some(request), intent := p.intent.(status := Cancelled))),
                         ActionCancelledEvent(p.intent.id, r.id, CancelledByUser));
        var finished := if s.run.startedAt.Some? then Max(now, s.run.startedAt.value) else now;
        Committed(Append(SetJob(s2, JobDone, None).(
                           run := s2.run.(status := RunCancelled, finishedAt := Some(finished))),
                         RunCancelledEvent(RunWaiting, UserRequested)), RunCancelled)
  }
}
