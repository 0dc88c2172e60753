/** The transactions of jobs.py and the user's cancellation keep the invariant. */
module JobProofs {
  import opened Options
  import opened Rows
  import opened ActionExecution
  import opened Jobs
  import opened Invariant
  import opened ExecutionProofs

  // ---- Ending a run and giving up a lease -----------------------------------

  lemma CloseKeeps(s: Rows, j: Job, v: Jobs.Verdict, now: Time, recoveryMax: int)
    requires Inv(s, recoveryMax) && !NewestIs(s.proposals, Executing)
    requires JobOk(j) && j.status in {JobDone, JobDead} && j.resumeRequest == s.job.resumeRequest
    ensures Inv(EndRun(s.(job := j), v, now), recoveryMax)
    ensures Terminal(EndRun(s.(job := j), v, now).run.status) && EndRun(s.(job := j), v, now).job == j
  {
    hide ProposalsOk, OutsideOk, ResumeOk, LogOk;
    var kind := if v.FailRun? then RunFailedEvent(v.category) else RunCancelledEvent(s.run.status, v.reason);
    if !Terminal(s.run.status) { AppendKeepsLog(s, kind, false); }
  }

  lemma RequeueKeeps(s: Rows, summary: Category, availableAt: Time, recoveryMax: int)
    requires Inv(s, recoveryMax) && s.job.status == JobLeased
    requires s.job.attempt < s.job.maxAttempts || (s.proposals != [] && Newest(s.proposals).intent.status in ACTED)
    ensures Inv(RequeueJob(s, summary, availableAt), recoveryMax)
  {
    hide ProposalsOk, OutsideOk, ResumeOk, LogOk;
  }

  lemma JobIsOk(s: Rows, recoveryMax: int)
    requires Inv(s, recoveryMax)
    ensures JobOk(s.job)
  {
  }

  /** A leased job belongs to a run that has not ended. */
  lemma LeasedIsLive(s: Rows, recoveryMax: int)
    requires Inv(s, recoveryMax) && s.job.status == JobLeased
    ensures !Terminal(s.run.status) && JobOk(s.job)
    ensures s.run.status == RunWaiting && s.job.resumeRequest.Some? ==>
              FindRequest(s.proposals, s.job.resumeRequest.value).Some?
  {
    if s.run.status == RunWaiting { RequestFound(s, |s.proposals| - 1, recoveryMax); }
  }

  lemma ActedIsLinked(s: Rows, i: nat, recoveryMax: int)
    requires Inv(s, recoveryMax) && i < |s.proposals|
    requires s.proposals[i].intent.status in ACTED
    ensures i == |s.proposals| - 1
    ensures
      var p := s.proposals[i];
      p.request.Some? && p.request.value.status == Consumed && p.invocation.Some?
      && Some(p.invocation.value.status) == InvocationOf(p.intent.status)
  {
  }

  lemma RequestFound(s: Rows, i: nat, recoveryMax: int)
    requires ProposalsOk(s.proposals, recoveryMax) && i < |s.proposals|
    ensures FindRequest(s.proposals, s.proposals[i].request.value.id) == Some(i)
  {
    var id := s.proposals[i].request.value.id;
    assert HasRequest(s.proposals[i], id);
  }

  lemma FirstExecutingIsNewest(s: Rows, statuses: set<IntentStatus>, recoveryMax: int)
    requires Inv(s, recoveryMax) && Cancelled !in statuses
    ensures
      var found := FirstWith(s.proposals, statuses);
      if s.proposals != [] && Newest(s.proposals).intent.status in statuses
      then found == Some(|s.proposals| - 1) else found.None?
  {
  }

  lemma ConvergeKeeps(s: Rows, i: nat, now: Time, recoveryMax: int)
    requires Inv(s, recoveryMax) && s.job.status == JobLeased
    requires i < |s.proposals| && s.proposals[i].intent.status in {Failed, OutcomeUnknown}
    ensures Converge(s, i, now).Committed? && Inv(Converge(s, i, now).rows, recoveryMax)
    ensures Converge(s, i, now).rows.job.status != JobLeased
  {
    hide Inv, ConvergedVerdict;
    LeasedIsLive(s, recoveryMax);
    ActedIsLinked(s, i, recoveryMax);
    var v := ConvergedVerdict(s, s.proposals[i]);
    CloseKeeps(s, LeaveJob(s.job, JobDone, SummaryOf(v)), v, now, recoveryMax);
  }

  lemma GiveUpKeeps(s: Rows, i: nat, now: Time, delay: Time, recoveryMax: int)
    requires Inv(s, recoveryMax) && s.job.status == JobLeased
    requires i < |s.proposals| && s.proposals[i].intent.status == Executing
    ensures
      var o := GiveUpInDoubt(s, i, recoveryMax, now, delay);
      o.Committed? && Inv(o.rows, recoveryMax) && o.rows.job.status != JobLeased
  {
    hide Inv, FirstWith;
    LeasedIsLive(s, recoveryMax);
    ActedIsLinked(s, i, recoveryMax);
    RequeueKeeps(s, ActionRecoveryRequired, now + delay, recoveryMax);
    MarkUnknownKeeps(s, i, EXHAUSTED, now, recoveryMax);
    var t := MarkUnknown(s, i, EXHAUSTED, now);
    var done := LeaveJob(s.job, JobDone, Some(ExternalOutcomeUnknown));
    CloseKeeps(t, done, FailRun(ExternalOutcomeUnknown), now, recoveryMax);
    assert MarkUnknown(SetJob(s, JobDone, Some(ExternalOutcomeUnknown)), i, EXHAUSTED, now) == t.(job := done);
  }

  lemma KillJobKeeps(s: Rows, category: Category, now: Time, recoveryMax: int)
    requires Inv(s, recoveryMax) && !NewestIs(s.proposals, Executing)
    ensures Inv(KillJob(s, category, now), recoveryMax)
    ensures KillJob(s, category, now).job.status == JobDead
  {
    hide Inv;
    WorkerDeathKeeps(s, s.job.attempt, category, now, recoveryMax);
  }

  // ---- claim and prepare ----------------------------------------------------

  predicate FreshToken(s: Rows, token: Token)
  {
    s.executing != Some(token) && forall h :: h in s.issued ==> h.token != token
  }

  lemma ClaimKeeps(s: Rows, executable: set<int>, worker: Actor, token: Token, now: Time, duration: Time,
                   recoveryMax: int)
    requires Inv(s, recoveryMax) && FreshToken(s, token)
    ensures Inv(After(s, Claim(s, executable, recoveryMax, worker, token, now, duration)), recoveryMax)
  {
  }

  /** A claim that still holds its lease is the claim that the job row describes. */
  lemma GenuineHolder(s: Rows, h: ClaimedJob, now: Time, recoveryMax: int)
    requires Inv(s, recoveryMax) && h in s.issued && ActiveLease(s.job, h, now)
    ensures h == HandleOf(s, h.token)
  {
  }

  /** Neither the identity that a claim carries nor the request behind it can be wrong. */
  lemma ResumeIsSound(s: Rows, h: ClaimedJob, now: Time, allowConsumed: bool, recoveryMax: int)
    requires Inv(s, recoveryMax) && h in s.issued && ActiveLease(s.job, h, now)
    requires s.memberActive && s.run.cancelRequestedAt.None?
    requires !NewestIs(s.proposals, Failed) && !NewestIs(s.proposals, OutcomeUnknown)
    requires s.run.status == RunWaiting || (s.run.status == RunRunning && allowConsumed && h.resumeRequest.Some?)
    ensures ResumeFault(s, h, allowConsumed).None?
  {
    GenuineHolder(s, h, now, recoveryMax);
    var k :| 0 <= k < |s.proposals| && HasRequest(s.proposals[k], h.resumeRequest.value)
          && s.proposals[k].request.value.status != Pending;
    RequestFound(s, k, recoveryMax);
  }

  lemma StartRunKeeps(s: Rows, h: ClaimedJob, now: Time, recoveryMax: int)
    requires Inv(s, recoveryMax) && h in s.issued && ActiveLease(s.job, h, now)
    requires s.memberActive && s.run.cancelRequestedAt.None?
    requires !NewestIs(s.proposals, Failed) && !NewestIs(s.proposals, OutcomeUnknown)
    ensures var o := StartRun(s, h, now); o.Committed? && Inv(o.rows, recoveryMax)
  {
    hide ProposalsOk, ResumeFault, OutsideOk, LogOk, ResumeOk;
    GenuineHolder(s, h, now, recoveryMax);
    if s.run.status != RunRunning {
      AppendKeepsLog(s, RunStatusChanged(s.run.status, RunRunning), false);
    }
    if s.run.status == RunWaiting {
      ResumeIsSound(s, h, now, false, recoveryMax);
      ResumeIsSound(s, h, now, true, recoveryMax);
      var s1 := Append(s.(run := s.run.(status := RunRunning)), RunStatusChanged(RunWaiting, RunRunning));
      ResumeReadsProposals(s, s1, h);
    } else if h.resumeRequest.Some? {
      ResumeIsSound(s, h, now, true, recoveryMax);
    }
  }

  lemma ResumeReadsProposals(s: Rows, t: Rows, h: ClaimedJob)
    requires s.proposals == t.proposals
    ensures ResumeFault(s, h, true) == ResumeFault(t, h, true)
  {
  }

  lemma PrepareClaimedJobKeeps(s: Rows, h: ClaimedJob, executable: set<int>, now: Time, recoveryMax: int)
    requires Inv(s, recoveryMax) && h in s.issued
    requires NewestIs(s.proposals, Executing) && s.memberActive && s.run.cancelRequestedAt.None? ==>
               s.run.graphVersion in executable
    ensures
      var o := PrepareClaimedJob(s, h, executable, now);
      o.Committed? && Inv(o.rows, recoveryMax)
  {
    hide Inv, FirstWith, Converge, StartRun, KillJob;
    if ActiveLease(s.job, h, now) {
      GenuineHolder(s, h, now, recoveryMax);
      LeasedIsLive(s, recoveryMax);
      FirstExecutingIsNewest(s, {Executing}, recoveryMax);
      FirstExecutingIsNewest(s, {Failed, OutcomeUnknown}, recoveryMax);
      if NewestIs(s.proposals, Executing) && (!s.memberActive || s.run.cancelRequestedAt.Some?) {
        ActedIsLinked(s, |s.proposals| - 1, recoveryMax);
      } else if NewestIs(s.proposals, Failed) || NewestIs(s.proposals, OutcomeUnknown) {
        ConvergeKeeps(s, |s.proposals| - 1, now, recoveryMax);
      } else if !s.memberActive {
        CloseKeeps(s, LeaveJob(s.job, JobDone, None), CancelRun(AuthorizationRevoked), now, recoveryMax);
      } else if s.run.graphVersion !in executable {
        KillJobKeeps(s, UnsupportedGraphVersion, now, recoveryMax);
      } else if s.run.cancelRequestedAt.Some? {
        CloseKeeps(s, LeaveJob(s.job, JobDone, None), CancelRun(UserRequested), now, recoveryMax);
      } else {
        StartRunKeeps(s, h, now, recoveryMax);
      }
    }
  }

  // ---- heartbeat, complete, wait --------------------------------------------

  lemma HeartbeatKeeps(s: Rows, h: ClaimedJob, now: Time, duration: Time, recoveryMax: int)
    requires Inv(s, recoveryMax)
    ensures Inv(After(s, Heartbeat(s, h, now, duration)), recoveryMax)
  {
  }

  lemma CompleteKeeps(s: Rows, h: ClaimedJob, publishes: bool, now: Time, recoveryMax: int)
    requires Inv(s, recoveryMax) && !NewestIs(s.proposals, Executing)
    ensures Inv(After(s, Complete(s, h, publishes, now)), recoveryMax)
  {
    hide ProposalsOk, OutsideOk, ResumeOk, LogOk;
    if ActiveLease(s.job, h, now) {
      CloseKeeps(s, LeaveJob(s.job, JobDone, None), CancelRun(UserRequested), now, recoveryMax);
      CloseKeeps(s, LeaveJob(s.job, JobDone, None), CancelRun(AuthorizationRevoked), now, recoveryMax);
      AppendKeepsLog(s, RunCompletedEvent, false);
    }
  }

  /** A claim that was told to execute never completes a run that is not running. */
  lemma ExecutorCompletes(s: Rows, h: ClaimedJob, publishes: bool, now: Time, recoveryMax: int)
    requires Inv(s, recoveryMax) && s.executing == Some(h.token)
    ensures Complete(s, h, publishes, now).Committed?
  {
  }

  /** The graph pauses only on a request that it has just read as pending. */
  predicate PausesOnPending(s: Rows, request: RequestId)
  {
    var found := FindRequest(s.proposals, request);
    found.Some? ==> s.proposals[found.value].request.value.status == Pending
  }

  /** A pause on a pending request is the first pause of its run. */
  lemma PauseIsFirst(s: Rows, request: RequestId, recoveryMax: int)
    requires Inv(s, recoveryMax) && PausesOnPending(s, request) && FindRequest(s.proposals, request).Some?
    ensures s.job.resumeRequest != Some(request)
    ensures FindRequest(s.proposals, request) == Some(|s.proposals| - 1) && NewestIs(s.proposals, Proposed)
    ensures HasRequest(Newest(s.proposals), request) && Newest(s.proposals).request.value.status == Pending
  {
    BoundIsNewest(s, FindRequest(s.proposals, request).value, recoveryMax);
  }

  lemma WaitForApprovalKeeps(s: Rows, h: ClaimedJob, request: RequestId, now: Time, recoveryMax: int)
    requires Inv(s, recoveryMax) && PausesOnPending(s, request)
    ensures Inv(After(s, WaitForApproval(s, h, request, now)), recoveryMax)
  {
    hide ProposalsOk, OutsideOk, ResumeOk, LogOk, FindRequest;
    if ActiveLease(s.job, h, now) && FindRequest(s.proposals, request).Some? && s.run.status == RunRunning {
      PauseIsFirst(s, request, recoveryMax);
      AppendKeepsLog(s, RunStatusChanged(RunRunning, RunWaiting), false);
    }
  }

  // ---- requeue, fail, cancel, release ---------------------------------------

  /** A job may be given back for a retry: an attempt is left, or its call was attempted, or a
      pending cancellation ends the run anyway. */
  predicate MayRetry(s: Rows)
  {
    || s.job.attempt < s.job.maxAttempts
    || (s.proposals != [] && Newest(s.proposals).intent.status in ACTED)
    || (s.run.cancelRequestedAt.Some? && s.run.status == RunRunning)
  }

  /** The runner asks for a retry only while its claim has attempts left. */
  lemma RetryHasAttempts(s: Rows, h: ClaimedJob, now: Time, recoveryMax: int)
    requires Inv(s, recoveryMax) && h in s.issued && h.attempt < h.maxAttempts
    ensures ActiveLease(s.job, h, now) ==> s.job.attempt < s.job.maxAttempts && MayRetry(s)
  {
    hide ProposalsOk, OutsideOk, LogOk, ResumeOk, RunOk, QueueOk, WaitOk;
    if ActiveLease(s.job, h, now) { GenuineHolder(s, h, now, recoveryMax); }
  }

  lemma RequeueStepKeeps(s: Rows, h: ClaimedJob, category: Category, now: Time, delay: Time, recoveryMax: int)
    requires Inv(s, recoveryMax) && (ActiveLease(s.job, h, now) ==> MayRetry(s))
    ensures Inv(After(s, Requeue(s, h, category, now, delay)), recoveryMax)
  {
    hide Inv, FirstWith;
    if ActiveLease(s.job, h, now) {
      LeasedIsLive(s, recoveryMax);
      FirstExecutingIsNewest(s, {Executing}, recoveryMax);
      if s.job.attempt < s.job.maxAttempts || (s.proposals != [] && Newest(s.proposals).intent.status in ACTED) {
        RequeueKeeps(s, category, now + delay, recoveryMax);
      }
      if !NewestIs(s.proposals, Executing) {
        CloseKeeps(s, LeaveJob(s.job, JobDone, None).(availableAt := now + delay), CancelRun(UserRequested), now,
                   recoveryMax);
      }
    }
  }

  lemma FailJobKeeps(s: Rows, h: ClaimedJob, category: Category, now: Time, delay: Time, recoveryMax: int)
    requires Inv(s, recoveryMax)
    ensures
      var o := FailJob(s, h, category, recoveryMax, now, delay);
      o.Committed? && Inv(o.rows, recoveryMax)
  {
    hide Inv, FirstWith, GiveUpInDoubt, Converge, MarkRunFailed, MarkRunCancelled;
    if ActiveLease(s.job, h, now) {
      LeasedIsLive(s, recoveryMax);
      FirstExecutingIsNewest(s, ACTED, recoveryMax);
      var n := |s.proposals| - 1;
      if NewestIs(s.proposals, Executing) {
        GiveUpKeeps(s, n, now, delay, recoveryMax);
      } else if NewestIs(s.proposals, Failed) || NewestIs(s.proposals, OutcomeUnknown) {
        ConvergeKeeps(s, n, now, recoveryMax);
      } else if s.run.cancelRequestedAt.Some? {
        CloseKeeps(s, LeaveJob(s.job, JobDone, None), CancelRun(UserRequested), now, recoveryMax);
      } else {
        WorkerDeathKeeps(s, h.attempt, category, now, recoveryMax);
      }
    }
  }

  lemma WorkerDeathKeeps(s: Rows, attempt: int, category: Category, now: Time, recoveryMax: int)
    requires Inv(s, recoveryMax) && !NewestIs(s.proposals, Executing)
    ensures
      Inv(MarkRunFailed(Append(SetJob(s, JobDead, Some(category)), JobDeadEvent(attempt, category)), category, now),
          recoveryMax)
  {
    hide Inv;
    JobIsOk(s, recoveryMax);
    var kind := JobDeadEvent(attempt, category);
    AppendKeeps(s, kind, recoveryMax);
    CloseKeeps(Append(s, kind), LeaveJob(s.job, JobDead, Some(category)), FailRun(category), now, recoveryMax);
  }

  lemma CancelJobKeeps(s: Rows, h: ClaimedJob, reason: Category, now: Time, delay: Time, recoveryMax: int)
    requires Inv(s, recoveryMax)
    ensures
      var o := CancelJob(s, h, reason, now, delay);
      o.Committed? && Inv(o.rows, recoveryMax)
  {
    hide Inv, FirstWith, Converge;
    if ActiveLease(s.job, h, now) {
      LeasedIsLive(s, recoveryMax);
      FirstExecutingIsNewest(s, {Executing, Failed, OutcomeUnknown}, recoveryMax);
      if NewestIs(s.proposals, Executing) {
        RequeueKeeps(s, ActionRecoveryRequired, now + delay, recoveryMax);
      } else if NewestIs(s.proposals, Failed) || NewestIs(s.proposals, OutcomeUnknown) {
        ConvergeKeeps(s, |s.proposals| - 1, now, recoveryMax);
      } else {
        var persisted := if s.run.cancelRequestedAt.Some? then UserRequested
                         else if !s.memberActive then AuthorizationRevoked else reason;
        CloseKeeps(s, LeaveJob(s.job, JobDone, None), CancelRun(persisted), now, recoveryMax);
      }
    }
  }

  lemma ReleaseKeeps(s: Rows, h: ClaimedJob, category: Category, now: Time, delay: Time, recoveryMax: int)
    requires Inv(s, recoveryMax)
    ensures Inv(After(s, Release(s, h, category, now, delay)), recoveryMax)
  {
    hide Inv;
    if ActiveLease(s.job, h, now) && s.job.attempt < s.job.maxAttempts {
      RequeueKeeps(s, category, now + delay, recoveryMax);
    }
  }

  // ---- reclaim --------------------------------------------------------------

  lemma ReclaimIdleKeeps(s: Rows, now: Time, delay: Time, recoveryMax: int)
    requires Inv(s, recoveryMax) && s.job.status == JobLeased && !NewestIs(s.proposals, Executing)
    ensures
      var o := ReclaimIdle(s, now, delay);
      o.Committed? && Inv(o.rows, recoveryMax) && o.rows.job.status != JobLeased
  {
    hide Inv, FirstWith, FindRequest;
    LeasedIsLive(s, recoveryMax);
    if s.job.attempt < s.job.maxAttempts { RequeueKeeps(s, LeaseExpired, now + delay, recoveryMax); }
    KillJobKeeps(s, UnexpectedWaitingApproval, now, recoveryMax);
    KillJobKeeps(s, JobAttemptsExhausted, now, recoveryMax);
  }

  lemma ReclaimOneKeeps(s: Rows, executable: set<int>, now: Time, delay: Time, recoveryMax: int)
    requires Inv(s, recoveryMax) && Stale(s, executable, now)
    ensures
      var o := ReclaimOne(s, recoveryMax, now, delay);
      o.Committed? && Inv(o.rows, recoveryMax) && o.rows.job.status != JobLeased
  {
    hide Inv, FirstWith, GiveUpInDoubt, Converge, ReclaimIdle;
    LeasedIsLive(s, recoveryMax);
    FirstExecutingIsNewest(s, ACTED, recoveryMax);
    var n := |s.proposals| - 1;
    var t := Append(s, JobLeaseExpired(s.job.attempt));
    AppendKeeps(s, JobLeaseExpired(s.job.attempt), recoveryMax);
    if NewestIs(s.proposals, Executing) {
      ActedIsLinked(s, n, recoveryMax);
      GiveUpKeeps(t, n, now, delay, recoveryMax);
    } else if NewestIs(s.proposals, Failed) || NewestIs(s.proposals, OutcomeUnknown) {
      ConvergeKeeps(s, n, now, recoveryMax);
    } else if NewestIs(s.proposals, Succeeded) && s.job.attempt < s.job.maxAttempts + recoveryMax {
      RequeueKeeps(t, TerminalActionConvergence, now + delay, recoveryMax);
    } else if s.run.cancelRequestedAt.Some? {
      CloseKeeps(s, LeaveJob(s.job, JobDone, None), CancelRun(UserRequested), now, recoveryMax);
    } else {
      ReclaimIdleKeeps(t, now, delay, recoveryMax);
    }
  }

  // ---- cancel_run -----------------------------------------------------------

  /** A waiting run is cancelled no earlier than its pending cancellation was requested. */
  predicate CancelsInOrder(s: Rows, now: Time)
  {
    s.run.status == RunWaiting && s.run.cancelRequestedAt.Some? ==>
      Max(now, if s.run.startedAt.Some? then s.run.startedAt.value else now) >= s.run.cancelRequestedAt.value
  }

  lemma CancelWaitingKeeps(s: Rows, now: Time, recoveryMax: int)
    requires Inv(s, recoveryMax) && s.run.status == RunWaiting && CancelsInOrder(s, now)
    ensures var o := CancelWaiting(s, now); o.Committed? && Inv(o.rows, recoveryMax)
  {
    hide RunOk, JobOk, LeaseOk, ActionsOk, OutsideOk, LogOk, ResumeOk, FirstWith;
    FirstExecutingIsNewest(s, {Proposed, Authorized}, recoveryMax);
    var n := |s.proposals| - 1;
    var p := s.proposals[n];
    var t := CancelWaiting(s, now).rows;
    CancelWaitingLog(s, n, now);
    UpdateKeepsProposals(s.proposals, n, t.proposals[n], recoveryMax);
    RewriteKeepsResume(s.proposals, n, t.proposals[n], s.job.resumeRequest);
    CancelWaitingRest(s, t, n, now, recoveryMax);
  }

  /** The conjuncts that a cancelled wait settles outside the log and the proposals. */
  lemma CancelWaitingRest(s: Rows, t: Rows, i: nat, now: Time, recoveryMax: int)
    requires Inv(s, recoveryMax) && s.run.status == RunWaiting && CancelsInOrder(s, now)
    requires FirstWith(s.proposals, {Proposed, Authorized}) == Some(i) && i == |s.proposals| - 1
    requires CancelWaiting(s, now) == Committed(t, RunCancelled)
    ensures RunOk(t.run) && JobOk(t.job) && LeaseOk(t.job, t.run.graphVersion, t.issued)
    ensures Progress(t.run.status, t.job, t.executing) && t.run.status == RunCancelled
    ensures ActionsOk(t.proposals, t.run, t.memberActive) && OutsideOk(t.proposals, t.wire, t.portal)
  {
    hide ProposalsOk, LogOk, ResumeOk, FirstWith;
  }

  lemma CancelWaitingLog(s: Rows, i: nat, now: Time)
    requires LogOk(s.run.nextEventSeq, s.events, false) && CancelWaiting(s, now).Committed?
    requires FirstWith(s.proposals, {Proposed, Authorized}) == Some(i)
    ensures var t := CancelWaiting(s, now).rows; LogOk(t.run.nextEventSeq, t.events, true)
  {
    hide LogOk, FirstWith;
    var p := s.proposals[i];
    var r := p.request.value;
    var open := ApprovalExpiredEvent(p.intent.id, r.id, p.intent.revision, ExpiredByUser);
    var cancelled := ActionCancelledEvent(p.intent.id, r.id, CancelledByUser);
    var s1 := if r.status in {Pending, Approved} then Append(s, open) else s;
    AppendKeepsLog(s, open, false);
    AppendKeepsLog(s1, cancelled, false);
    AppendKeepsLog(Append(s1, cancelled), RunCancelledEvent(RunWaiting, UserRequested), false);
  }

  lemma CancelRunKeeps(s: Rows, authorized: bool, now: Time, recoveryMax: int)
    requires Inv(s, recoveryMax) && CancelsInOrder(s, now)
    ensures Inv(After(s, CancelRunByUser(s, authorized, now)), recoveryMax)
    ensures Unbroken(CancelRunByUser(s, authorized, now))
  {
    FirstExecutingIsNewest(s, {Proposed, Authorized}, recoveryMax);
    if s.run.status == RunWaiting { CancelWaitingKeeps(s, now, recoveryMax); }
    if s.run.status == RunQueued { AppendKeepsLog(s, RunCancelledEvent(RunQueued, UserRequested), false); }
  }
}
