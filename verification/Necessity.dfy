/** Why the driver's assumptions are needed: the exact conditions under which the store calls
    that they restrict keep the invariant, and what is lost otherwise. */
module Necessity {
  import opened Options
  import opened Rows
  import opened Actions
  import opened Approvals
  import opened ActionExecution
  import opened Jobs
  import opened Invariant
  import opened ExecutionProofs
  import opened JobProofs
  import opened Protocol
  import opened ActionProofs
  import opened Evolution
  import opened Fencing

  // ---- complete -------------------------------------------------------------

  /** `complete` does not look for a call in doubt: it keeps the invariant exactly unless the holder
      completes a run whose call is executing. */
  lemma CompletionForgetsDoubt(s: Rows, h: ClaimedJob, publishes: bool, now: Time, recoveryMax: int)
    requires Inv(s, recoveryMax)
    ensures Inv(After(s, Complete(s, h, publishes, now)), recoveryMax) <==>
              !(ActiveLease(s.job, h, now) && NewestIs(s.proposals, Executing))
    ensures ActiveLease(s.job, h, now) && s.run.status == RunRunning ==>
              var o := Complete(s, h, publishes, now); o.Committed? && Terminal(o.rows.run.status)
  {
    if NewestIs(s.proposals, Executing) {
      hide ProposalsOk, OutsideOk, LogOk, ResumeOk, LeaseOk, JobOk, RunOk, QueueOk, WaitOk, TerminalTime;
    } else {
      hide Inv;
      CompleteKeeps(s, h, publishes, now, recoveryMax);
      if ActiveLease(s.job, h, now) && s.run.status == RunRunning { CompletionEnds(s, h, publishes, now); }
    }
  }

  lemma CompletionEnds(s: Rows, h: ClaimedJob, publishes: bool, now: Time)
    requires ActiveLease(s.job, h, now) && s.run.status == RunRunning
    ensures var o := Complete(s, h, publishes, now); o.Committed? && Terminal(o.rows.run.status)
  {
    hide TerminalTime;
  }

  lemma RetryIsUnsound(s: Rows, h: ClaimedJob, category: Category, now: Time, delay: Time, recoveryMax: int)
    requires Inv(s, recoveryMax) && ActiveLease(s.job, h, now) && !MayRetry(s)
    ensures !Inv(After(s, Requeue(s, h, category, now, delay)), recoveryMax)
  {
    hide ProposalsOk, OutsideOk, LogOk, ResumeOk, RunOk, LeaseOk, ActionsOk, FirstWith, WaitOk, Progress;
  }

  /** `requeue` does not look at the attempts left: giving a job back keeps the invariant exactly if an
      attempt is left, or its call was attempted, or a cancellation ends the run anyway.  After a lost
      call it then strands the run (`Liveness.RetryStrands`). */
  lemma RequeueNeedsAttempts(s: Rows, h: ClaimedJob, category: Category, now: Time, delay: Time, recoveryMax: int)
    requires Inv(s, recoveryMax)
    ensures Inv(After(s, Requeue(s, h, category, now, delay)), recoveryMax) <==>
              (ActiveLease(s.job, h, now) ==> MayRetry(s))
  {
    hide Inv, Requeue, MayRetry, ActiveLease;
    if ActiveLease(s.job, h, now) ==> MayRetry(s) {
      RequeueStepKeeps(s, h, category, now, delay, recoveryMax);
    } else {
      RetryIsUnsound(s, h, category, now, delay, recoveryMax);
    }
  }

  /** A job that is given back without attempts left is never claimed again. */
  lemma ExhaustedJobWaitsForever(s: Rows, executable: set<int>, now: Time, recoveryMax: int)
    requires ProposalsOk(s.proposals, recoveryMax) && s.job.status == JobQueued && s.job.attempt == s.job.maxAttempts
    requires s.proposals == [] || Newest(s.proposals).intent.status !in ACTED
    ensures !Claimable(s, executable, recoveryMax, now)
  {
    forall i | 0 <= i < |s.proposals| ensures s.proposals[i].intent.status !in ACTED {
      assert i < |s.proposals| - 1 ==> Retired(s.proposals[i]);
    }
  }

  // ---- prepare_execution ----------------------------------------------------

  /** Preparing an execution checks the creator's membership before the run's status: it keeps the
      invariant exactly unless it names the open action of a waiting run whose creator was removed. */
  lemma PreparationMayEndTheWait(s: Rows, id: Identity, now: Time, recoveryMax: int)
    requires Inv(s, recoveryMax)
    ensures
      var b := LockBoundRows(s, id);
      Inv(After(s, PrepareExecution(s, id, now)), recoveryMax) <==>
        !(s.run.status == RunWaiting && !s.memberActive && b.Bound? && b.i == |s.proposals| - 1)
  {
    if s.run.status != RunWaiting || s.memberActive {
      hide Inv;
      PrepareExecutionKeeps(s, id, now, recoveryMax);
    } else {
      hide OutsideOk, LogOk, ResumeOk, LeaseOk, RunOk, QueueOk, FindIntent;
      var b := LockBoundRows(s, id);
      if b.Bound? && b.i < |s.proposals| - 1 { OldActionStays(s, id, now, recoveryMax); }
    }
  }

  lemma OldActionStays(s: Rows, id: Identity, now: Time, recoveryMax: int)
    requires Inv(s, recoveryMax) && !s.memberActive
    requires var b := LockBoundRows(s, id); b.Bound? && b.i < |s.proposals| - 1
    ensures After(s, PrepareExecution(s, id, now)) == s
  {
    hide OutsideOk, LogOk, ResumeOk, LeaseOk, RunOk, QueueOk, FindIntent;
    var b := LockBoundRows(s, id);
    assert Retired(s.proposals[b.i]) && ProposalOk(s.proposals[b.i], recoveryMax);
  }

  /** Otherwise the wake-up is lost: no decision, no sweep and no cancellation moves the run. */
  lemma EndedWaitIsLost(s: Rows, id: Identity, now: Time, c: Decide, i: nat, later: Time, recoveryMax: int)
    requires Inv(s, recoveryMax) && s.run.status == RunWaiting && s.job.status == JobDone && !s.memberActive
    requires var b := LockBoundRows(s, id); b.Bound? && b.i == |s.proposals| - 1
    ensures
      var t := After(s, PrepareExecution(s, id, now));
      && t.run.status == RunWaiting && t.job.status == JobDone
      && After(t, DecideApproval(t, c)) == t
      && (i < |t.proposals| ==> After(t, SweepRequest(t, i, later)) == t)
      && CancelRunByUser(t, true, later) == Raised(Broken(WaitingRunWithoutRequest))
  {
    hide OutsideOk, LogOk, ResumeOk, LeaseOk, RunOk, QueueOk, FindIntent;
    var t := After(s, PrepareExecution(s, id, now));
    forall k | 0 <= k < |t.proposals|
      ensures t.proposals[k].intent.status == Cancelled && t.proposals[k].request.Some?
      ensures t.proposals[k].request.value.status !in {Pending, Approved}
    {
      assert k < |s.proposals| - 1 ==> Retired(s.proposals[k]) && ProposalOk(s.proposals[k], recoveryMax);
    }
  }

  // ---- prepare_claimed_job --------------------------------------------------

  /** A worker that cannot execute the run's graph version ends the run: its preparation keeps the
      invariant exactly unless a call is in doubt and the run is not barred already. */
  lemma UnsupportedVersionForgetsDoubt(s: Rows, h: ClaimedJob, executable: set<int>, now: Time, recoveryMax: int)
    requires Inv(s, recoveryMax) && h in s.issued
    ensures
      var o := PrepareClaimedJob(s, h, executable, now);
      && o.Committed?
      && (Inv(o.rows, recoveryMax) <==>
            !(ActiveLease(s.job, h, now) && NewestIs(s.proposals, Executing) && !Barred(s)
              && s.run.graphVersion !in executable))
  {
    if NewestIs(s.proposals, Executing) && !Barred(s) && s.run.graphVersion !in executable {
      hide ProposalsOk, OutsideOk, LogOk, ResumeOk, LeaseOk, RunOk, QueueOk, WaitOk, FirstWith, ResumeFault,
        TerminalTime;
      FirstExecutingIsNewest(s, {Executing}, recoveryMax);
      FirstExecutingIsNewest(s, {Failed, OutcomeUnknown}, recoveryMax);
    } else {
      hide Inv, FirstWith;
      if NewestIs(s.proposals, Executing) { ExecutingIsLive(s, recoveryMax); }
      PrepareClaimedJobKeeps(s, h, executable, now, recoveryMax);
    }
  }

  lemma ExecutingIsLive(s: Rows, recoveryMax: int)
    requires Inv(s, recoveryMax) && NewestIs(s.proposals, Executing)
    ensures !Terminal(s.run.status)
  {
  }

  // ---- authorize_resend -----------------------------------------------------

  /** `authorize_resend` does not advance the recovery attempt it checks: a resend keeps the invariant,
      and with it the bound on attempts, exactly if every earlier attempt belongs to an earlier
      reconciliation. */
  lemma ResendBreaksTheBound(s: Rows, id: Identity, expected: int, now: Time, recoveryMax: int)
    requires Inv(s, recoveryMax)
    ensures
      var b, o := LockExecuting(s, id, false), AuthorizeResend(s, id, expected, now);
      Inv(After(s, o), recoveryMax) <==>
        !(o.Committed? && o.value.ResendAllowed? && s.proposals[b.i].invocation.value.attempt > expected)
  {
    if ResendFits(s, id, expected, now) {
      hide Inv, LockExecuting;
      AuthorizeResendKeeps(s, id, expected, now, recoveryMax);
    } else {
      hide OutsideOk, LogOk, ResumeOk, LeaseOk, RunOk, QueueOk, WaitOk, JobOk, Progress, LockBoundRows;
      var i := LockExecuting(s, id, false).i;
      assert !ProposalOk(AuthorizeResend(s, id, expected, now).rows.proposals[i], recoveryMax);
    }
  }

  // ---- wait_for_approval ----------------------------------------------------

  /** `wait_for_approval` accepts a resume pause on the request that the run was resumed with. */
  predicate ResumePause(s: Rows, h: ClaimedJob, request: RequestId, now: Time)
  {
    var found := FindRequest(s.proposals, request);
    && ActiveLease(s.job, h, now) && s.run.mode != Resume && s.run.status == RunRunning
    && s.job.resumeRequest == Some(request) && h.resumeRequest == Some(request)
    && found.Some? && s.proposals[found.value].request.value.status != Consumed
  }

  /** A pause keeps the invariant exactly unless it is such a resume pause. */
  lemma ResumePauseIsNotAWait(s: Rows, h: ClaimedJob, request: RequestId, now: Time, recoveryMax: int)
    requires Inv(s, recoveryMax)
    ensures Inv(After(s, WaitForApproval(s, h, request, now)), recoveryMax) <==> !ResumePause(s, h, request, now)
  {
    if ResumePause(s, h, request, now) {
      hide ProposalsOk, OutsideOk, LogOk, ResumeOk, LeaseOk, RunOk, QueueOk, JobOk, ActionsOk, FindRequest;
    } else {
      hide Inv, FindRequest, ActiveLease;
      if ActiveLease(s.job, h, now) && WaitForApproval(s, h, request, now).Committed? {
        WaitForApprovalKeeps(s, h, request, now, recoveryMax);
      }
    }
  }

  /** After one on the newest request the run sleeps on a request that was settled: no decision wakes it,
      and the sweep does exactly if the request is an approval that is due. */
  lemma ResumePauseSleeps(s: Rows, h: ClaimedJob, request: RequestId, now: Time, c: Decide, i: nat, later: Time,
                          recoveryMax: int)
    requires Inv(s, recoveryMax) && ResumePause(s, h, request, now) && i < |s.proposals|
    requires HasRequest(Newest(s.proposals), request)
    ensures
      var t := After(s, WaitForApproval(s, h, request, now));
      && t.run.status == RunWaiting && t.job.status == JobDone
      && After(t, DecideApproval(t, c)) == t
      && (After(t, SweepRequest(t, i, later)) != t <==>
            s.proposals[i].request.value.status == Approved && s.proposals[i].request.value.expiresAt <= later)
  {
    hide ProposalsOk, OutsideOk, LogOk, LeaseOk, RunOk, QueueOk, JobOk, ActionsOk, WaitOk, ResumeOk, FindIntent,
      FindRequest, OwnDecision;
    NothingIsPending(s, request, recoveryMax);
    var t := After(s, WaitForApproval(s, h, request, now));
    assert t.proposals == s.proposals;
  }

  lemma NothingIsPending(s: Rows, request: RequestId, recoveryMax: int)
    requires Inv(s, recoveryMax) && s.proposals != [] && HasRequest(Newest(s.proposals), request)
    requires s.job.resumeRequest == Some(request)
    ensures forall j :: 0 <= j < |s.proposals| ==>
              s.proposals[j].request.Some? && s.proposals[j].request.value.status != Pending
              && ExactBinding(s.proposals[j])
  {
    hide OutsideOk, LogOk, LeaseOk, RunOk, QueueOk, JobOk, ActionsOk, WaitOk, DecisionsOk, Linked, Recovery;
    forall j | 0 <= j < |s.proposals| - 1
      ensures s.proposals[j].request.Some? && s.proposals[j].request.value.status != Pending
    {
      RetiredIsSettled(s, j, recoveryMax);
    }
  }

  lemma RetiredIsSettled(s: Rows, j: nat, recoveryMax: int)
    requires Inv(s, recoveryMax) && j < |s.proposals| - 1
    ensures s.proposals[j].request.Some? && s.proposals[j].request.value.status in {Rejected, Expired}
  {
    assert Retired(s.proposals[j]) && ProposalOk(s.proposals[j], recoveryMax);
  }

  // ---- cancel_action, cancel_run --------------------------------------------

  /** Cancelling an action keeps the invariant exactly unless it is the action that a waiting run is
      about to resume with, its request rejected or expired as the caller says. */
  lemma CancellationMayEndTheWait(s: Rows, tenant: Tenant, id: IntentId, request: RequestId, rejected: bool,
                                  recoveryMax: int)
    requires Inv(s, recoveryMax)
    ensures Inv(After(s, CancelAction(s, tenant, id, request, rejected)), recoveryMax) <==>
              !(s.run.status == RunWaiting && CurrentTenant(s, tenant) && Newest(s.proposals).intent.id == id
                && HasRequest(Newest(s.proposals), request)
                && Newest(s.proposals).request.value.status == if rejected then Rejected else Expired)
  {
    if s.run.status == RunWaiting {
      hide OutsideOk, LogOk, ResumeOk, LeaseOk, RunOk, QueueOk, JobOk, ActionsOk, EventsAbout;
      FoundIsUnique(s.proposals, Newest(s.proposals).intent.id, |s.proposals| - 1);
    } else {
      hide Inv, CancelAction;
      CancelActionKeeps(s, tenant, id, request, rejected, recoveryMax);
    }
  }

  /** Then the user cannot cancel the run until a worker has resumed it. */
  lemma CancelledWaitCannotBeCancelled(s: Rows, tenant: Tenant, rejected: bool, authorized: bool, now: Time,
                                       recoveryMax: int)
    requires Inv(s, recoveryMax) && s.run.status == RunWaiting && CurrentTenant(s, tenant)
    requires Newest(s.proposals).request.value.status == if rejected then Rejected else Expired
    ensures
      var p := Newest(s.proposals);
      var t := After(s, CancelAction(s, tenant, p.intent.id, p.request.value.id, rejected));
      && t.run == s.run.(nextEventSeq := t.run.nextEventSeq) && t.job == s.job && NewestIs(t.proposals, Cancelled)
      && CancelRunByUser(t, authorized, now) ==
           Raised(if authorized then Broken(WaitingRunWithoutRequest) else NotFound)
  {
    hide OutsideOk, LogOk, ResumeOk, LeaseOk, RunOk, QueueOk, ActionsOk, EventsAbout, FindIntent;
    FoundIsUnique(s.proposals, Newest(s.proposals).intent.id, |s.proposals| - 1);
  }

  /** The user's cancellation keeps the invariant exactly unless it ends a waiting run at a time before
      the pending cancellation request. */
  lemma CancellationNeedsTheClock(s: Rows, authorized: bool, now: Time, recoveryMax: int)
    requires Inv(s, recoveryMax)
    ensures Inv(After(s, CancelRunByUser(s, authorized, now)), recoveryMax) <==> (authorized ==> CancelsInOrder(s, now))
  {
    hide Inv, CancelsInOrder, RunOk;
    if CancelsInOrder(s, now) {
      CancelRunKeeps(s, authorized, now, recoveryMax);
    } else {
      LateWaitIsWaiting(s, now);
      CancelTimeOrder(s, now, recoveryMax);
      InvHasTime(After(s, CancelRunByUser(s, authorized, now)), recoveryMax);
      Unauthorized(s, now);
    }
  }

  lemma LateWaitIsWaiting(s: Rows, now: Time)
    ensures !CancelsInOrder(s, now) ==> s.run.status == RunWaiting
  {
  }

  lemma InvHasTime(s: Rows, recoveryMax: int)
    ensures Inv(s, recoveryMax) ==> RunOk(s.run)
  {
  }

  lemma Unauthorized(s: Rows, now: Time)
    ensures After(s, CancelRunByUser(s, false, now)) == s
  {
  }

  /** The CHECK `time_order` of `tool_invocations`. */
  predicate InTimeOrder(v: Invocation)
  {
    v.startedAt.Some? && v.finishedAt.Some? ==> v.finishedAt.value >= v.startedAt.value
  }

  /** Confirmations write the caller's clock as it is: the database accepts them exactly if that
      clock has not run behind the start of the call. */
  lemma ConfirmationNeedsTheClock(s: Rows, id: Identity, category: Category, evidence: Evidence, now: Time,
                                  recoveryMax: int)
    requires Inv(s, recoveryMax) && LockExecuting(s, id, true).Bound?
    ensures
      var i := LockExecuting(s, id, true).i;
      var started := s.proposals[i].invocation.value.startedAt;
      var success, failure, unknown := ConfirmSuccess(s, id, now), ConfirmFailure(s, id, category, evidence, now),
                                       ConfirmOutcomeUnknown(s, id, evidence, now);
      && started.Some? && success.Committed? && failure.Committed? && unknown.Committed?
      && (InTimeOrder(success.rows.proposals[i].invocation.value) <==> now >= started.value)
      && (InTimeOrder(failure.rows.proposals[i].invocation.value) <==> now >= started.value)
      && (InTimeOrder(unknown.rows.proposals[i].invocation.value) <==> now >= started.value)
  {
    hide OutsideOk, LogOk, ResumeOk, LeaseOk, RunOk, QueueOk, WaitOk, JobOk, Progress, LockBoundRows;
    assert ProposalOk(s.proposals[LockExecuting(s, id, true).i], recoveryMax);
  }
}
