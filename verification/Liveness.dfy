/** Whether a live run can always go on: no wake-up is lost, and exactly how a run can be left behind
    for good. */
module Liveness {
  import opened Options
  import opened Rows
  import opened Actions
  import opened Approvals
  import opened ActionExecution
  import opened Jobs
  import opened Invariant
  import opened ExecutionProofs
  import opened JobProofs
  import opened ActionProofs
  import opened Protocol
  import opened Evolution
  import opened Fencing

  // ---- Waking up ------------------------------------------------------------

  /** The job will resume the waiting run with this settled request. */
  predicate Awake(s: Rows, request: RequestId, now: Time)
  {
    && s.run.status == RunWaiting && s.job.status == JobQueued && s.job.attempt == 0 && s.job.availableAt == now
    && s.job.lease == None && s.job.resumeRequest == Some(request)
    && s.proposals != [] && HasRequest(Newest(s.proposals), request)
    && Newest(s.proposals).request.value.status != Pending
  }

  /** No wake-up is lost: a run that sleeps waits for a request that is still open, any
      approver can decide it until it expires, and from then on the sweeper expires it; both
      queue the job with exactly that request. */
  lemma DormantRunWakes(s: Rows, c: Decide, now: Time, recoveryMax: int)
    requires Inv(s, recoveryMax) && s.run.status == RunWaiting && s.job.status == JobDone
    ensures NewestIs(s.proposals, Proposed) && Newest(s.proposals).request.Some?
    ensures
      var p := Newest(s.proposals);
      var r, n := p.request.value, |s.proposals| - 1;
      && r.status == Pending && p.decisions == []
      && (c.memberCurrent && c.mayReview && c.intent == p.intent.id && c.expectedVersion == r.version
          && c.now < r.expiresAt ==>
            var o := DecideApproval(s, c); o.Committed? && Awake(o.rows, r.id, c.now))
      && (now >= r.expiresAt ==>
            var o := SweepRequest(s, n, now);
            o.Committed? && o.value == ExpiredAndRequeued && Awake(o.rows, r.id, now))
  {
    hide OutsideOk, LogOk, ResumeOk, LeaseOk, RunOk, QueueOk, FindIntent;
    FoundIsUnique(s.proposals, Newest(s.proposals).intent.id, |s.proposals| - 1);
  }

  /** A waiting run with a job resumes on the request that was settled: whoever claims the
      job runs it, unless the run was barred meanwhile, and then it is cancelled. */
  lemma WokenRunResumes(s: Rows, executable: set<int>, worker: Actor, token: Token, now: Time, duration: Time,
                        recoveryMax: int)
    requires Inv(s, recoveryMax) && s.run.status == RunWaiting && s.job.status == JobQueued
    requires s.run.graphVersion in executable && s.job.availableAt <= now && FreshToken(s, token) && duration > 0
    ensures
      var c := Claim(s, executable, recoveryMax, worker, token, now, duration);
      && c.Committed? && c.value.Some?
      && var o := PrepareClaimedJob(c.rows, c.value.value, executable, now);
         && o.Committed?
         && (if Barred(s) then o.value == Finished && o.rows.run.status == RunCancelled && o.rows.job.status == JobDone
             else o.value == Execute && o.rows.run.status == RunRunning && o.rows.job == c.rows.job)
  {
    hide ProposalsOk, OutsideOk, LogOk, ResumeOk, LeaseOk, RunOk, FirstWith, ResumeFault;
    var c := Claim(s, executable, recoveryMax, worker, token, now, duration);
    ClaimKeeps(s, executable, worker, token, now, duration, recoveryMax);
    var t, h := c.rows, c.value.value;
    PrepareClaimedJobKeeps(t, h, executable, now, recoveryMax);
    FirstExecutingIsNewest(t, {Executing}, recoveryMax);
    FirstExecutingIsNewest(t, {Failed, OutcomeUnknown}, recoveryMax);
  }

  // ---- Runs that are left behind --------------------------------------------

  /** The newest call failed or its outcome is unknown. */
  predicate CallLost(ps: seq<Proposal>) { NewestIs(ps, Failed) || NewestIs(ps, OutcomeUnknown) }

  /** A live run whose call ended badly after its job had used up its attempts. */
  predicate Stranded(s: Rows)
  {
    && s.job.status == JobQueued && s.job.attempt == s.job.maxAttempts && s.run.status == RunRunning
    && CallLost(s.proposals)
  }

  /** A queued job of a live run can be claimed when it is due, exactly unless it is stranded. */
  lemma ClaimableUnlessStranded(s: Rows, executable: set<int>, now: Time, recoveryMax: int)
    requires Inv(s, recoveryMax) && recoveryMax > 0 && s.job.status == JobQueued
    requires s.job.availableAt <= now && s.run.graphVersion in executable
    ensures Claimable(s, executable, recoveryMax, now) <==> !Stranded(s)
  {
    hide OutsideOk, LogOk, ResumeOk, LeaseOk, RunOk;
    FirstExecutingIsNewest(s, {Succeeded}, recoveryMax);
    if NewestIs(s.proposals, Executing) {
      var n := |s.proposals| - 1;
      assert ProposalOk(s.proposals[n], recoveryMax);
      assert s.proposals[n].intent.recoveryAttempts <= recoveryMax;
    } else {
      forall i | 0 <= i < |s.proposals| ensures s.proposals[i].intent.status != Executing {
        assert i < |s.proposals| - 1 ==> Retired(s.proposals[i]);
      }
    }
  }

  /** Every live run that is not stranded has a way on: a claim, a reclaim of its lease, or
      the decision or expiry of its open request. */
  lemma LiveRunsGoOn(s: Rows, executable: set<int>, now: Time, recoveryMax: int)
    requires Inv(s, recoveryMax) && recoveryMax > 0 && !Terminal(s.run.status) && !Stranded(s)
    requires s.run.graphVersion in executable
    ensures
      || (s.job.status == JobQueued && (s.job.availableAt <= now ==> Claimable(s, executable, recoveryMax, now)))
      || (s.job.status == JobLeased && s.job.lease.Some? && (s.job.lease.value.expiresAt <= now ==>
            Stale(s, executable, now) && ReclaimOne(s, recoveryMax, now, 0).Committed?
            && ReclaimOne(s, recoveryMax, now, 0).rows.job.status != JobLeased))
      || (s.run.status == RunWaiting && s.job.status == JobDone && NewestIs(s.proposals, Proposed)
          && Newest(s.proposals).request.Some? && Newest(s.proposals).request.value.status == Pending)
  {
    hide ProposalsOk, OutsideOk, LogOk, ResumeOk, LeaseOk, RunOk, QueueOk, ActionsOk, Claimable, ReclaimOne;
    if s.job.status == JobQueued && s.job.availableAt <= now {
      ClaimableUnlessStranded(s, executable, now, recoveryMax);
    }
    if Stale(s, executable, now) { ReclaimOneKeeps(s, executable, now, 0, recoveryMax); }
  }

  // ---- How a run gets there -------------------------------------------------

  /** The step records a failure or an unknown outcome: a confirmation, a reconciliation that is
      exhausted, or a resend that is refused because the run is barred. */
  predicate RecordsLoss(s: Rows, step: Step, recoveryMax: int)
  {
    match step
    case DoConfirmFailure(id, _, _, _) => LockExecuting(s, id, false).Bound?
    case DoConfirmUnknown(id, _, _) => LockExecuting(s, id, false).Bound?
    case DoReconcile(id, _) =>
      var b := LockExecuting(s, id, true);
      b.Bound? && s.proposals[b.i].intent.recoveryAttempts >= recoveryMax
    case DoResend(id, expected, _) =>
      var b := LockExecuting(s, id, false);
      b.Bound? && s.proposals[b.i].intent.recoveryAttempts == expected && Barred(s)
    case _ => false
  }

  /** The holder gives the job of a lost call back for a retry, and no cancellation ends the run. */
  predicate RetriesLostCall(s: Rows, step: Step)
  {
    step.DoRequeue? && ActiveLease(s.job, step.h, step.now) && CallLost(s.proposals) && s.run.cancelRequestedAt.None?
  }

  lemma LossWhileQueued(s: Rows, step: Step, recoveryMax: int)
    requires Inv(s, recoveryMax) && !Stranded(s)
    requires step.DoReconcile? || step.DoResend? || step.DoConfirmFailure? || step.DoConfirmUnknown?
    ensures Stranded(Next(s, step, recoveryMax)) <==>
              s.job.status == JobQueued && s.job.attempt == s.job.maxAttempts && RecordsLoss(s, step, recoveryMax)
  {
    hide ProposalsOk, OutsideOk, LogOk, ResumeOk, LeaseOk, RunOk, QueueOk, WaitOk, JobOk, LockBoundRows, PrepareAction,
      SupersedeAction, CancelAction, PrepareClaimedJob, Heartbeat, Complete, WaitForApproval, Requeue, FailJob,
      CancelJob, Release, ReclaimOne, CancelRunByUser, Claim, PrepareExecution, BeginSend, DecideApproval, SweepRequest;
    var b := match step
      case DoReconcile(id, _) => LockExecuting(s, id, true)
      case DoResend(id, _, _) => LockExecuting(s, id, false)
      case DoConfirmFailure(id, _, _, _) => LockExecuting(s, id, false)
      case DoConfirmUnknown(id, _, _) => LockExecuting(s, id, false)
      case _ => Unbound(NotFound);
    if b.Bound? { ActedIsLinked(s, b.i, recoveryMax); }
  }

  lemma RetryStrands(s: Rows, h: ClaimedJob, category: Category, now: Time, delay: Time, recoveryMax: int)
    requires Inv(s, recoveryMax) && ActiveLease(s.job, h, now) && s.job.status == JobLeased
    ensures Stranded(After(s, Requeue(s, h, category, now, delay))) <==>
              s.job.attempt == s.job.maxAttempts && CallLost(s.proposals) && s.run.cancelRequestedAt.None?
    ensures !Stranded(After(s, Release(s, h, category, now, delay)))
  {
    hide Inv, ActiveLease, FirstWith, MarkRunCancelled;
    var done := LeaveJob(s.job, JobDone, None).(availableAt := now + delay);
    if CallLost(s.proposals) { LostIsRunning(s, recoveryMax); }
    EndingLeavesJob(s.(job := done), CancelRun(UserRequested), now);
    FirstExecutingIsNewest(s, {Executing}, recoveryMax);
  }

  lemma LostIsRunning(s: Rows, recoveryMax: int)
    requires Inv(s, recoveryMax) && s.job.status == JobLeased && CallLost(s.proposals)
    ensures s.run.status == RunRunning
  {
  }

  /** The two ways to give up a lease on an attempted call: neither queues a job whose call is lost. */
  lemma SettlingStrandsNothing(s: Rows, i: nat, now: Time, delay: Time, recoveryMax: int)
    requires i == |s.proposals| - 1 && s.job.status == JobLeased
    ensures !Stranded(After(s, Converge(s, i, now)))
    ensures Converge(s, i, now).Committed? ==> !Stranded(Converge(s, i, now).rows)
    ensures
      s.proposals[i].intent.status == Executing ==>
        var o := GiveUpInDoubt(s, i, recoveryMax, now, delay);
        !Stranded(After(s, o)) && (o.Committed? ==> !Stranded(o.rows))
  {
    hide TerminalTime, ConvergedVerdict;
  }

  lemma FailingStrandsNothing(s: Rows, h: ClaimedJob, category: Category, now: Time, delay: Time, recoveryMax: int)
    requires Inv(s, recoveryMax) && s.job.status == JobLeased
    ensures !Stranded(After(s, FailJob(s, h, category, recoveryMax, now, delay)))
  {
    hide Inv, FirstWith, TerminalTime, Converge, GiveUpInDoubt;
    LeasedIsLive(s, recoveryMax);
    FirstExecutingIsNewest(s, ACTED, recoveryMax);
    if s.proposals != [] { SettlingStrandsNothing(s, |s.proposals| - 1, now, delay, recoveryMax); }
  }

  lemma CancellingStrandsNothing(s: Rows, h: ClaimedJob, reason: Category, now: Time, delay: Time, recoveryMax: int)
    requires Inv(s, recoveryMax) && s.job.status == JobLeased
    ensures !Stranded(After(s, CancelJob(s, h, reason, now, delay)))
  {
    hide Inv, FirstWith, TerminalTime, Converge;
    LeasedIsLive(s, recoveryMax);
    FirstExecutingIsNewest(s, {Executing, Failed, OutcomeUnknown}, recoveryMax);
    if s.proposals != [] { SettlingStrandsNothing(s, |s.proposals| - 1, now, delay, recoveryMax); }
  }

  lemma ReclaimStrandsNothing(s: Rows, now: Time, delay: Time, recoveryMax: int)
    requires Inv(s, recoveryMax) && s.job.status == JobLeased
    ensures !Stranded(After(s, ReclaimOne(s, recoveryMax, now, delay)))
  {
    hide Inv, FirstWith, FindRequest, TerminalTime, Converge, GiveUpInDoubt;
    LeasedIsLive(s, recoveryMax);
    FirstExecutingIsNewest(s, ACTED, recoveryMax);
    if s.proposals != [] {
      SettlingStrandsNothing(s, |s.proposals| - 1, now, delay, recoveryMax);
      SettlingStrandsNothing(Append(s, JobLeaseExpired(s.job.attempt)), |s.proposals| - 1, now, delay, recoveryMax);
    }
  }

  /** The job was queued before, and nothing that strands a run has changed. */
  predicate QueuedAsBefore(s: Rows, t: Rows)
  {
    t.job.status == JobQueued ==> t.job == s.job && t.run.status == s.run.status && t.proposals == s.proposals
  }

  /** Claiming, preparing, completing, pausing and cancelling never queue a job. */
  lemma HoldingQueuesNothing(s: Rows, h: ClaimedJob, executable: set<int>, publishes: bool, request: RequestId,
                             now: Time, span: Time)
    ensures QueuedAsBefore(s, After(s, Heartbeat(s, h, now, span)))
    ensures QueuedAsBefore(s, After(s, Complete(s, h, publishes, now)))
    ensures QueuedAsBefore(s, After(s, WaitForApproval(s, h, request, now)))
    ensures QueuedAsBefore(s, After(s, PrepareClaimedJob(s, h, executable, now)))
  {
    hide FirstWith, FindRequest, TerminalTime, ConvergedVerdict, ResumeFault;
  }

  lemma EdgesQueueNothing(s: Rows, executable: set<int>, recoveryMax: int, worker: Actor, token: Token, now: Time,
                          duration: Time, authorized: bool)
    ensures QueuedAsBefore(s, After(s, Claim(s, executable, recoveryMax, worker, token, now, duration)))
    ensures QueuedAsBefore(s, After(s, CancelRunByUser(s, authorized, now)))
  {
    hide FirstWith, SomeRecoverable;
  }

  lemma AsBeforeStrandsNothing(s: Rows, t: Rows)
    ensures QueuedAsBefore(s, t) && !Stranded(s) ==> !Stranded(t)
  {
  }

  lemma WorkersStrand(s: Rows, step: Step, recoveryMax: int)
    requires Inv(s, recoveryMax) && !Stranded(s) && IsWorkerStep(step)
    ensures Stranded(Next(s, step, recoveryMax)) <==> s.job.attempt == s.job.maxAttempts && RetriesLostCall(s, step)
  {
    hide Inv, FailJob, CancelJob, ReclaimOne, Requeue, Release, Heartbeat, Complete, WaitForApproval, PrepareClaimedJob,
      Claim, CancelRunByUser, CallLost, PrepareAction, SupersedeAction, CancelAction, PrepareExecution, BeginSend,
      BeginReconciliation, AuthorizeResend, ConfirmSuccess, ConfirmFailure, ConfirmOutcomeUnknown, PutIfAbsent,
      DecideApproval, SweepRequest, Stranded, QueuedAsBefore;
    if IsHandleStep(step) && !HoldsLease(s, step) {
      hide Next;
      StaleHandleChangesNothing(s, step, recoveryMax);
    } else {
      match step {
        case DoClaim(x, worker, token, now, d) => EdgesQueueNothing(s, x, recoveryMax, worker, token, now, d, false);
        case DoCancelRun(authorized, now) => EdgesQueueNothing(s, {}, recoveryMax, 0, 0, now, 0, authorized);
        case DoPrepareJob(h, x, now) => HoldingQueuesNothing(s, h, x, false, 0, now, 0);
        case DoHeartbeat(h, now, d) => HoldingQueuesNothing(s, h, {}, false, 0, now, d);
        case DoComplete(h, publishes, now) => HoldingQueuesNothing(s, h, {}, publishes, 0, now, 0);
        case DoWait(h, r, now) => HoldingQueuesNothing(s, h, {}, false, r, now, 0);
        case DoRequeue(h, c, now, delay) => RetryStrands(s, h, c, now, delay, recoveryMax);
        case DoRelease(h, c, now, delay) => RetryStrands(s, h, c, now, delay, recoveryMax);
        case DoFail(h, c, now, delay) => FailingStrandsNothing(s, h, c, now, delay, recoveryMax);
        case DoCancelJob(h, c, now, delay) => CancellingStrandsNothing(s, h, c, now, delay, recoveryMax);
        case DoReclaim(_, now, delay) =>
          if s.job.status == JobLeased { ReclaimStrandsNothing(s, now, delay, recoveryMax); }
      }
      AsBeforeStrandsNothing(s, Next(s, step, recoveryMax));
    }
  }

  lemma InsertLosesNothing(s: Rows, c: Propose, allowCreate: bool)
    ensures CallLost(After(s, InsertProposal(s, c, allowCreate)).proposals) ==> CallLost(s.proposals)
  {
    hide FindIntent, FindRevision, EventsAbout;
  }

  lemma ActionsLoseNothing(s: Rows, step: Step, recoveryMax: int)
    requires step.DoPrepareAction? || step.DoSupersede? || step.DoCancelAction?
    ensures CallLost(Next(s, step, recoveryMax).proposals) ==> CallLost(s.proposals)
  {
    hide FindIntent, EventsAbout, InsertProposal;
    match step
    case DoPrepareAction(c) => InsertLosesNothing(s, c, true);
    case DoSupersede(old_, c) =>
      InsertLosesNothing(s, c, false);
      var found := FindIntent(s.proposals, old_);
      if found.Some? && s.proposals[found.value].request.Some? {
        InsertLosesNothing(Retire(s, found.value), c, true);
      }
    case DoCancelAction(_, _, _, _) =>
  }

  lemma OthersStrandNothing(s: Rows, step: Step, recoveryMax: int)
    requires !Stranded(s) && !IsWorkerStep(step)
    requires !step.DoReconcile? && !step.DoResend? && !step.DoConfirmFailure? && !step.DoConfirmUnknown?
    ensures !Stranded(Next(s, step, recoveryMax))
  {
    if s.run.status == RunWaiting && (step.DoDecide? || step.DoSweep?) {
      hide FindIntent, OwnDecision;
    } else {
      hide Next, CallLost, NewestIs, Perform;
      OthersLeaveJob(s, step, recoveryMax);
      if step.DoPrepareAction? || step.DoSupersede? || step.DoCancelAction? {
        ActionsLoseNothing(s, step, recoveryMax);
      } else {
        RestLosesNothing(s, step, recoveryMax);
      }
    }
  }

  lemma RestLosesNothing(s: Rows, step: Step, recoveryMax: int)
    requires !IsWorkerStep(step) && !step.DoPrepareAction? && !step.DoSupersede? && !step.DoCancelAction?
    requires !step.DoReconcile? && !step.DoResend? && !step.DoConfirmFailure? && !step.DoConfirmUnknown?
    ensures CallLost(Next(s, step, recoveryMax).proposals) ==> CallLost(s.proposals)
  {
    hide LockBoundRows, LockExecuting, FindIntent, ApproveCount, OwnDecision, PutIfAbsent, PrepareAction,
      SupersedeAction, CancelAction, PrepareClaimedJob, Heartbeat, Complete, WaitForApproval, Requeue, FailJob,
      CancelJob, Release, ReclaimOne, CancelRunByUser, Claim, AuthorizeResend, ConfirmFailure, ConfirmOutcomeUnknown,
      BeginReconciliation;
  }

  /** Exactly which steps strand a run: its attempts are used up, and either the loss of its call is
      recorded while its job is queued, or its holder asks for a retry after the loss. */
  lemma StrandingSteps(s: Rows, step: Step, recoveryMax: int)
    requires Inv(s, recoveryMax) && !Stranded(s)
    ensures Stranded(Next(s, step, recoveryMax)) <==>
              && s.job.attempt == s.job.maxAttempts
              && ((s.job.status == JobQueued && RecordsLoss(s, step, recoveryMax)) || RetriesLostCall(s, step))
  {
    hide Inv, Next, Stranded, LockExecuting;
    if step.DoReconcile? || step.DoResend? || step.DoConfirmFailure? || step.DoConfirmUnknown? {
      LossWhileQueued(s, step, recoveryMax);
    } else if IsWorkerStep(step) {
      WorkersStrand(s, step, recoveryMax);
    } else {
      OthersStrandNothing(s, step, recoveryMax);
    }
  }

  /** A job that is neither leased nor due leaves the workers nothing to do. */
  lemma IdleWorkersWait(s: Rows, step: Step, recoveryMax: int)
    requires s.job.status == JobQueued && s.run.status == RunRunning && IsWorkerStep(step)
    requires forall executable, now :: !Claimable(s, executable, recoveryMax, now)
    ensures SameJob(s, Next(s, step, recoveryMax))
  {
    hide Claimable, PrepareClaimedJob, Heartbeat, Complete, WaitForApproval, Requeue, FailJob, CancelJob, Release,
      ReclaimOne, FirstWith;
    if IsHandleStep(step) { StaleHandleChangesNothing(s, step, recoveryMax); }
  }

  lemma StrandedIsUnclaimable(s: Rows, recoveryMax: int)
    requires Inv(s, recoveryMax) && Stranded(s)
    ensures forall executable, now :: !Claimable(s, executable, recoveryMax, now)
  {
    hide OutsideOk, LogOk, ResumeOk, LeaseOk, RunOk, ProposalOk;
    FirstExecutingIsNewest(s, {Succeeded}, recoveryMax);
    FirstExecutingIsNewest(s, {Executing}, recoveryMax);
  }

  /** A stranded run stays stranded, whatever anybody does next. */
  lemma StrandedStays(s: Rows, step: Step, recoveryMax: int)
    requires Inv(s, recoveryMax) && Stranded(s) && Driven(s, step) && 0 <= recoveryMax
    ensures Stranded(Next(s, step, recoveryMax))
  {
    hide Inv, Next, Driven, Claimable, RunEvolves;
    var t := Next(s, step, recoveryMax);
    StepKeeps(s, step, recoveryMax);
    StepIsLater(s, step, recoveryMax);
    StrandedIsUnclaimable(s, recoveryMax);
    if IsWorkerStep(step) { IdleWorkersWait(s, step, recoveryMax); } else { OthersLeaveJob(s, step, recoveryMax); }
    SettledStays(s, t, recoveryMax);
  }

  lemma SettledStays(s: Rows, t: Rows, recoveryMax: int)
    requires Inv(t, recoveryMax) && Later(s, t) && s.proposals != []
    requires Newest(s.proposals).intent.status in {Failed, OutcomeUnknown}
    ensures NewestIs(t.proposals, Newest(s.proposals).intent.status)
  {
    hide OutsideOk, LogOk, ResumeOk, LeaseOk, RunOk, ProposalOk, RunEvolves;
    var n := |s.proposals| - 1;
    assert Evolves(s.proposals[n], t.proposals[n]);
  }

  /** So it never ends, in any continuation. */
  lemma {:induction false} StrandedForever(states: seq<Rows>, steps: seq<Step>, recoveryMax: int, m: nat, n: nat)
    requires Trace(states, steps, recoveryMax) && m <= n < |states| && Stranded(states[m])
    ensures Stranded(states[n]) && !Terminal(states[n].run.status)
    decreases n - m
  {
    hide Inv, Driven, Next, Initial;
    if m < n {
      StrandedForever(states, steps, recoveryMax, m, n - 1);
      TraceIsGood(states, steps, recoveryMax, n - 1);
      assert Driven(states[n - 1], steps[n - 1]) && states[n - 1 + 1] == Next(states[n - 1], steps[n - 1], recoveryMax);
      StrandedStays(states[n - 1], steps[n - 1], recoveryMax);
    }
  }

  /** The step leaves the run behind: the loss of its call is recorded while its job, whose attempts
      are used up, is queued for the recovery. */
  predicate LeavesBehind(s: Rows, step: Step, recoveryMax: int)
  {
    s.job.attempt == s.job.maxAttempts && s.job.status == JobQueued && RecordsLoss(s, step, recoveryMax)
  }

  /** In every run, this is the only way: the runner's own retries never strand a run. */
  lemma {:induction false} StrandedExactly(states: seq<Rows>, steps: seq<Step>, recoveryMax: int, n: nat)
    requires Trace(states, steps, recoveryMax) && n < |states|
    ensures Stranded(states[n]) <==> exists k :: 0 <= k < n && LeavesBehind(states[k], steps[k], recoveryMax)
  {
    hide Inv, Driven, Next, Stranded, LeavesBehind;
    if n == 0 {
      InitialIsNotStranded(states[0]);
    } else {
      var s, step := states[n - 1], steps[n - 1];
      StrandedExactly(states, steps, recoveryMax, n - 1);
      TraceIsGood(states, steps, recoveryMax, n - 1);
      assert Driven(s, step) && states[n - 1 + 1] == Next(s, step, recoveryMax);
      if Stranded(s) {
        StrandedStays(s, step, recoveryMax);
      } else {
        DrivenStepStrands(s, step, recoveryMax);
      }
    }
  }

  lemma InitialIsNotStranded(s: Rows)
    requires Initial(s)
    ensures !Stranded(s)
  {
  }

  lemma DrivenStepStrands(s: Rows, step: Step, recoveryMax: int)
    requires Inv(s, recoveryMax) && !Stranded(s) && Driven(s, step)
    ensures Stranded(Next(s, step, recoveryMax)) <==> LeavesBehind(s, step, recoveryMax)
  {
    hide Inv, Next, Stranded, RecordsLoss, CallLost, ActiveLease;
    StrandingSteps(s, step, recoveryMax);
    if step.DoRequeue? { RetryHasAttempts(s, step.h, step.now, recoveryMax); }
  }
}
