/** Safety over whole runs: which consistency errors can occur at all, what reaches the
    portal, and what becomes of a call whose outcome is in doubt. */
module Safety {
  import opened Options
  import opened Rows
  import opened Actions
  import opened Approvals
  import opened ActionExecution
  import opened Jobs
  import opened Invariant
  import opened ExecutionProofs
  import opened JobProofs
  import opened ActionProofs
  import opened Protocol
  import opened Evolution
  import opened Replays

  // ---- Consistency errors ---------------------------------------------------

  /** The only guards that a driven step can still find violated. */
  const LIVE_GUARDS: set<Guard> := {
    RevokedActionMayBeSent, CancelledEventInconsistent, ProposalFactsConflict, ProposalIdentityConflict,
    PauseIdentityInvalid
  }

  ghost predicate OnlyLive(o: Outcome<()>) { o.Raised? && o.fault.Broken? ==> o.fault.guard in LIVE_GUARDS }

  /** A pause by the worker that executes the run, on a pending request, is refused exactly
      when the job already carries a resume identity: a run pauses at most once. */
  lemma PauseGuards(s: Rows, h: ClaimedJob, request: RequestId, now: Time, recoveryMax: int)
    requires Inv(s, recoveryMax) && h in s.issued && s.executing == Some(h.token) && ActiveLease(s.job, h, now)
    requires PausesOnPending(s, request) && FindRequest(s.proposals, request).Some?
    ensures
      var o := WaitForApproval(s, h, request, now);
      if s.job.resumeRequest.Some? then o == Raised(Broken(PauseIdentityInvalid))
      else o.Committed? && o.rows.run.status == RunWaiting && o.rows.job.status == JobDone
  {
    hide FindRequest, OutsideOk, LogOk, ResumeOk;
    GenuineHolder(s, h, now, recoveryMax);
    PauseIsFirst(s, request, recoveryMax);
  }

  lemma PrepareActionFaults(s: Rows, c: Propose, recoveryMax: int)
    requires Inv(s, recoveryMax) && TopicsOk(s.proposals, s.events)
    ensures OnlyLive(Plain(PrepareAction(s, c)))
  {
    hide Inv, TopicsOk, InsertProposal;
    InsertFaults(s, c, true, recoveryMax);
  }

  lemma WorkerStepIsSound(s: Rows, step: Step, recoveryMax: int)
    requires Inv(s, recoveryMax) && Driven(s, step) && IsWorkerStep(step)
    ensures OnlyLive(Perform(s, step, recoveryMax))
  {
    hide Inv, Claim, PrepareClaimedJob, Heartbeat, Complete, WaitForApproval, Requeue, FailJob, CancelJob, Release,
      ReclaimOne, CancelRunByUser, FreshToken, PausesOnPending, CancelsInOrder, NewestIs,
      FindRequest, Stale, ActiveLease;
    match step
    case DoClaim(x, w, token, now, d) => ClaimsAnswer(s, x, recoveryMax, w, token, now, d);
    case DoPrepareJob(h, x, now) => PrepareClaimedJobKeeps(s, h, x, now, recoveryMax);
    case DoHeartbeat(h, now, d) => HeartbeatAnswers(s, h, now, d);
    case DoComplete(h, publishes, now) => ExecutorCompletes(s, h, publishes, now, recoveryMax);
    case DoWait(h, r, now) =>
      if ActiveLease(s.job, h, now) { PauseGuards(s, h, r, now, recoveryMax); } else { StaleWaits(s, h, r, now); }
    case DoRequeue(h, c, now, delay) => RequeuesAnswer(s, h, c, now, delay);
    case DoFail(h, c, now, delay) => FailJobKeeps(s, h, c, now, delay, recoveryMax);
    case DoCancelJob(h, c, now, delay) => CancelJobKeeps(s, h, c, now, delay, recoveryMax);
    case DoRelease(h, c, now, delay) => RequeuesAnswer(s, h, c, now, delay);
    case DoReclaim(x, now, delay) => if Stale(s, x, now) { ReclaimOneKeeps(s, x, now, delay, recoveryMax); }
    case DoCancelRun(authorized, now) => CancelRunKeeps(s, authorized, now, recoveryMax);
  }

  lemma ClaimsAnswer(s: Rows, executable: set<int>, recoveryMax: int, worker: Actor, token: Token, now: Time,
                     duration: Time)
    ensures Claim(s, executable, recoveryMax, worker, token, now, duration).Committed?
  {
  }

  lemma HeartbeatAnswers(s: Rows, h: ClaimedJob, now: Time, duration: Time)
    ensures Heartbeat(s, h, now, duration).Committed?
  {
  }

  lemma StaleWaits(s: Rows, h: ClaimedJob, request: RequestId, now: Time)
    requires !ActiveLease(s.job, h, now)
    ensures WaitForApproval(s, h, request, now).Committed?
  {
  }

  lemma RequeuesAnswer(s: Rows, h: ClaimedJob, category: Category, now: Time, delay: Time)
    ensures Requeue(s, h, category, now, delay).Committed? && Release(s, h, category, now, delay).Committed?
  {
  }

  /** In every reachable state, whatever step comes next, all consistency errors but the
      five live ones are unreachable. */
  lemma GuardsAreDead(s: Rows, step: Step, recoveryMax: int)
    requires Inv(s, recoveryMax) && TopicsOk(s.proposals, s.events) && Driven(s, step)
    ensures OnlyLive(Perform(s, step, recoveryMax))
  {
    hide Inv, TopicsOk, PrepareAction, SupersedeAction, CancelAction, DecideApproval, SweepRequest, PrepareExecution,
      BeginSend, BeginReconciliation, AuthorizeResend, ConfirmSuccess, ConfirmFailure, ConfirmOutcomeUnknown,
      ResolveResume, PutIfAbsent, FreshRequest, ResendsOnce, FindIntent;
    if IsWorkerStep(step) {
      WorkerStepIsSound(s, step, recoveryMax);
    } else {
      match step
      case DoPrepareAction(c) => PrepareActionFaults(s, c, recoveryMax);
      case DoSupersede(old_, c) => SupersedeActionGuards(s, old_, c, recoveryMax);
      case DoCancelAction(t, i, r, rejected) => CancelActionGuards(s, t, i, r, rejected, recoveryMax);
      case DoDecide(c) => ApprovalGuards(s, c, true, c.intent, 0, recoveryMax);
      case DoSweep(i, now) => if i < |s.proposals| { SweepRequestKeeps(s, i, now, recoveryMax); }
      case DoPrepareExecution(id, now) => PrepareExecutionGuards(s, id, now, recoveryMax);
      case DoBeginSend(id, now) => ExecutionGuards(s, id, 0, UserRequested, EXHAUSTED, now, recoveryMax);
      case DoReconcile(id, now) => ExecutionGuards(s, id, 0, UserRequested, EXHAUSTED, now, recoveryMax);
      case DoResend(id, expected, now) => ExecutionGuards(s, id, expected, UserRequested, EXHAUSTED, now, recoveryMax);
      case DoConfirmSuccess(id, now) => ExecutionGuards(s, id, 0, UserRequested, EXHAUSTED, now, recoveryMax);
      case DoConfirmFailure(id, c, e, now) => ExecutionGuards(s, id, 0, c, e, now, recoveryMax);
      case DoConfirmUnknown(id, e, now) => ExecutionGuards(s, id, 0, UserRequested, e, now, recoveryMax);
      case _ =>
    }
  }

  lemma TraceGuardsAreDead(states: seq<Rows>, steps: seq<Step>, recoveryMax: int, n: nat)
    requires Trace(states, steps, recoveryMax) && n < |steps|
    ensures OnlyLive(Perform(states[n], steps[n], recoveryMax))
  {
    hide Inv, Next, Perform, Initial, OnlyLive, TopicsOk;
    TraceIsGood(states, steps, recoveryMax, n);
    TraceKeepsTopics(states, steps, recoveryMax, n);
    assert Driven(states[n], steps[n]);
    GuardsAreDead(states[n], steps[n], recoveryMax);
  }

  // ---- The external effect --------------------------------------------------

  /** What a human approved: one decision, before the deadline, consumed before it, for
      exactly this payload. */
  predicate ApprovedCall(p: Proposal, args: Args, recoveryMax: int)
  {
    && p.intent.args == args && ExactBinding(p) && p.request.value.binding.args == args
    && p.request.value.status == Consumed && p.request.value.consumedAt.Some?
    && p.request.value.consumedAt.value < p.request.value.expiresAt
    && |p.decisions| == 1 && p.decisions[0].verdict == Approve && p.decisions[0].decidedAt < p.request.value.expiresAt
    && p.invocation.Some? && p.invocation.value.args == args && 1 <= p.invocation.value.attempt <= 1 + recoveryMax
  }

  lemma AuthorizedIsApproved(s: Rows, key: IntentId, args: Args, attempt: int, recoveryMax: int)
    requires Inv(s, recoveryMax) && Authorizes(s.proposals, key, args, attempt)
    ensures s.proposals != [] && key == Newest(s.proposals).intent.id
    ensures ApprovedCall(Newest(s.proposals), args, recoveryMax) && attempt <= 1 + recoveryMax
  {
    hide OutsideOk, LogOk, ResumeOk, LeaseOk, JobOk, Progress, RunOk, QueueOk, WaitOk;
    assert ProposalOk(Newest(s.proposals), recoveryMax);
  }

  lemma SubmissionWasApproved(s: Rows, recoveryMax: int)
    requires Inv(s, recoveryMax)
    ensures
      && |s.portal| <= 1
      && (s.portal != [] ==>
            s.proposals != [] && s.portal[0].key == Newest(s.proposals).intent.id
            && ApprovedCall(Newest(s.proposals), s.portal[0].args, recoveryMax))
      && forall m :: m in s.wire ==>
           s.proposals != [] && m.key == Newest(s.proposals).intent.id
           && ApprovedCall(Newest(s.proposals), m.args, recoveryMax) && m.attempt <= 1 + recoveryMax
  {
    hide ProposalsOk, LogOk, ResumeOk, LeaseOk, JobOk, Progress, RunOk, QueueOk, WaitOk, ApprovedCall, Authorizes;
    if s.portal != [] { AuthorizedIsApproved(s, s.portal[0].key, s.portal[0].args, 1, recoveryMax); }
    forall m | m in s.wire
      ensures
        s.proposals != [] && m.key == Newest(s.proposals).intent.id
        && ApprovedCall(Newest(s.proposals), m.args, recoveryMax) && m.attempt <= 1 + recoveryMax
    {
      AuthorizedIsApproved(s, m.key, m.args, m.attempt, recoveryMax);
    }
  }

  /** Over every interleaving: at most one submission, and it, like every call still in
      flight, carries the payload that was approved for its intent. */
  lemma AtMostOneEffect(states: seq<Rows>, steps: seq<Step>, recoveryMax: int, n: nat)
    requires Trace(states, steps, recoveryMax) && n < |states|
    ensures
      var s := states[n];
      && |s.portal| <= 1
      && (s.portal != [] ==>
            s.proposals != [] && s.portal[0].key == Newest(s.proposals).intent.id
            && ApprovedCall(Newest(s.proposals), s.portal[0].args, recoveryMax))
      && forall m :: m in s.wire ==>
           s.proposals != [] && m.key == Newest(s.proposals).intent.id
           && ApprovedCall(Newest(s.proposals), m.args, recoveryMax) && m.attempt <= 1 + recoveryMax
  {
    hide Trace;
    TraceIsGood(states, steps, recoveryMax, n);
    SubmissionWasApproved(states[n], recoveryMax);
  }

  /** Once the creator is removed, a cancellation recorded or the run ended, no call is ever
      authorized again: what is on the wire was there before. */
  lemma BarredSendsNothing(states: seq<Rows>, steps: seq<Step>, recoveryMax: int, m: nat, n: nat)
    requires Trace(states, steps, recoveryMax) && m <= n < |states| && Barred(states[m])
    ensures Barred(states[n]) && states[n].wire <= states[m].wire
  {
    hide Driven, Next, Initial, ProposalsEvolve;
    TraceIsLater(states, steps, recoveryMax, m, n);
  }

  /** `authorize_resend` does not advance the recovery attempt it checks: one reconciliation
      authorizes any number of resends, and only the driver's restraint bounds them. */
  lemma OneReconciliationAllowsManyResends(s: Rows, id: Identity, expected: int, now: Time)
    requires AuthorizeResend(s, id, expected, now).Committed?
    requires AuthorizeResend(s, id, expected, now).value.ResendAllowed?
    ensures
      var t := AuthorizeResend(s, id, expected, now).rows;
      var again := AuthorizeResend(t, id, expected, now);
      var i := LockExecuting(s, id, false).i;
      && again.Committed? && again.value.ResendAllowed? && !ResendsOnce(t, id, expected)
      && again.rows.proposals[i].invocation.value.attempt == s.proposals[i].invocation.value.attempt + 2
  {
    var t, i := AuthorizeResend(s, id, expected, now).rows, LockExecuting(s, id, false).i;
    hide FindIntent;
    FindIsStable(s.proposals, t.proposals, id.intent, 0);
  }

  // ---- Calls in doubt -------------------------------------------------------

  const SETTLED: set<IntentStatus> := {Succeeded, Failed, OutcomeUnknown}

  /** A call that may have been sent is never forgotten: at any later time its intent is
      still the newest, and it is either still executing in a live run or its outcome was
      recorded; a run that has ended has recorded it. */
  lemma InDoubtIsSettled(states: seq<Rows>, steps: seq<Step>, recoveryMax: int, m: nat, n: nat)
    requires Trace(states, steps, recoveryMax) && m <= n < |states| && NewestIs(states[m].proposals, Executing)
    ensures
      var s, t := states[m], states[n];
      && |t.proposals| == |s.proposals| && Newest(t.proposals).intent.id == Newest(s.proposals).intent.id
      && Newest(t.proposals).intent.status in ACTED
      && (Newest(t.proposals).intent.status == Executing ==>
            t.run.status == RunRunning && t.job.status in {JobQueued, JobLeased})
      && (Terminal(t.run.status) ==> Newest(t.proposals).intent.status in SETTLED)
  {
    hide Trace;
    TraceIsGood(states, steps, recoveryMax, n);
    TraceIsLater(states, steps, recoveryMax, m, n);
    ExecutingEvolves(states[m], states[n], recoveryMax);
  }

  lemma ExecutingEvolves(s: Rows, t: Rows, recoveryMax: int)
    requires Inv(t, recoveryMax) && Later(s, t) && NewestIs(s.proposals, Executing)
    ensures |t.proposals| == |s.proposals| && Newest(t.proposals).intent.id == Newest(s.proposals).intent.id
    ensures Newest(t.proposals).intent.status in ACTED
    ensures Newest(t.proposals).intent.status == Executing ==>
              t.run.status == RunRunning && t.job.status in {JobQueued, JobLeased}
  {
    hide OutsideOk, LogOk, ResumeOk, LeaseOk, JobOk, RunOk, QueueOk, WaitOk, ProposalOk;
    var n := |s.proposals| - 1;
    assert Evolves(s.proposals[n], t.proposals[n]);
  }

  /** The worker that holds the lease while a call is in doubt is told to recover it or to
      go on; the preparation itself settles nothing. */
  lemma InDoubtIsHandedOn(s: Rows, h: ClaimedJob, executable: set<int>, now: Time, recoveryMax: int)
    requires Inv(s, recoveryMax) && NewestIs(s.proposals, Executing)
    requires h in s.issued && s.run.graphVersion in executable && ActiveLease(s.job, h, now)
    ensures
      var o := PrepareClaimedJob(s, h, executable, now);
      var p := Newest(s.proposals);
      o.Committed? && o.rows.proposals == s.proposals && o.rows.run == s.run && o.rows.job == s.job
      && o.value == if Barred(s) then RecoverAction(Identity(p.intent.id, p.request.value.id)) else Execute
  {
    hide ProposalsOk, OutsideOk, LogOk, ResumeOk, LeaseOk, JobOk, RunOk, QueueOk, WaitOk, FirstWith, ResumeFault;
    PrepareClaimedJobKeeps(s, h, executable, now, recoveryMax);
    FirstExecutingIsNewest(s, {Executing}, recoveryMax);
    FirstExecutingIsNewest(s, {Failed, OutcomeUnknown}, recoveryMax);
    ActedIsLinked(s, |s.proposals| - 1, recoveryMax);
  }

  /** Giving up a lease while a call is in doubt requeues the job, or, once recovery is
      exhausted, records the unknown outcome and ends the run in the same step. */
  lemma GivingUpSettles(s: Rows, h: ClaimedJob, category: Category, now: Time, delay: Time, recoveryMax: int)
    requires Inv(s, recoveryMax) && NewestIs(s.proposals, Executing) && s.job.status == JobLeased
    ensures
      var exhausted := Newest(s.proposals).intent.recoveryAttempts >= recoveryMax;
      var r := ReclaimOne(s, recoveryMax, now, delay);
      var f := FailJob(s, h, category, recoveryMax, now, delay);
      && r.Committed? && (exhausted ==> GaveUp(r.rows)) && (!exhausted ==> Kept(s, r.rows))
      && (ActiveLease(s.job, h, now) ==> f.Committed? && if exhausted then GaveUp(f.rows) else Kept(s, f.rows))
  {
    hide ProposalsOk, OutsideOk, LogOk, ResumeOk, LeaseOk, RunOk, QueueOk, WaitOk, FirstWith, TerminalTime;
    LeasedIsLive(s, recoveryMax);
    FirstExecutingIsNewest(s, ACTED, recoveryMax);
    ActedIsLinked(s, |s.proposals| - 1, recoveryMax);
  }

  predicate GaveUp(t: Rows)
  {
    && NewestIs(t.proposals, OutcomeUnknown) && t.run.status == RunFailed
    && t.run.errorCategory == Some(ExternalOutcomeUnknown)
    && t.job.status == JobDone && t.job.errorSummary == Some(ExternalOutcomeUnknown)
  }

  predicate Kept(s: Rows, t: Rows)
  {
    t.proposals == s.proposals && t.run.status == s.run.status && t.job.status == JobQueued
    && t.job.errorSummary == Some(ActionRecoveryRequired)
  }

  // ---- Convergence ----------------------------------------------------------

  /** Once the call has failed or its outcome is unknown, preparing, failing, cancelling and
      reclaiming leave exactly the same rows. */
  lemma EndingsAgree(s: Rows, h: ClaimedJob, executable: set<int>, category: Category, reason: Category, now: Time,
                     delay: Time, recoveryMax: int)
    requires Inv(s, recoveryMax) && h in s.issued && ActiveLease(s.job, h, now)
    requires NewestIs(s.proposals, Failed) || NewestIs(s.proposals, OutcomeUnknown)
    ensures
      var t := Converged(s, now);
      && PrepareClaimedJob(s, h, executable, now) == Committed(t, Finished)
      && FailJob(s, h, category, recoveryMax, now, delay) == Committed(t, true)
      && CancelJob(s, h, reason, now, delay) == Committed(t, true)
      && ReclaimOne(s, recoveryMax, now, delay) == Committed(t, FinishedJob)
  {
    hide Inv, FirstWith, MarkRunFailed, MarkRunCancelled, ConvergedVerdict, GiveUpInDoubt;
    LeasedIsLive(s, recoveryMax);
    FirstExecutingIsNewest(s, {Executing}, recoveryMax);
    FirstExecutingIsNewest(s, {Failed, OutcomeUnknown}, recoveryMax);
    FirstExecutingIsNewest(s, {Executing, Failed, OutcomeUnknown}, recoveryMax);
    FirstExecutingIsNewest(s, ACTED, recoveryMax);
    ActedIsLinked(s, |s.proposals| - 1, recoveryMax);
  }

  /** The rows that a failed or unknown action leaves. */
  function Converged(s: Rows, now: Time): Rows
    requires s.proposals != [] && Newest(s.proposals).invocation.Some?
  {
    var v := ConvergedVerdict(s, Newest(s.proposals));
    EndRun(SetJob(s, JobDone, SummaryOf(v)), v, now)
  }

  /** The call is known not to have happened, and for the reason recorded with it. */
  predicate KnownAbsent(p: Proposal, reason: Category)
  {
    p.intent.status == Failed && p.invocation.Some? && p.invocation.value.errorCategory == Some(reason)
    && p.intent.evidence == Some(Evidence(ConfirmedAbsent, Some(reason)))
  }

  /** The run is cancelled exactly when the call is known not to have happened because of a
      cancellation or revocation that still stands; otherwise it fails, and the category
      says whether the outcome is known. */
  lemma ConvergedMeans(s: Rows, now: Time, recoveryMax: int)
    requires Inv(s, recoveryMax) && s.run.status == RunRunning
    requires NewestIs(s.proposals, Failed) || NewestIs(s.proposals, OutcomeUnknown)
    ensures Newest(s.proposals).invocation.Some?
    ensures
      var p, t := Newest(s.proposals), Converged(s, now);
      var absent := (s.run.cancelRequestedAt.Some? && KnownAbsent(p, CancelledConfirmedAbsent))
                 || (!s.memberActive && KnownAbsent(p, AuthorizationRevoked));
      && t.job.status == JobDone && t.job.lease == None
      && t.run.status == (if absent then RunCancelled else RunFailed)
      && t.run.errorCategory ==
           (if absent then s.run.errorCategory
            else if p.intent.status == Failed then Some(ExternalActionFailed) else Some(ExternalOutcomeUnknown))
      && t.job.errorSummary == (if absent then None else t.run.errorCategory)
  {
    hide ProposalsOk, OutsideOk, LogOk, ResumeOk, LeaseOk, JobOk, RunOk, QueueOk, WaitOk, TerminalTime;
    ActedIsLinked(s, |s.proposals| - 1, recoveryMax);
  }
}
