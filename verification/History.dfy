/** Where the rows of a run come from: every decision, consumption, call, lease and cancellation in a
    reachable state was written by an earlier step that was entitled to write it. */
module History {
  import opened Options
  import opened Rows
  import opened Actions
  import opened Approvals
  import opened ActionExecution
  import opened Jobs
  import opened Invariant
  import opened ExecutionProofs
  import opened JobProofs
  import opened Protocol
  import opened Evolution
  import opened Replays
  import opened Safety
  import opened Liveness
  import opened Fencing
  import opened Effects
  import opened JobEffects
  import opened ActionEffects

  // ---- What one step may change ---------------------------------------------

  /** Calls that were put on the wire for this action so far. */
  function CallsOf(p: Proposal): int { if p.invocation.Some? then p.invocation.value.attempt else 0 }

  predicate ConsumedBefore(p: Proposal) { p.request.Some? && p.request.value.status == Consumed }

  /** A current reviewer decides the open request in time, while the run waits for it. */
  predicate DecidesNow(s: Rows, p: Proposal, c: Decide)
  {
    && c.intent == p.intent.id && c.memberCurrent && c.mayReview
    && p.request.Some? && p.request.value.status == Pending && c.now < p.request.value.expiresAt
    && c.expectedVersion == p.request.value.version && p.decisions == [] && s.run.status == RunWaiting
  }

  /** Nothing bars the run from calling out. */
  predicate MayCall(s: Rows) { s.memberActive && s.run.status == RunRunning && s.run.cancelRequestedAt.None? }

  predicate IsAbout(p: Proposal, id: Identity)
  {
    p.intent.id == id.intent && p.request.Some? && p.request.value.id == id.request
  }

  /** The step changes decisions, consumption, calls and reconciliations of an action only if it is the
      one that is entitled to. */
  predicate Entitled(s: Rows, p: Proposal, q: Proposal, step: Step)
  {
    && (q.decisions != p.decisions ==>
          && step.DoDecide? && DecidesNow(s, p, step.decide)
          && q.decisions == [Decision(step.decide.actor, step.decide.verdict, step.decide.now)])
    && (ConsumedBefore(q) && !ConsumedBefore(p) ==>
          && step.DoPrepareExecution? && IsAbout(p, step.id) && MayCall(s)
          && p.request.value.status == Approved && step.now < p.request.value.expiresAt
          && q.request.value.consumedAt == Some(step.now))
    && (q.intent.status in ACTED && p.intent.status !in ACTED ==>
          && step.DoBeginSend? && IsAbout(p, step.id) && MayCall(s) && p.intent.status == Authorized
          && q.invocation.Some? && q.invocation.value.startedAt == Some(step.now))
    && (CallsOf(q) != CallsOf(p) ==>
          && CallsOf(q) == CallsOf(p) + 1 && MayCall(s)
          && ((step.DoBeginSend? && IsAbout(p, step.id)) || (step.DoResend? && IsAbout(p, step.id))))
    && (q.intent.recoveryAttempts != p.intent.recoveryAttempts ==>
          && q.intent.recoveryAttempts == p.intent.recoveryAttempts + 1
          && step.DoReconcile? && IsAbout(p, step.id))
  }

  predicate Undecided(p: Proposal)
  {
    p.decisions == [] && !ConsumedBefore(p) && p.intent.status !in ACTED && p.invocation.None?
    && p.intent.recoveryAttempts == 0
  }

  /** A lease is given by a claim, or prolonged by a heartbeat of its holder, for the duration asked for. */
  predicate Leases(s: Rows, lease: Lease, step: Step)
  {
    || (step.DoClaim? && lease == Lease(step.worker, step.token, step.now + step.duration))
    || (step.DoHeartbeat? && s.job.lease.Some? && s.job.lease.value.expiresAt > step.now
        && s.job.lease.value.token == step.h.token
        && lease == Lease(s.job.lease.value.worker, step.h.token, step.now + step.duration))
  }

  /** The step is one that may end the run like this. */
  predicate MayEnd(s: Rows, status: RunStatus, step: Step)
  {
    match status
    case RunCompleted => step.DoComplete? && s.run.cancelRequestedAt.None? && (step.publishes ==> s.memberActive)
    case RunCancelled =>
      || (step.DoCancelRun? && step.authorized && s.run.status != RunRunning)
      || !s.memberActive || s.run.cancelRequestedAt.Some? || step.DoCancelJob?
    case RunFailed =>
      || step.DoFail? || step.DoReclaim?
      || (CallLost(s.proposals) && (step.DoPrepareJob? || step.DoCancelJob?))
    case _ => true
  }

  predicate RunEntitled(s: Rows, t: Rows, step: Step)
  {
    && (t.memberActive != s.memberActive ==> step.Revoke?)
    && (t.run.cancelRequestedAt != s.run.cancelRequestedAt ==>
          && step.DoCancelRun? && step.authorized && s.run.status == RunRunning
          && t.run.cancelRequestedAt == Some(step.now))
    && (t.job.lease.Some? && t.job.lease != s.job.lease ==> Leases(s, t.job.lease.value, step))
    && (t.run.status != s.run.status ==> MayEnd(s, t.run.status, step))
  }

  predicate AllEntitled(s: Rows, t: Rows, step: Step)
  {
    && |s.proposals| <= |t.proposals|
    && (forall i :: 0 <= i < |s.proposals| ==> Entitled(s, s.proposals[i], t.proposals[i], step))
    && (forall i :: |s.proposals| <= i < |t.proposals| ==> Undecided(t.proposals[i]))
    && RunEntitled(s, t, step)
  }

  lemma SameIsEntitled(s: Rows, t: Rows, step: Step)
    requires t.proposals == s.proposals && RunEntitled(s, t, step)
    ensures AllEntitled(s, t, step)
  {
  }

  lemma OneIsEntitled(s: Rows, t: Rows, step: Step, i: nat, q: Proposal)
    requires i < |s.proposals| && t.proposals == s.proposals[i := q] && Entitled(s, s.proposals[i], q, step)
    requires RunEntitled(s, t, step)
    ensures AllEntitled(s, t, step)
  {
  }

  lemma ProposingIsEntitled(s: Rows, c: Propose, recoveryMax: int)
    requires Inv(s, recoveryMax) && TopicsOk(s.proposals, s.events)
    ensures AllEntitled(s, Next(s, DoPrepareAction(c), recoveryMax), DoPrepareAction(c))
  {
    hide Inv, TopicsOk, PrepareAction, EventsAbout, Logs, MayPropose, IsAskedFor, Entitled;
    assert forall i :: 0 <= i < |s.proposals| ==> Entitled(s, s.proposals[i], s.proposals[i], DoPrepareAction(c)) by {
      Unchanged(s, DoPrepareAction(c));
    }
    ProposalIsMade(s, c, recoveryMax);
  }

  lemma Unchanged(s: Rows, step: Step)
    ensures AllEntitled(s, s, step)
  {
  }

  lemma SupersedingIsEntitled(s: Rows, old_: IntentId, c: Propose, recoveryMax: int)
    requires Inv(s, recoveryMax) && TopicsOk(s.proposals, s.events)
    ensures AllEntitled(s, Next(s, DoSupersede(old_, c), recoveryMax), DoSupersede(old_, c))
  {
    hide Inv, TopicsOk, SupersedeAction, EventsAbout, Logs, MayPropose, IsAskedFor;
    if i: nat :| i < |s.proposals| && s.proposals[i].intent.id == old_ {
      ProposalIsReplaced(s, old_, i, c, recoveryMax);
    } else {
      NothingToSupersede(s, old_, c);
    }
  }

  lemma CancellingIsEntitled(s: Rows, step: Step, recoveryMax: int)
    requires Inv(s, recoveryMax) && TopicsOk(s.proposals, s.events) && step.DoCancelAction?
    ensures AllEntitled(s, Next(s, step, recoveryMax), step)
  {
    hide Inv, TopicsOk, CancelAction, EventsAbout, Logs, Replays.Logged;
    var id := Identity(step.intent, step.request);
    if i: nat :| Names(s, id, i) {
      ActionIsCancelled(s, step.tenant, id, i, step.rejected, recoveryMax);
      NamesIsBound(s, id, i, recoveryMax);
    } else {
      NothingToCancel(s, step.tenant, id, step.rejected);
    }
  }

  lemma NothingToSupersede(s: Rows, old_: IntentId, c: Propose)
    requires forall i :: 0 <= i < |s.proposals| ==> s.proposals[i].intent.id != old_
    ensures SupersedeAction(s, old_, c).Raised?
  {
    hide EventsAbout, InsertProposal;
  }

  lemma ApprovalsAreEntitled(s: Rows, step: Step, recoveryMax: int)
    requires Inv(s, recoveryMax) && (step.DoDecide? || step.DoSweep?)
    ensures AllEntitled(s, Next(s, step, recoveryMax), step)
  {
    hide Inv, DecideApproval, SweepRequest, Logs;
    SameIsEntitled(s, s, step);
    InvHasProposals(s, recoveryMax);
    match step
    case DoDecide(c) =>
      if i: nat :| i < |s.proposals| && s.proposals[i].intent.id == c.intent {
        DecisionIsEntitled(s, c, i, recoveryMax);
      } else {
        NobodyDecides(s, c);
      }
    case DoSweep(i, now) =>
      if i < |s.proposals| {
        assert ProposalOk(s.proposals[i], recoveryMax);
        ExpiryHappens(s, i, now, recoveryMax);
      }
  }

  lemma DecisionIsEntitled(s: Rows, c: Decide, i: nat, recoveryMax: int)
    requires Inv(s, recoveryMax) && i < |s.proposals| && s.proposals[i].intent.id == c.intent
    ensures AllEntitled(s, Next(s, DoDecide(c), recoveryMax), DoDecide(c))
  {
    hide DecideApproval, Logs, OutsideOk, LogOk, ResumeOk, LeaseOk, RunOk, QueueOk, Progress, WaitOk, JobOk, ActionsOk;
    assert ProposalOk(s.proposals[i], recoveryMax);
    var ds := s.proposals[i].decisions;
    SameIsEntitled(s, s, DoDecide(c));
    if ds != [] && ds[0].actor == c.actor && c.memberCurrent {
      RepeatedDecision(s, c, i, 0);
    } else if forall d :: d in ds ==> d.actor != c.actor {
      FirstDecision(s, c, i);
    } else {
      StrangerIsNotFound(s, c);
    }
  }

  lemma StrangerIsNotFound(s: Rows, c: Decide)
    requires !c.memberCurrent
    ensures DecideApproval(s, c) == Raised(NotFound)
  {
  }

  lemma PreparationIsEntitled(s: Rows, id: Identity, now: Time, i: nat, recoveryMax: int)
    requires Inv(s, recoveryMax) && Names(s, id, i)
    ensures var step := DoPrepareExecution(id, now); AllEntitled(s, Next(s, step, recoveryMax), step)
  {
    hide Inv, PrepareExecution, ProposalOk, Aborted, AllEntitled, WithOutcome;
    var step, p := DoPrepareExecution(id, now), s.proposals[i];
    var t := Next(s, step, recoveryMax);
    ConsumptionHappens(s, id, i, now, recoveryMax);
    AbortedIsEntitled(s, p, step);
    UnsentIsUncalled(s, i, recoveryMax);
    if t.proposals == s.proposals { SameIsEntitled(s, t, step); } else {
      OneIsEntitled(s, t, step, i, t.proposals[i]);
    }
  }

  lemma SendIsEntitled(s: Rows, id: Identity, now: Time, i: nat, recoveryMax: int)
    requires Inv(s, recoveryMax) && Names(s, id, i)
    ensures var step := DoBeginSend(id, now); AllEntitled(s, Next(s, step, recoveryMax), step)
  {
    hide Inv, BeginSend, ProposalOk, AllEntitled, Logs;
    var step := DoBeginSend(id, now);
    var t := Next(s, step, recoveryMax);
    SendIsAnswered(s, id, i, now, recoveryMax);
    UnsentIsUncalled(s, i, recoveryMax);
    if t.proposals == s.proposals { SameIsEntitled(s, t, step); } else {
      OneIsEntitled(s, t, step, i, t.proposals[i]);
    }
  }

  lemma ReconciliationIsEntitled(s: Rows, id: Identity, now: Time, i: nat, recoveryMax: int)
    requires Inv(s, recoveryMax) && Names(s, id, i)
    ensures var step := DoReconcile(id, now); AllEntitled(s, Next(s, step, recoveryMax), step)
  {
    hide Inv, BeginReconciliation, ProposalOk, AllEntitled, Logs, WithOutcome;
    var step := DoReconcile(id, now);
    var t := Next(s, step, recoveryMax);
    ReconciliationIsCounted(s, id, i, recoveryMax, now, recoveryMax);
    if t.proposals == s.proposals { SameIsEntitled(s, t, step); } else {
      RecordingIsEntitled(s, i, step, recoveryMax);
      OneIsEntitled(s, t, step, i, t.proposals[i]);
    }
  }

  lemma ResendIsEntitled(s: Rows, id: Identity, expected: int, now: Time, i: nat, recoveryMax: int)
    requires Inv(s, recoveryMax) && Names(s, id, i)
    ensures var step := DoResend(id, expected, now); AllEntitled(s, Next(s, step, recoveryMax), step)
  {
    hide Inv, AuthorizeResend, ProposalOk, AllEntitled, Logs, WithOutcome;
    var step := DoResend(id, expected, now);
    var t := Next(s, step, recoveryMax);
    ResendIsAnswered(s, id, i, expected, now, recoveryMax);
    if t.proposals == s.proposals { SameIsEntitled(s, t, step); } else {
      RecordingIsEntitled(s, i, step, recoveryMax);
      OneIsEntitled(s, t, step, i, t.proposals[i]);
    }
  }

  lemma AbortedIsEntitled(s: Rows, p: Proposal, step: Step)
    requires p.request.Some?
    ensures forall now :: Entitled(s, p, Aborted(p, now), step)
  {
  }

  lemma UnsentIsUncalled(s: Rows, i: nat, recoveryMax: int)
    requires Inv(s, recoveryMax) && i < |s.proposals|
    ensures s.proposals[i].intent.status in {IntentStatus.Proposed, Authorized} ==> CallsOf(s.proposals[i]) == 0
  {
    assert ProposalOk(s.proposals[i], recoveryMax);
  }

  /** Recording an outcome changes none of what is guarded. */
  lemma RecordingIsEntitled(s: Rows, i: nat, step: Step, recoveryMax: int)
    requires Inv(s, recoveryMax) && i < |s.proposals| && s.proposals[i].intent.status == Executing
    ensures s.proposals[i].invocation.Some?
    ensures
      forall status, invocation, category, evidence, now ::
        Entitled(s, s.proposals[i], WithOutcome(s.proposals[i], status, invocation, category, evidence, now), step)
  {
    ActedIsLinked(s, i, recoveryMax);
  }

  lemma ConfirmationsAreEntitled(s: Rows, step: Step, i: nat, recoveryMax: int)
    requires Inv(s, recoveryMax) && (step.DoConfirmSuccess? || step.DoConfirmFailure? || step.DoConfirmUnknown?)
    requires Names(s, step.id, i)
    ensures AllEntitled(s, Next(s, step, recoveryMax), step)
  {
    hide Inv, ConfirmSuccess, ConfirmFailure, ConfirmOutcomeUnknown, Logs, WithOutcome, Entitled, AllEntitled;
    var t := Next(s, step, recoveryMax);
    match step {
      case DoConfirmSuccess(id, now) => SuccessIsRecorded(s, id, i, now, recoveryMax);
      case DoConfirmFailure(id, c, e, now) => FailureIsRecorded(s, id, i, c, e, now, recoveryMax);
      case DoConfirmUnknown(id, e, now) => UnknownIsRecorded(s, id, i, e, now, recoveryMax);
    }
    if s.proposals[i].intent.status == Executing {
      RecordingIsEntitled(s, i, step, recoveryMax);
      OneIsEntitled(s, t, step, i, t.proposals[i]);
    } else {
      SameIsEntitled(s, t, step);
    }
  }

  predicate IsExecutionStep(step: Step)
  {
    step.DoPrepareExecution? || step.DoBeginSend? || step.DoReconcile? || step.DoResend?
    || step.DoConfirmSuccess? || step.DoConfirmFailure? || step.DoConfirmUnknown?
  }

  lemma ExecutionIsEntitled(s: Rows, step: Step, recoveryMax: int)
    requires Inv(s, recoveryMax) && IsExecutionStep(step)
    ensures AllEntitled(s, Next(s, step, recoveryMax), step)
  {
    hide Inv, PrepareExecution, BeginSend, BeginReconciliation, AuthorizeResend, ConfirmSuccess, ConfirmFailure,
      ConfirmOutcomeUnknown, AllEntitled;
    if i: nat :| Names(s, step.id, i) {
      if step.DoConfirmSuccess? || step.DoConfirmFailure? || step.DoConfirmUnknown? {
        ConfirmationsAreEntitled(s, step, i, recoveryMax);
      } else {
        match step
        case DoPrepareExecution(id, now) => PreparationIsEntitled(s, id, now, i, recoveryMax);
        case DoBeginSend(id, now) => SendIsEntitled(s, id, now, i, recoveryMax);
        case DoReconcile(id, now) => ReconciliationIsEntitled(s, id, now, i, recoveryMax);
        case DoResend(id, expected, now) => ResendIsEntitled(s, id, expected, now, i, recoveryMax);
      }
    } else {
      var category := if step.DoConfirmFailure? then step.category else UserRequested;
      var evidence := if step.DoConfirmFailure? || step.DoConfirmUnknown? then step.evidence else EXHAUSTED;
      var expected := if step.DoResend? then step.expected else 0;
      UnnamedIsNotFound(s, step.id, recoveryMax, expected, category, evidence, step.now, recoveryMax);
      SameIsEntitled(s, s, step);
    }
  }

  // ---- jobs.py and runs.py --------------------------------------------------

  lemma ClosingIsEntitled(s: Rows, t: Rows, kinds: seq<EventKind>, now: Time, step: Step, recoveryMax: int)
    requires Inv(s, recoveryMax) && NewestIs(s.proposals, Executing) && Newest(s.proposals).invocation.Some?
    requires DoubtIsClosed(s, t, kinds, now) && (step.DoFail? || step.DoReclaim?)
    ensures AllEntitled(s, t, step)
  {
    hide Inv, Entitled, Logs, WithOutcome;
    RecordingIsEntitled(s, |s.proposals| - 1, step, recoveryMax);
    OneIsEntitled(s, t, step, |s.proposals| - 1, t.proposals[|s.proposals| - 1]);
  }

  lemma ConvergingIsEntitled(s: Rows, now: Time, step: Step)
    requires step.DoPrepareJob? || step.DoCancelJob? || step.DoFail? || step.DoReclaim?
    requires CallLost(s.proposals) && Newest(s.proposals).invocation.Some?
    ensures Converged(s, now).proposals == s.proposals && RunEntitled(s, Converged(s, now), step)
  {
    hide TerminalTime;
  }

  lemma StoppingIsEntitled(s: Rows, step: Step, recoveryMax: int)
    requires Inv(s, recoveryMax) && Driven(s, step) && (step.DoPrepareJob? || step.DoCancelJob?)
    ensures Next(s, step, recoveryMax).proposals == s.proposals && RunEntitled(s, Next(s, step, recoveryMax), step)
  {
    hide Inv, PrepareClaimedJob, CancelJob, ActiveLease, Converged, Logs, TerminalTime, CallLost, RunEntitled;
    if !ActiveLease(s.job, step.h, step.now) {
      StaleHandleChangesNothing(s, step, recoveryMax);
      Unchanged(s, step);
    } else if CallLost(s.proposals) {
      LostCallIsRecorded(s, recoveryMax);
      ConvergingIsEntitled(s, step.now, step);
      match step
      case DoPrepareJob(h, x, now) => HolderIsTold(s, h, x, now, recoveryMax);
      case DoCancelJob(h, reason, now, delay) => WorkerCancels(s, h, reason, now, delay, recoveryMax);
    } else {
      LiveStoppingIsEntitled(s, step, recoveryMax);
    }
  }

  lemma LostCallIsRecorded(s: Rows, recoveryMax: int)
    requires Inv(s, recoveryMax)
    ensures CallLost(s.proposals) <==> NewestIs(s.proposals, Failed) || NewestIs(s.proposals, OutcomeUnknown)
    ensures CallLost(s.proposals) ==> Newest(s.proposals).invocation.Some?
  {
    if CallLost(s.proposals) { ActedIsLinked(s, |s.proposals| - 1, recoveryMax); }
  }

  lemma LiveStoppingIsEntitled(s: Rows, step: Step, recoveryMax: int)
    requires Inv(s, recoveryMax) && Driven(s, step) && (step.DoPrepareJob? || step.DoCancelJob?)
    requires ActiveLease(s.job, step.h, step.now) && !CallLost(s.proposals)
    ensures Next(s, step, recoveryMax).proposals == s.proposals && RunEntitled(s, Next(s, step, recoveryMax), step)
  {
    hide Inv, PrepareClaimedJob, CancelJob, ActiveLease, Logs, TerminalTime;
    match step
    case DoPrepareJob(h, x, now) => HolderIsTold(s, h, x, now, recoveryMax);
    case DoCancelJob(h, reason, now, delay) => WorkerCancels(s, h, reason, now, delay, recoveryMax);
  }

  lemma RestingIsEntitled(s: Rows, step: Step, recoveryMax: int)
    requires Inv(s, recoveryMax) && Driven(s, step) && (step.DoComplete? || step.DoWait?)
    ensures Next(s, step, recoveryMax).proposals == s.proposals && RunEntitled(s, Next(s, step, recoveryMax), step)
  {
    hide Inv, Complete, WaitForApproval, ActiveLease, FindRequest, Logs, TerminalTime;
    if !ActiveLease(s.job, step.h, step.now) {
      StaleHandleChangesNothing(s, step, recoveryMax);
    } else {
      match step
      case DoComplete(h, publishes, now) => CompletionEndsRun(s, h, publishes, now, recoveryMax);
      case DoWait(h, request, now) => PauseRests(s, h, request, now, recoveryMax);
    }
  }

  lemma HeartbeatIsEntitled(s: Rows, step: Step, recoveryMax: int)
    requires step.DoHeartbeat?
    ensures Next(s, step, recoveryMax).proposals == s.proposals && RunEntitled(s, Next(s, step, recoveryMax), step)
  {
    hide Heartbeat, Stale;
    HeartbeatExtends(s, step.h, step.now, step.duration);
  }

  lemma GivingBackIsEntitled(s: Rows, step: Step, recoveryMax: int)
    requires Inv(s, recoveryMax) && (step.DoClaim? || step.DoRequeue? || step.DoRelease?)
    ensures Next(s, step, recoveryMax).proposals == s.proposals && RunEntitled(s, Next(s, step, recoveryMax), step)
  {
    hide Inv, Claim, Requeue, Release, ActiveLease, Stale, Logs, TerminalTime;
    if step.DoClaim? {
      ClaimIsTaken(s, step.executable, step.worker, step.token, step.now, step.duration, recoveryMax);
    } else if !ActiveLease(s.job, step.h, step.now) {
      StaleHandleChangesNothing(s, step, recoveryMax);
    } else {
      JobIsGivenBack(s, step.h, step.category, step.now, step.delay, recoveryMax);
    }
  }

  predicate IsClosing(s: Rows, recoveryMax: int)
  {
    NewestIs(s.proposals, Executing) && Newest(s.proposals).intent.recoveryAttempts >= recoveryMax
  }

  lemma FailingIsEntitled(s: Rows, step: Step, recoveryMax: int)
    requires Inv(s, recoveryMax) && Driven(s, step) && step.DoFail?
    ensures AllEntitled(s, Next(s, step, recoveryMax), step)
  {
    hide Inv, FailJob, ActiveLease, Converged, DoubtIsClosed, AllEntitled, Logs, TerminalTime;
    var t := Next(s, step, recoveryMax);
    LostCallIsRecorded(s, recoveryMax);
    if CallLost(s.proposals) { ConvergingIsEntitled(s, step.now, step); }
    if !ActiveLease(s.job, step.h, step.now) {
      StaleHandleChangesNothing(s, step, recoveryMax);
      SameIsEntitled(s, t, step);
    } else {
      WorkerFails(s, step.h, step.category, step.now, step.delay, recoveryMax);
      if IsClosing(s, recoveryMax) { ClosingIsEntitled(s, t, [], step.now, step, recoveryMax); }
      else { SameIsEntitled(s, t, step); }
    }
  }

  lemma ReclaimingIsEntitled(s: Rows, step: Step, recoveryMax: int)
    requires Inv(s, recoveryMax) && step.DoReclaim?
    ensures AllEntitled(s, Next(s, step, recoveryMax), step)
  {
    hide Inv, ReclaimOne, Stale, Converged, DoubtIsClosed, AllEntitled, Logs, TerminalTime;
    var t := Next(s, step, recoveryMax);
    LostCallIsRecorded(s, recoveryMax);
    if CallLost(s.proposals) { ConvergingIsEntitled(s, step.now, step); }
    if !Stale(s, step.executable, step.now) {
      SameIsEntitled(s, t, step);
    } else {
      StaleJobIsReclaimed(s, step.executable, step.now, step.delay, recoveryMax);
      if IsClosing(s, recoveryMax) {
        ClosingIsEntitled(s, t, [JobLeaseExpired(s.job.attempt)], step.now, step, recoveryMax);
      } else {
        SameIsEntitled(s, t, step);
      }
    }
  }

  lemma UsersAreEntitled(s: Rows, step: Step, recoveryMax: int)
    requires Inv(s, recoveryMax) && step.DoCancelRun?
    ensures AllEntitled(s, Next(s, step, recoveryMax), step)
  {
    hide Inv, CancelRunByUser, Logs, AllEntitled, Entitled;
    var t := Next(s, step, recoveryMax);
    UserCancels(s, step.authorized, step.now, recoveryMax);
    if step.authorized && s.run.status == RunWaiting {
      WaitingIsUncalled(s, recoveryMax);
      ClosedWaitIsEntitled(s, t, step);
    } else {
      SameIsEntitled(s, t, step);
    }
  }

  lemma WaitingIsUncalled(s: Rows, recoveryMax: int)
    requires Inv(s, recoveryMax) && s.run.status == RunWaiting
    ensures s.proposals != [] && Newest(s.proposals).request.Some?
    ensures Newest(s.proposals).request.value.status != Consumed && Newest(s.proposals).intent.status !in ACTED
  {
    assert ProposalOk(s.proposals[|s.proposals| - 1], recoveryMax);
  }

  lemma ClosedWaitIsEntitled(s: Rows, t: Rows, step: Step)
    requires step.DoCancelRun? && step.authorized && s.run.status == RunWaiting
    requires s.proposals != [] && Newest(s.proposals).request.Some? && s.run.startedAt.Some?
    requires WaitIsClosed(s, t, step.now)
    ensures AllEntitled(s, t, step)
  {
    hide Logs, AllEntitled;
    OneIsEntitled(s, t, step, |s.proposals| - 1, t.proposals[|s.proposals| - 1]);
  }

  /** Whatever step comes, the guarded fields of every action change only by a step that is entitled to. */
  lemma StepIsEntitled(s: Rows, step: Step, recoveryMax: int)
    requires Inv(s, recoveryMax) && TopicsOk(s.proposals, s.events) && Driven(s, step)
    ensures AllEntitled(s, Next(s, step, recoveryMax), step)
  {
    hide Inv, TopicsOk, Driven, Next, AllEntitled;
    if IsExecutionStep(step) {
      ExecutionIsEntitled(s, step, recoveryMax);
    } else if step.DoPrepareAction? {
      ProposingIsEntitled(s, step.propose, recoveryMax);
    } else if step.DoSupersede? {
      SupersedingIsEntitled(s, step.old_, step.propose, recoveryMax);
    } else if step.DoCancelAction? {
      CancellingIsEntitled(s, step, recoveryMax);
    } else if step.DoDecide? || step.DoSweep? {
      ApprovalsAreEntitled(s, step, recoveryMax);
    } else if step.DoFail? {
      FailingIsEntitled(s, step, recoveryMax);
    } else if step.DoReclaim? {
      ReclaimingIsEntitled(s, step, recoveryMax);
    } else if step.DoCancelRun? {
      UsersAreEntitled(s, step, recoveryMax);
    } else {
      if step.DoPrepareJob? || step.DoCancelJob? {
        StoppingIsEntitled(s, step, recoveryMax);
      } else if step.DoComplete? || step.DoWait? {
        RestingIsEntitled(s, step, recoveryMax);
      } else if step.DoHeartbeat? {
        HeartbeatIsEntitled(s, step, recoveryMax);
      } else if step.DoClaim? || step.DoRequeue? || step.DoRelease? {
        GivingBackIsEntitled(s, step, recoveryMax);
      } else {
        OutsideKeepsProposals(s, step, recoveryMax);
      }
      SameIsEntitled(s, Next(s, step, recoveryMax), step);
    }
  }

  lemma OutsideKeepsProposals(s: Rows, step: Step, recoveryMax: int)
    requires step.Revoke? || step.Deliver? || step.Lose? || step.DoAgentEvent?
    ensures Next(s, step, recoveryMax).proposals == s.proposals && RunEntitled(s, Next(s, step, recoveryMax), step)
  {
    hide PutIfAbsent;
  }
}
