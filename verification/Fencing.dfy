/** Leases and their fencing tokens: who may change a leased job, that a lost lease is never
    valid again, and how many attempts a run can use up. */
module Fencing {
  import opened Options
  import opened Rows
  import opened Actions
  import opened Approvals
  import opened ActionExecution
  import opened Jobs
  import opened Invariant
  import opened ExecutionProofs
  import opened JobProofs
  import opened ActionProofs
  import opened Protocol
  import opened Evolution

  // ---- Handles --------------------------------------------------------------

  /** At most one claim that was ever handed out is valid, whatever the clocks say. */
  lemma OneHolder(s: Rows, h: ClaimedJob, k: ClaimedJob, now: Time, later: Time, recoveryMax: int)
    requires Inv(s, recoveryMax) && h in s.issued && k in s.issued
    requires ActiveLease(s.job, h, now) && ActiveLease(s.job, k, later)
    ensures h == k
  {
    GenuineHolder(s, h, now, recoveryMax);
    GenuineHolder(s, k, later, recoveryMax);
  }

  predicate IsHandleStep(step: Step)
  {
    step.DoPrepareJob? || step.DoHeartbeat? || step.DoComplete? || step.DoWait? || step.DoRequeue?
    || step.DoFail? || step.DoCancelJob? || step.DoRelease?
  }

  /** The step is made by the current, unexpired holder of the lease. */
  predicate HoldsLease(s: Rows, step: Step)
    requires IsHandleStep(step)
  {
    ActiveLease(s.job, step.h, step.now)
  }

  /** Every call with a lost or expired handle changes nothing. */
  lemma StaleHandleChangesNothing(s: Rows, step: Step, recoveryMax: int)
    requires IsHandleStep(step) && !HoldsLease(s, step)
    ensures Perform(s, step, recoveryMax) == Committed(s, ())
  {
    hide StartRun, Converge, GiveUpInDoubt, FirstWith, FindRequest, MarkRunFailed, MarkRunCancelled;
  }

  // ---- Steps that do not touch the job --------------------------------------

  predicate SameJob(s: Rows, t: Rows) { t.job == s.job && t.run.status == s.run.status && t.issued == s.issued }

  lemma InsertLeavesJob(s: Rows, c: Propose, allowCreate: bool)
    ensures SameJob(s, After(s, InsertProposal(s, c, allowCreate)))
  {
    hide FindIntent, FindRevision, EventsAbout;
  }

  lemma ActionsLeaveJob(s: Rows, step: Step, recoveryMax: int)
    requires step.DoPrepareAction? || step.DoSupersede? || step.DoCancelAction?
    ensures SameJob(s, Next(s, step, recoveryMax))
  {
    hide FindIntent, FindRevision, EventsAbout, InsertProposal;
    match step
    case DoPrepareAction(c) => InsertLeavesJob(s, c, true);
    case DoSupersede(old_, c) =>
      InsertLeavesJob(s, c, false);
      var found := FindIntent(s.proposals, old_);
      if found.Some? && s.proposals[found.value].request.Some? {
        InsertLeavesJob(Retire(s, found.value), c, true);
      }
    case DoCancelAction(_, _, _, _) =>
  }

  lemma ExecutionLeavesJob(s: Rows, id: Identity, expected: int, recoveryMax: int, now: Time)
    ensures SameJob(s, After(s, PrepareExecution(s, id, now))) && SameJob(s, After(s, BeginSend(s, id, now)))
    ensures SameJob(s, After(s, BeginReconciliation(s, id, recoveryMax, now)))
    ensures SameJob(s, After(s, AuthorizeResend(s, id, expected, now)))
  {
    hide LockBoundRows, LockExecuting, ApproveCount;
  }

  lemma ConfirmationLeavesJob(s: Rows, id: Identity, category: Category, evidence: Evidence, now: Time)
    ensures SameJob(s, After(s, ConfirmSuccess(s, id, now)))
    ensures SameJob(s, After(s, ConfirmFailure(s, id, category, evidence, now)))
    ensures SameJob(s, After(s, ConfirmOutcomeUnknown(s, id, evidence, now)))
  {
    hide LockExecuting;
  }

  /** Outside jobs.py and the user's cancellation, only a decision and an expiry of a
      waiting run touch the job. */
  lemma OthersLeaveJob(s: Rows, step: Step, recoveryMax: int)
    requires !IsWorkerStep(step) && !(s.run.status == RunWaiting && (step.DoDecide? || step.DoSweep?))
    ensures SameJob(s, Next(s, step, recoveryMax))
  {
    hide PrepareAction, SupersedeAction, CancelAction, PrepareExecution, BeginSend, BeginReconciliation,
      AuthorizeResend, ConfirmSuccess, ConfirmFailure, ConfirmOutcomeUnknown, PutIfAbsent, FindIntent;
    match step
    case DoPrepareAction(_) => ActionsLeaveJob(s, step, recoveryMax);
    case DoSupersede(_, _) => ActionsLeaveJob(s, step, recoveryMax);
    case DoCancelAction(_, _, _, _) => ActionsLeaveJob(s, step, recoveryMax);
    case DoPrepareExecution(id, now) => ExecutionLeavesJob(s, id, 0, recoveryMax, now);
    case DoBeginSend(id, now) => ExecutionLeavesJob(s, id, 0, recoveryMax, now);
    case DoReconcile(id, now) => ExecutionLeavesJob(s, id, 0, recoveryMax, now);
    case DoResend(id, expected, now) => ExecutionLeavesJob(s, id, expected, recoveryMax, now);
    case DoConfirmSuccess(id, now) => ConfirmationLeavesJob(s, id, UserRequested, EXHAUSTED, now);
    case DoConfirmFailure(id, c, e, now) => ConfirmationLeavesJob(s, id, c, e, now);
    case DoConfirmUnknown(id, e, now) => ConfirmationLeavesJob(s, id, UserRequested, e, now);
    case _ =>
  }

  // ---- How the job row moves ------------------------------------------------

  /** Attempt and resume identity stay, a lease stays the same claim or is given up. */
  predicate Keeps(j: Job, k: Job)
  {
    && k.attempt == j.attempt && k.maxAttempts == j.maxAttempts && k.resumeRequest == j.resumeRequest
    && (k.lease.Some? ==> j.lease.Some? && k.lease.value.token == j.lease.value.token)
  }

  predicate Claims(s: Rows, t: Rows)
  {
    && s.job.status == JobQueued && t.job.status == JobLeased && t.job.lease.Some?
    && t.job.attempt == (if s.job.attempt < s.job.maxAttempts then s.job.attempt + 1 else s.job.attempt)
    && t.job.maxAttempts == s.job.maxAttempts && t.job.resumeRequest == s.job.resumeRequest
    && (forall h :: h in s.issued ==> h.token != t.job.lease.value.token)
  }

  predicate Wakes(j: Job, k: Job)
  {
    j.status == JobDone && j.resumeRequest == None
    && k.status == JobQueued && k.attempt == 0 && k.resumeRequest.Some? && k.lease == None
    && k.maxAttempts == j.maxAttempts
  }

  predicate JobMoves(s: Rows, t: Rows)
  {
    s.issued <= t.issued && (Keeps(s.job, t.job) || Claims(s, t) || Wakes(s.job, t.job))
  }

  lemma EndingLeavesJob(s: Rows, v: Jobs.Verdict, now: Time)
    ensures EndRun(s, v, now).job == s.job && EndRun(s, v, now).issued == s.issued
  {
  }

  lemma ConvergeMoves(s: Rows, i: nat, now: Time)
    requires i < |s.proposals|
    ensures var t := After(s, Converge(s, i, now)); Keeps(s.job, t.job) && t.issued == s.issued
  {
    hide ConvergedVerdict, TerminalTime;
  }

  lemma GiveUpMoves(s: Rows, i: nat, recoveryMax: int, now: Time, delay: Time)
    requires i < |s.proposals|
    ensures
      var t := After(s, GiveUpInDoubt(s, i, recoveryMax, now, delay)); Keeps(s.job, t.job) && t.issued == s.issued
  {
    hide TerminalTime;
  }

  lemma ClaimMoves(s: Rows, executable: set<int>, recoveryMax: int, worker: Actor, token: Token, now: Time,
                   duration: Time)
    requires FreshToken(s, token)
    ensures JobMoves(s, After(s, Claim(s, executable, recoveryMax, worker, token, now, duration)))
  {
    hide SomeRecoverable, FirstWith;
  }

  lemma PrepareJobMoves(s: Rows, h: ClaimedJob, executable: set<int>, now: Time)
    ensures var t := After(s, PrepareClaimedJob(s, h, executable, now)); Keeps(s.job, t.job) && t.issued == s.issued
  {
    hide Converge, FirstWith, ResumeFault, TerminalTime;
    var ended := FirstWith(s.proposals, {Failed, OutcomeUnknown});
    if ended.Some? { ConvergeMoves(s, ended.value, now); }
  }

  lemma FailMoves(s: Rows, h: ClaimedJob, category: Category, recoveryMax: int, now: Time, delay: Time)
    ensures
      var t := After(s, FailJob(s, h, category, recoveryMax, now, delay)); Keeps(s.job, t.job) && t.issued == s.issued
  {
    hide Converge, GiveUpInDoubt, FirstWith, MarkRunFailed, MarkRunCancelled;
    var f := FirstWith(s.proposals, {Executing, Succeeded, Failed, OutcomeUnknown});
    if f.Some? {
      ConvergeMoves(s, f.value, now);
      GiveUpMoves(s, f.value, recoveryMax, now, delay);
    }
    EndingLeavesJob(SetJob(s, JobDone, None), CancelRun(UserRequested), now);
    EndingLeavesJob(Append(SetJob(s, JobDead, Some(category)), JobDeadEvent(h.attempt, category)), FailRun(category),
                    now);
  }

  lemma CancelMoves(s: Rows, h: ClaimedJob, reason: Category, now: Time, delay: Time)
    ensures var t := After(s, CancelJob(s, h, reason, now, delay)); Keeps(s.job, t.job) && t.issued == s.issued
  {
    hide Converge, FirstWith, MarkRunCancelled;
    var f := FirstWith(s.proposals, {Executing, Failed, OutcomeUnknown});
    if f.Some? { ConvergeMoves(s, f.value, now); }
    var persisted := if s.run.cancelRequestedAt.Some? then UserRequested
                     else if !s.memberActive then AuthorizationRevoked else reason;
    EndingLeavesJob(SetJob(s, JobDone, None), CancelRun(persisted), now);
  }

  lemma IdleMoves(s: Rows, now: Time, delay: Time)
    ensures var t := After(s, ReclaimIdle(s, now, delay)); Keeps(s.job, t.job) && t.issued == s.issued
  {
    hide FindRequest, TerminalTime;
  }

  lemma ReclaimMoves(s: Rows, recoveryMax: int, now: Time, delay: Time)
    ensures var t := After(s, ReclaimOne(s, recoveryMax, now, delay)); Keeps(s.job, t.job) && t.issued == s.issued
  {
    hide Converge, GiveUpInDoubt, ReclaimIdle, FirstWith, TerminalTime;
    var f := FirstWith(s.proposals, {Executing, Succeeded, Failed, OutcomeUnknown});
    IdleMoves(Append(s, JobLeaseExpired(s.job.attempt)), now, delay);
    if f.Some? {
      ConvergeMoves(s, f.value, now);
      GiveUpMoves(Append(s, JobLeaseExpired(s.job.attempt)), f.value, recoveryMax, now, delay);
    }
  }

  lemma SmallMoves(s: Rows, step: Step, recoveryMax: int)
    requires step.DoHeartbeat? || step.DoComplete? || step.DoWait? || step.DoRequeue? || step.DoRelease?
    ensures var t := Next(s, step, recoveryMax); Keeps(s.job, t.job) && t.issued == s.issued
  {
    hide FirstWith, FindRequest, TerminalTime, PrepareAction, SupersedeAction, CancelAction, PrepareExecution,
      BeginSend, BeginReconciliation, AuthorizeResend, ConfirmSuccess, ConfirmFailure, ConfirmOutcomeUnknown,
      PutIfAbsent, FailJob, CancelJob, PrepareClaimedJob, ReclaimOne, CancelRunByUser, Claim, DecideApproval,
      SweepRequest;
  }

  lemma CancelRunMoves(s: Rows, authorized: bool, now: Time)
    ensures var t := After(s, CancelRunByUser(s, authorized, now)); Keeps(s.job, t.job) && t.issued == s.issued
  {
    hide FirstWith;
  }

  lemma WakingMoves(s: Rows, c: Decide, i: nat, now: Time, recoveryMax: int)
    requires Inv(s, recoveryMax) && s.run.status == RunWaiting
    ensures var t := After(s, DecideApproval(s, c)); JobMoves(s, t)
    ensures i < |s.proposals| ==> JobMoves(s, After(s, SweepRequest(s, i, now)))
  {
    hide ProposalsOk, OutsideOk, LogOk, ResumeOk, LeaseOk, RunOk, QueueOk, ActionsOk, FindIntent;
    if i < |s.proposals| && Due(s.proposals[i], now) { DueIsNewest(s, i, now, recoveryMax); }
  }

  lemma DueIsNewest(s: Rows, i: nat, now: Time, recoveryMax: int)
    requires Inv(s, recoveryMax) && i < |s.proposals| && Due(s.proposals[i], now)
    ensures i == |s.proposals| - 1
  {
    assert ProposalOk(s.proposals[i], recoveryMax);
  }

  /** Every step keeps the job's claim, makes a fresh one, or wakes a job that never resumed. */
  lemma StepMovesJob(s: Rows, step: Step, recoveryMax: int)
    requires Inv(s, recoveryMax) && Driven(s, step)
    ensures JobMoves(s, Next(s, step, recoveryMax))
  {
    hide Inv, PrepareAction, SupersedeAction, CancelAction, PrepareExecution, BeginSend, BeginReconciliation,
      AuthorizeResend, ConfirmSuccess, ConfirmFailure, ConfirmOutcomeUnknown, PutIfAbsent, DecideApproval,
      SweepRequest, PrepareClaimedJob, Heartbeat, Complete, WaitForApproval, Requeue, FailJob, CancelJob, Release,
      ReclaimOne, CancelRunByUser, Claim, ResendsOnce, BoundConsumed, PausesOnPending,
      CancelsInOrder, NewestIs, FreshRequest;
    match step
    case DoClaim(x, worker, token, now, duration) => ClaimMoves(s, x, recoveryMax, worker, token, now, duration);
    case DoPrepareJob(h, x, now) => PrepareJobMoves(s, h, x, now);
    case DoFail(h, c, now, delay) => FailMoves(s, h, c, recoveryMax, now, delay);
    case DoCancelJob(h, c, now, delay) => CancelMoves(s, h, c, now, delay);
    case DoReclaim(_, now, delay) => ReclaimMoves(s, recoveryMax, now, delay);
    case DoCancelRun(authorized, now) => CancelRunMoves(s, authorized, now);
    case DoDecide(c) =>
      if s.run.status == RunWaiting { WakingMoves(s, c, |s.proposals|, 0, recoveryMax); }
      else { OthersLeaveJob(s, step, recoveryMax); }
    case DoSweep(i, now) =>
      if s.run.status == RunWaiting { WakingMoves(s, Decide(0, false, false, 0, Reject, 0, 0), i, now, recoveryMax); }
      else { OthersLeaveJob(s, step, recoveryMax); }
    case _ =>
      if IsWorkerStep(step) { SmallMoves(s, step, recoveryMax); } else { OthersLeaveJob(s, step, recoveryMax); }
  }

  // ---- Fencing over whole runs ----------------------------------------------

  /** The job's lease, if any, is not this claim. */
  predicate Lost(job: Job, h: ClaimedJob) { job.lease.Some? ==> job.lease.value.token != h.token }

  /** A lease that was given up, reclaimed or overtaken is never valid again. */
  lemma {:induction false} LostForGood(states: seq<Rows>, steps: seq<Step>, recoveryMax: int, m: nat, n: nat,
                                       h: ClaimedJob)
    requires Trace(states, steps, recoveryMax) && m <= n < |states|
    requires h in states[m].issued && Lost(states[m].job, h)
    ensures h in states[n].issued && Lost(states[n].job, h)
    ensures forall now :: !ActiveLease(states[n].job, h, now)
    decreases n - m
  {
    hide Inv, Driven, Next, Initial;
    if m < n {
      LostForGood(states, steps, recoveryMax, m, n - 1, h);
      TraceIsGood(states, steps, recoveryMax, n - 1);
      assert Driven(states[n - 1], steps[n - 1]) && states[n - 1 + 1] == Next(states[n - 1], steps[n - 1], recoveryMax);
      StepMovesJob(states[n - 1], steps[n - 1], recoveryMax);
    }
  }

  /** A leased job row changes only by its holder, by a reclaim after its lease has expired,
      or by the user's cancellation of a run that is not running. */
  lemma LeasedRowIsTheHolders(s: Rows, step: Step, recoveryMax: int)
    requires Inv(s, recoveryMax) && s.job.status == JobLeased && Next(s, step, recoveryMax).job != s.job
    ensures
      || (IsHandleStep(step) && HoldsLease(s, step))
      || (step.DoReclaim? && s.job.lease.value.expiresAt <= step.now)
      || (step.DoCancelRun? && step.authorized && s.run.status in {RunQueued, RunWaiting})
  {
    hide PrepareAction, SupersedeAction, CancelAction, PrepareExecution, BeginSend, BeginReconciliation,
      AuthorizeResend, ConfirmSuccess, ConfirmFailure, ConfirmOutcomeUnknown, PutIfAbsent, PrepareClaimedJob, Heartbeat,
      Complete, WaitForApproval, Requeue, FailJob, CancelJob, Release, ReclaimOne, CancelWaiting, FirstWith, FindIntent,
      ProposalsOk, OutsideOk, LogOk, ResumeOk, LeaseOk, RunOk, QueueOk, WaitOk, SomeRecoverable;
    if IsHandleStep(step) {
      if !HoldsLease(s, step) { StaleHandleChangesNothing(s, step, recoveryMax); }
    } else if !IsWorkerStep(step) && !(s.run.status == RunWaiting && (step.DoDecide? || step.DoSweep?)) {
      OthersLeaveJob(s, step, recoveryMax);
    }
  }

  // ---- Bounded attempts and recovery ----------------------------------------

  /** A claim that uses up an attempt. */
  predicate OrdinaryClaim(s: Rows, t: Rows)
  {
    s.job.status == JobQueued && t.job.status == JobLeased && s.job.attempt < s.job.maxAttempts
  }

  function OrdinaryClaims(states: seq<Rows>, n: nat): nat
    requires n < |states|
  {
    if n == 0 then 0
    else OrdinaryClaims(states, n - 1) + (if OrdinaryClaim(states[n - 1], states[n]) then 1 else 0)
  }

  /** The attempts a job has used, those before its one wake-up counted in full. */
  function Spent(j: Job): int { j.attempt + (if j.resumeRequest.Some? then j.maxAttempts else 0) }

  lemma StepSpends(s: Rows, step: Step, recoveryMax: int)
    requires Inv(s, recoveryMax) && Driven(s, step) && 0 <= recoveryMax
    ensures
      var t := Next(s, step, recoveryMax);
      Spent(t.job) >= Spent(s.job) + (if OrdinaryClaim(s, t) then 1 else 0)
  {
    hide Next, Driven, ProposalsOk, OutsideOk, LogOk, ResumeOk, LeaseOk, RunOk, QueueOk, WaitOk, ActionsOk;
    StepMovesJob(s, step, recoveryMax);
    if OrdinaryClaim(s, Next(s, step, recoveryMax)) { NewLeaseIsClaim(s, step, recoveryMax); }
  }

  lemma NewLeaseIsClaim(s: Rows, step: Step, recoveryMax: int)
    requires Inv(s, recoveryMax) && Driven(s, step) && 0 <= recoveryMax
    requires s.job.status == JobQueued && Next(s, step, recoveryMax).job.status == JobLeased
    ensures Claims(s, Next(s, step, recoveryMax))
  {
    hide Next, Driven, ProposalsOk, OutsideOk, LogOk, ResumeOk, LeaseOk, RunOk, QueueOk, WaitOk, ActionsOk;
    StepMovesJob(s, step, recoveryMax);
    StepKeeps(s, step, recoveryMax);
  }

  /** In one run, however it crashes and retries, at most twice `maxAttempts` claims use up an
      attempt: `maxAttempts` before the one wake-up and as many after it. */
  lemma {:induction false} OrdinaryClaimsBounded(states: seq<Rows>, steps: seq<Step>, recoveryMax: int, n: nat)
    requires Trace(states, steps, recoveryMax) && n < |states|
    ensures OrdinaryClaims(states, n) <= Spent(states[n].job) <= 2 * states[n].job.maxAttempts
  {
    hide Driven, Next, ProposalsOk, OutsideOk, LogOk, ResumeOk, LeaseOk, RunOk, QueueOk, WaitOk, ActionsOk;
    TraceIsGood(states, steps, recoveryMax, n);
    if n > 0 {
      OrdinaryClaimsBounded(states, steps, recoveryMax, n - 1);
      TraceIsGood(states, steps, recoveryMax, n - 1);
      assert Driven(states[n - 1], steps[n - 1]) && states[n - 1 + 1] == Next(states[n - 1], steps[n - 1], recoveryMax);
      StepSpends(states[n - 1], steps[n - 1], recoveryMax);
    }
  }

  /** This step grants a reconciliation of the intent. */
  predicate Grants(s: Rows, step: Step, recoveryMax: int, id: IntentId)
  {
    step.DoReconcile? && step.id.intent == id
    && var o := BeginReconciliation(s, step.id, recoveryMax, step.now);
       o.Committed? && o.value.NetworkAllowed?
  }

  function Granted(states: seq<Rows>, steps: seq<Step>, recoveryMax: int, id: IntentId, n: nat): nat
    requires n <= |steps| && |states| == |steps| + 1
  {
    if n == 0 then 0 else
    Granted(states, steps, recoveryMax, id, n - 1) +
    (if Grants(states[n - 1], steps[n - 1], recoveryMax, id) then 1 else 0)
  }

  function RecoveriesOf(ps: seq<Proposal>, id: IntentId): int
  {
    var found := FindIntent(ps, id); if found.Some? then ps[found.value].intent.recoveryAttempts else 0
  }

  lemma StepGrants(s: Rows, step: Step, recoveryMax: int, id: IntentId)
    requires Inv(s, recoveryMax) && Inv(Next(s, step, recoveryMax), recoveryMax)
    ensures
      var t := Next(s, step, recoveryMax);
      RecoveriesOf(t.proposals, id) >= RecoveriesOf(s.proposals, id) + (if Grants(s, step, recoveryMax, id) then 1 else 0)
  {
    hide OutsideOk, LogOk, ResumeOk, LeaseOk, RunOk, QueueOk, WaitOk, ActionsOk, JobOk, Progress, RunEvolves,
      MarkUnknown, Perform;
    var t, found := Next(s, step, recoveryMax), FindIntent(s.proposals, id);
    StepIsLater(s, step, recoveryMax);
    if found.Some? {
      var i := found.value;
      assert Evolves(s.proposals[i], t.proposals[i]);
      FoundIsUnique(t.proposals, id, i);
      if Grants(s, step, recoveryMax, id) { ReconcilePerforms(s, step, recoveryMax); }
    } else {
      var later := FindIntent(t.proposals, id);
      if later.Some? { assert ProposalOk(t.proposals[later.value], recoveryMax); }
    }
  }

  lemma ReconcilePerforms(s: Rows, step: Step, recoveryMax: int)
    requires step.DoReconcile? && BeginReconciliation(s, step.id, recoveryMax, step.now).Committed?
    ensures Next(s, step, recoveryMax) == BeginReconciliation(s, step.id, recoveryMax, step.now).rows
  {
  }

  /** An intent is reconciled over the network at most `recoveryMax` times in all. */
  lemma {:induction false} ReconciliationsBounded(states: seq<Rows>, steps: seq<Step>, recoveryMax: int, id: IntentId,
                                                  n: nat)
    requires Trace(states, steps, recoveryMax) && n < |states|
    ensures Granted(states, steps, recoveryMax, id, n) <= RecoveriesOf(states[n].proposals, id) <= recoveryMax
  {
    hide Driven, Next, OutsideOk, LogOk, ResumeOk, LeaseOk, RunOk, QueueOk, WaitOk, ActionsOk, Grants;
    TraceIsGood(states, steps, recoveryMax, n);
    var found := FindIntent(states[n].proposals, id);
    if found.Some? { assert ProposalOk(states[n].proposals[found.value], recoveryMax); }
    if n > 0 {
      ReconciliationsBounded(states, steps, recoveryMax, id, n - 1);
      TraceIsGood(states, steps, recoveryMax, n - 1);
      assert states[n - 1 + 1] == Next(states[n - 1], steps[n - 1], recoveryMax);
      StepGrants(states[n - 1], steps[n - 1], recoveryMax, id);
    }
  }

  // ---- Terminal runs --------------------------------------------------------

  /** A run that has ended stays exactly as it ended, with exactly one terminal event and
      consecutive event numbers. */
  lemma TerminalIsFinal(states: seq<Rows>, steps: seq<Step>, recoveryMax: int, m: nat, n: nat)
    requires Trace(states, steps, recoveryMax) && m <= n < |states| && Terminal(states[m].run.status)
    ensures
      var r, t := states[m].run, states[n].run;
      && t.status == r.status && t.finishedAt == r.finishedAt && t.errorCategory == r.errorCategory
      && t.hasResult == r.hasResult && r.finishedAt.Some?
      && (r.startedAt.Some? ==> r.finishedAt.value >= r.startedAt.value)
      && (r.cancelRequestedAt.Some? ==> r.finishedAt.value >= r.cancelRequestedAt.value)
    ensures TerminalEvents(states[n].events) == 1 && Numbered(states[n].run.nextEventSeq, states[n].events)
    ensures states[m].events <= states[n].events
  {
    hide Trace, ProposalsEvolve;
    TraceIsGood(states, steps, recoveryMax, m);
    TraceIsGood(states, steps, recoveryMax, n);
    TraceIsLater(states, steps, recoveryMax, m, n);
  }

  /** Cancelling a waiting run keeps the time order of the run's row exactly if the clock
      has not run behind the pending cancellation request. */
  lemma CancelTimeOrder(s: Rows, now: Time, recoveryMax: int)
    requires Inv(s, recoveryMax) && s.run.status == RunWaiting
    ensures
      var o := CancelRunByUser(s, true, now);
      o.Committed? && o.rows.run.status == RunCancelled && (RunOk(o.rows.run) <==> CancelsInOrder(s, now))
  {
    hide OutsideOk, LogOk, ResumeOk, LeaseOk, ActionsOk, QueueOk, JobOk, FirstWith, Recovery, DecisionsOk;
    FirstExecutingIsNewest(s, {Proposed, Authorized}, recoveryMax);
  }
}
