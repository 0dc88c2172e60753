/** The labelled transition system of one run: every store call, the user, the network and
    the membership as steps, in any order. */
module Protocol {
  import opened Options
  import opened Rows
  import opened Actions
  import opened Approvals
  import opened ActionExecution
  import opened Jobs
  import opened Invariant
  import opened ExecutionProofs
  import opened JobProofs
  import opened ActionProofs

  datatype Step =
    // actions.py
    | DoPrepareAction(propose: Propose)
    | DoSupersede(old_: IntentId, propose: Propose)
    | DoCancelAction(tenant: Tenant, intent: IntentId, request: RequestId, rejected: bool)
    // approvals.py, approval_expiry.py
    | DoDecide(decide: Decide)
    | DoSweep(i: nat, now: Time)
    // action_execution.py
    | DoPrepareExecution(id: Identity, now: Time)
    | DoBeginSend(id: Identity, now: Time)
    | DoReconcile(id: Identity, now: Time)
    | DoResend(id: Identity, expected: int, now: Time)
    | DoConfirmSuccess(id: Identity, now: Time)
    | DoConfirmFailure(id: Identity, category: Category, evidence: Evidence, now: Time)
    | DoConfirmUnknown(id: Identity, evidence: Evidence, now: Time)
    // jobs.py
    | DoClaim(executable: set<int>, worker: Actor, token: Token, now: Time, duration: Time)
    | DoPrepareJob(h: ClaimedJob, executable: set<int>, now: Time)
    | DoHeartbeat(h: ClaimedJob, now: Time, duration: Time)
    | DoComplete(h: ClaimedJob, publishes: bool, now: Time)
    | DoWait(h: ClaimedJob, request: RequestId, now: Time)
    | DoRequeue(h: ClaimedJob, category: Category, now: Time, delay: Time)
    | DoFail(h: ClaimedJob, category: Category, now: Time, delay: Time)
    | DoCancelJob(h: ClaimedJob, category: Category, now: Time, delay: Time)
    | DoRelease(h: ClaimedJob, category: Category, now: Time, delay: Time)
    | DoReclaim(executable: set<int>, now: Time, delay: Time)
    // runs.py, the environment
    | DoCancelRun(authorized: bool, now: Time)
    | Revoke
    | Deliver(message: Message)
    | Lose(message: Message)
    | DoAgentEvent(code: nat)

  /** An outcome without its answer. */
  function Plain<T>(o: Outcome<T>): Outcome<()>
  {
    match o
    case Committed(rows, _) => Committed(rows, ())
    case Raised(fault) => Raised(fault)
  }

  function Perform(s: Rows, step: Step, recoveryMax: int): Outcome<()>
  {
    match step
    case DoPrepareAction(c) => Plain(PrepareAction(s, c))
    case DoSupersede(old_, c) => Plain(SupersedeAction(s, old_, c))
    case DoCancelAction(t, i, r, rejected) => Plain(CancelAction(s, t, i, r, rejected))
    case DoDecide(c) => Plain(DecideApproval(s, c))
    case DoSweep(i, now) => if i < |s.proposals| then Plain(SweepRequest(s, i, now)) else Committed(s, ())
    case DoPrepareExecution(id, now) => Plain(PrepareExecution(s, id, now))
    case DoBeginSend(id, now) => Plain(BeginSend(s, id, now))
    case DoReconcile(id, now) => Plain(BeginReconciliation(s, id, recoveryMax, now))
    case DoResend(id, expected, now) => Plain(AuthorizeResend(s, id, expected, now))
    case DoConfirmSuccess(id, now) => Plain(ConfirmSuccess(s, id, now))
    case DoConfirmFailure(id, c, e, now) => Plain(ConfirmFailure(s, id, c, e, now))
    case DoConfirmUnknown(id, e, now) => Plain(ConfirmOutcomeUnknown(s, id, e, now))
    case DoClaim(x, w, token, now, d) => Plain(Claim(s, x, recoveryMax, w, token, now, d))
    case DoPrepareJob(h, x, now) => Plain(PrepareClaimedJob(s, h, x, now))
    case DoHeartbeat(h, now, d) => Plain(Heartbeat(s, h, now, d))
    case DoComplete(h, publishes, now) => Plain(Complete(s, h, publishes, now))
    case DoWait(h, r, now) => Plain(WaitForApproval(s, h, r, now))
    case DoRequeue(h, c, now, delay) => Plain(Requeue(s, h, c, now, delay))
    case DoFail(h, c, now, delay) => Plain(FailJob(s, h, c, recoveryMax, now, delay))
    case DoCancelJob(h, c, now, delay) => Plain(CancelJob(s, h, c, now, delay))
    case DoRelease(h, c, now, delay) => Plain(Release(s, h, c, now, delay))
    case DoReclaim(x, now, delay) =>
      if Stale(s, x, now) then Plain(ReclaimOne(s, recoveryMax, now, delay)) else Committed(s, ())
    case DoCancelRun(authorized, now) => Plain(CancelRunByUser(s, authorized, now))
    case Revoke => Committed(s.(memberActive := false), ())
    case Deliver(m) => Committed(if m in s.wire then s.(portal := PutIfAbsent(s.portal, m).0) else s, ())
    case Lose(m) => Committed(s.(wire := s.wire - {m}), ())
    case DoAgentEvent(code) => Committed(Append(s, AgentEvent(code)), ())
  }

  function Next(s: Rows, step: Step, recoveryMax: int): Rows { After(s, Perform(s, step, recoveryMax)) }

  predicate BoundConsumed(s: Rows, id: Identity)
  {
    var b := LockBoundRows(s, id);
    b.Bound? ==> s.proposals[b.i].request.value.status == Consumed
  }

  /** What the callers of the stores guarantee: identities are fresh, claims were handed
      out, and calls come in the order in which the runner and the graph make them. */
  predicate Driven(s: Rows, step: Step)
  {
    match step
    case DoPrepareAction(c) => FreshRequest(s, c.request)
    case DoSupersede(_, c) => FreshRequest(s, c.request)
    case DoCancelAction(_, _, _, _) => s.run.status != RunWaiting
    case DoPrepareExecution(_, _) => s.run.status == RunWaiting ==> s.memberActive
    case DoBeginSend(id, _) => BoundConsumed(s, id)
    case DoReconcile(id, _) => BoundConsumed(s, id)
    case DoResend(id, expected, _) => BoundConsumed(s, id) && ResendsOnce(s, id, expected)
    case DoConfirmSuccess(id, _) => BoundConsumed(s, id)
    case DoConfirmFailure(id, _, _, _) => BoundConsumed(s, id)
    case DoConfirmUnknown(id, _, _) => BoundConsumed(s, id)
    case DoClaim(_, _, token, _, _) => FreshToken(s, token)
    case DoPrepareJob(h, executable, _) => h in s.issued && s.run.graphVersion in executable
    case DoHeartbeat(h, _, _) => h in s.issued
    case DoComplete(h, _, _) => h in s.issued && s.executing == Some(h.token) && !NewestIs(s.proposals, Executing)
    case DoWait(h, request, now) =>
      h in s.issued && s.executing == Some(h.token) && PausesOnPending(s, request)
      && FindRequest(s.proposals, request).Some?
    case DoRequeue(h, _, _, _) => h in s.issued && h.attempt < h.maxAttempts
    case DoFail(h, _, _, _) => h in s.issued
    case DoCancelJob(h, _, _, _) => h in s.issued
    case DoRelease(h, _, _, _) => h in s.issued
    case DoCancelRun(_, now) => CancelsInOrder(s, now)
    case _ => true
  }

  /** A run just created with its job and its first event. */
  predicate Initial(s: Rows)
  {
    && s.run.status == RunQueued && RunOk(s.run)
    && s.job.status == JobQueued && s.job.attempt == 0 && s.job.maxAttempts > 0 && s.job.lease == None
    && s.job.resumeRequest == None
    && s.proposals == [] && s.wire == {} && s.portal == []
    && s.events == [Event(1, RunCreatedEvent)] && s.run.nextEventSeq == 2
    && s.issued == {} && s.executing == None
  }

  lemma InitialIsGood(s: Rows, recoveryMax: int)
    requires Initial(s)
    ensures Inv(s, recoveryMax)
  {
    assert s.events[..0] == [];
    assert TerminalEvents(s.events) == TerminalEvents(s.events[..0]);
  }

  predicate IsWorkerStep(step: Step)
  {
    step.DoClaim? || step.DoPrepareJob? || step.DoHeartbeat? || step.DoComplete? || step.DoWait? || step.DoRequeue?
    || step.DoFail? || step.DoCancelJob? || step.DoRelease? || step.DoReclaim? || step.DoCancelRun?
  }

  lemma WorkerStepKeeps(s: Rows, step: Step, recoveryMax: int)
    requires Inv(s, recoveryMax) && Driven(s, step) && IsWorkerStep(step)
    ensures Inv(Next(s, step, recoveryMax), recoveryMax)
  {
    hide Inv, Claim, PrepareClaimedJob, Heartbeat, Complete, WaitForApproval, Requeue, FailJob, CancelJob, Release,
      ReclaimOne, CancelRunByUser, FreshToken, PausesOnPending, CancelsInOrder, NewestIs,
      FindRequest, Stale, ActiveLease;
    match step
    case DoClaim(x, w, token, now, d) => ClaimKeeps(s, x, w, token, now, d, recoveryMax);
    case DoPrepareJob(h, x, now) => PrepareClaimedJobKeeps(s, h, x, now, recoveryMax);
    case DoHeartbeat(h, now, d) => HeartbeatKeeps(s, h, now, d, recoveryMax);
    case DoComplete(h, publishes, now) => CompleteKeeps(s, h, publishes, now, recoveryMax);
    case DoWait(h, r, now) => WaitForApprovalKeeps(s, h, r, now, recoveryMax);
    case DoRequeue(h, c, now, delay) =>
      RetryHasAttempts(s, h, now, recoveryMax);
      RequeueStepKeeps(s, h, c, now, delay, recoveryMax);
    case DoFail(h, c, now, delay) => FailJobKeeps(s, h, c, now, delay, recoveryMax);
    case DoCancelJob(h, c, now, delay) => CancelJobKeeps(s, h, c, now, delay, recoveryMax);
    case DoRelease(h, c, now, delay) => ReleaseKeeps(s, h, c, now, delay, recoveryMax);
    case DoReclaim(x, now, delay) => if Stale(s, x, now) { ReclaimOneKeeps(s, x, now, delay, recoveryMax); }
    case DoCancelRun(authorized, now) => CancelRunKeeps(s, authorized, now, recoveryMax);
  }

  /** Every step of every party keeps the invariant. */
  lemma StepKeeps(s: Rows, step: Step, recoveryMax: int)
    requires Inv(s, recoveryMax) && Driven(s, step) && 0 <= recoveryMax
    ensures Inv(Next(s, step, recoveryMax), recoveryMax)
  {
    hide Inv, PrepareAction, SupersedeAction, CancelAction, DecideApproval, SweepRequest, PrepareExecution, BeginSend,
      BeginReconciliation, AuthorizeResend, ConfirmSuccess, ConfirmFailure, ConfirmOutcomeUnknown, Claim,
      PrepareClaimedJob, Heartbeat, Complete, WaitForApproval, Requeue, FailJob, CancelJob, Release, ReclaimOne,
      CancelRunByUser, PutIfAbsent, FreshRequest, ResendsOnce, ResendFits, BoundConsumed;
    if IsWorkerStep(step) {
      WorkerStepKeeps(s, step, recoveryMax);
    } else {
      match step
      case DoPrepareAction(c) => PrepareActionKeeps(s, c, recoveryMax);
      case DoSupersede(old_, c) => SupersedeActionKeeps(s, old_, c, recoveryMax);
      case DoCancelAction(t, i, r, rejected) => CancelActionKeeps(s, t, i, r, rejected, recoveryMax);
      case DoDecide(c) => DecideApprovalKeeps(s, c, recoveryMax);
      case DoSweep(i, now) => if i < |s.proposals| { SweepRequestKeeps(s, i, now, recoveryMax); }
      case DoPrepareExecution(id, now) => PrepareExecutionKeeps(s, id, now, recoveryMax);
      case DoBeginSend(id, now) => BeginSendKeeps(s, id, now, recoveryMax);
      case DoReconcile(id, now) => BeginReconciliationKeeps(s, id, now, recoveryMax);
      case DoResend(id, expected, now) =>
        OneResendFits(s, id, expected, now, recoveryMax);
        AuthorizeResendKeeps(s, id, expected, now, recoveryMax);
      case DoConfirmSuccess(id, now) => ConfirmSuccessKeeps(s, id, now, recoveryMax);
      case DoConfirmFailure(id, c, e, now) => ConfirmFailureKeeps(s, id, c, e, now, recoveryMax);
      case DoConfirmUnknown(id, e, now) => ConfirmOutcomeUnknownKeeps(s, id, e, now, recoveryMax);
      case Revoke => RevokeKeeps(s, recoveryMax);
      case Deliver(m) => if m in s.wire { DeliverKeeps(s, m, recoveryMax); }
      case Lose(m) => LoseKeeps(s, m, recoveryMax);
      case DoAgentEvent(code) => AppendKeeps(s, AgentEvent(code), recoveryMax);
    }
  }

  lemma RevokeKeeps(s: Rows, recoveryMax: int)
    requires Inv(s, recoveryMax)
    ensures Inv(s.(memberActive := false), recoveryMax)
  {
  }

  lemma LoseKeeps(s: Rows, m: Message, recoveryMax: int)
    requires Inv(s, recoveryMax)
    ensures Inv(s.(wire := s.wire - {m}), recoveryMax)
  {
  }

  // ---- Runs of the protocol -------------------------------------------------

  /** A stretch of a run, from any rows on. */
  ghost predicate Continues(states: seq<Rows>, steps: seq<Step>, recoveryMax: int)
  {
    && |states| == |steps| + 1 && 0 <= recoveryMax
    && forall i :: 0 <= i < |steps| ==>
         Driven(states[i], steps[i]) && states[i + 1] == Next(states[i], steps[i], recoveryMax)
  }

  lemma StepFirst(s: Rows, step: Step, states: seq<Rows>, steps: seq<Step>, recoveryMax: int)
    requires Continues(states, steps, recoveryMax) && Driven(s, step) && states[0] == Next(s, step, recoveryMax)
    ensures Continues([s] + states, [step] + steps, recoveryMax)
  {
    hide Driven, Next;
    var more, taken := [s] + states, [step] + steps;
    forall i | 0 <= i < |taken|
      ensures Driven(more[i], taken[i]) && more[i + 1] == Next(more[i], taken[i], recoveryMax)
    {
      if i > 0 {
        assert Driven(states[i - 1], steps[i - 1]) && states[i - 1 + 1] == Next(states[i - 1], steps[i - 1], recoveryMax);
      }
    }
  }

  ghost predicate Trace(states: seq<Rows>, steps: seq<Step>, recoveryMax: int)
  {
    Continues(states, steps, recoveryMax) && Initial(states[0])
  }

  /** Safety of whole runs: the invariant holds after every interleaving of steps. */
  lemma {:induction false} TraceIsGood(states: seq<Rows>, steps: seq<Step>, recoveryMax: int, n: nat)
    requires Trace(states, steps, recoveryMax) && n < |states|
    ensures Inv(states[n], recoveryMax)
  {
    hide Inv, Driven, Next, Initial;
    if n == 0 {
      InitialIsGood(states[0], recoveryMax);
    } else {
      TraceIsGood(states, steps, recoveryMax, n - 1);
      assert Driven(states[n - 1], steps[n - 1]) && states[n - 1 + 1] == Next(states[n - 1], steps[n - 1], recoveryMax);
      StepKeeps(states[n - 1], steps[n - 1], recoveryMax);
    }
  }
}
