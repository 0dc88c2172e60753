/** What a recorded outcome means for the outside world: nothing is sent after it, and exactly
    when a submission can still appear. */
module Settlement {
  import opened Options
  import opened Rows
  import opened Actions
  import opened Approvals
  import opened ActionExecution
  import opened Jobs
  import opened Invariant
  import opened ExecutionProofs
  import opened JobProofs
  import opened ActionProofs
  import opened Protocol
  import opened Evolution

  /** The newest action has an outcome, or was given up before it was sent. */
  predicate Closed(ps: seq<Proposal>)
  {
    ps != [] && Newest(ps).intent.status in {Succeeded, Failed, OutcomeUnknown, Cancelled}
  }

  // ---- Steps and the outside world ------------------------------------------

  predicate SameOutside(s: Rows, t: Rows) { t.wire == s.wire && t.portal == s.portal }

  lemma InsertIsInside(s: Rows, c: Propose, allowCreate: bool)
    ensures SameOutside(s, After(s, InsertProposal(s, c, allowCreate)))
  {
    hide FindIntent, FindRevision, EventsAbout;
  }

  lemma ActionsAreInside(s: Rows, step: Step, recoveryMax: int)
    requires step.DoPrepareAction? || step.DoSupersede? || step.DoCancelAction?
    ensures SameOutside(s, Next(s, step, recoveryMax))
  {
    hide FindIntent, EventsAbout, InsertProposal;
    match step
    case DoPrepareAction(c) => InsertIsInside(s, c, true);
    case DoSupersede(old_, c) =>
      InsertIsInside(s, c, false);
      var found := FindIntent(s.proposals, old_);
      if found.Some? && s.proposals[found.value].request.Some? {
        InsertIsInside(Retire(s, found.value), c, true);
      }
    case DoCancelAction(_, _, _, _) =>
  }

  lemma ConvergingIsInside(s: Rows, i: nat, recoveryMax: int, now: Time, delay: Time)
    requires i < |s.proposals|
    ensures SameOutside(s, After(s, Converge(s, i, now)))
    ensures SameOutside(s, After(s, GiveUpInDoubt(s, i, recoveryMax, now, delay)))
  {
    hide ConvergedVerdict, TerminalTime;
  }

  lemma ClosingIsInside(s: Rows, h: ClaimedJob, executable: set<int>, reason: Category, now: Time, delay: Time)
    ensures SameOutside(s, After(s, PrepareClaimedJob(s, h, executable, now)))
    ensures SameOutside(s, After(s, CancelJob(s, h, reason, now, delay)))
  {
    hide FirstWith, FindRequest, ResumeFault, Converge, TerminalTime, ActiveLease;
    var a := FirstWith(s.proposals, {Failed, OutcomeUnknown});
    var b := FirstWith(s.proposals, {Executing, Failed, OutcomeUnknown});
    if a.Some? { ConvergingIsInside(s, a.value, 0, now, delay); }
    if b.Some? { ConvergingIsInside(s, b.value, 0, now, delay); }
  }

  lemma FailingIsInside(s: Rows, h: ClaimedJob, category: Category, recoveryMax: int, now: Time, delay: Time)
    ensures SameOutside(s, After(s, FailJob(s, h, category, recoveryMax, now, delay)))
  {
    hide FirstWith, Converge, GiveUpInDoubt, TerminalTime, ActiveLease;
    var found := FirstWith(s.proposals, ACTED);
    if found.Some? { ConvergingIsInside(s, found.value, recoveryMax, now, delay); }
  }

  lemma ReclaimingIsInside(s: Rows, recoveryMax: int, now: Time, delay: Time)
    ensures SameOutside(s, After(s, ReclaimOne(s, recoveryMax, now, delay)))
  {
    hide FirstWith, FindRequest, Converge, GiveUpInDoubt, TerminalTime;
    var t, found := Append(s, JobLeaseExpired(s.job.attempt)), FirstWith(s.proposals, ACTED);
    if found.Some? {
      ConvergingIsInside(s, found.value, recoveryMax, now, delay);
      ConvergingIsInside(t, found.value, recoveryMax, now, delay);
    }
  }

  lemma HoldingIsInside(s: Rows, h: ClaimedJob, category: Category, publishes: bool, request: RequestId, now: Time,
                        span: Time)
    ensures SameOutside(s, After(s, Heartbeat(s, h, now, span)))
    ensures SameOutside(s, After(s, Complete(s, h, publishes, now)))
    ensures SameOutside(s, After(s, WaitForApproval(s, h, request, now)))
    ensures SameOutside(s, After(s, Requeue(s, h, category, now, span)))
    ensures SameOutside(s, After(s, Release(s, h, category, now, span)))
  {
    hide FirstWith, FindRequest, TerminalTime, ActiveLease;
  }

  lemma EdgesAreInside(s: Rows, executable: set<int>, recoveryMax: int, worker: Actor, token: Token, now: Time,
                       duration: Time, authorized: bool)
    ensures SameOutside(s, After(s, Claim(s, executable, recoveryMax, worker, token, now, duration)))
    ensures SameOutside(s, After(s, CancelRunByUser(s, authorized, now)))
  {
    hide FirstWith, SomeRecoverable;
  }

  lemma WorkersAreInside(s: Rows, step: Step, recoveryMax: int)
    requires IsWorkerStep(step)
    ensures SameOutside(s, Next(s, step, recoveryMax))
  {
    hide PrepareClaimedJob, FailJob, CancelJob, ReclaimOne, Heartbeat, Complete,
      WaitForApproval, Requeue, Release, CancelRunByUser, Claim, PrepareAction, SupersedeAction, CancelAction,
      PrepareExecution, BeginSend, BeginReconciliation, AuthorizeResend, ConfirmSuccess, ConfirmFailure,
      ConfirmOutcomeUnknown, PutIfAbsent, DecideApproval, SweepRequest;
    match step
    case DoClaim(x, worker, token, now, d) => EdgesAreInside(s, x, recoveryMax, worker, token, now, d, false);
    case DoCancelRun(authorized, now) => EdgesAreInside(s, {}, recoveryMax, 0, 0, now, 0, authorized);
    case DoPrepareJob(h, x, now) => ClosingIsInside(s, h, x, UserRequested, now, 0);
    case DoCancelJob(h, c, now, delay) => ClosingIsInside(s, h, {}, c, now, delay);
    case DoFail(h, c, now, delay) => FailingIsInside(s, h, c, recoveryMax, now, delay);
    case DoReclaim(_, now, delay) => ReclaimingIsInside(s, recoveryMax, now, delay);
    case DoHeartbeat(h, now, d) => HoldingIsInside(s, h, UserRequested, false, 0, now, d);
    case DoComplete(h, publishes, now) => HoldingIsInside(s, h, UserRequested, publishes, 0, now, 0);
    case DoWait(h, r, now) => HoldingIsInside(s, h, UserRequested, false, r, now, 0);
    case DoRequeue(h, c, now, delay) => HoldingIsInside(s, h, c, false, 0, now, delay);
    case DoRelease(h, c, now, delay) => HoldingIsInside(s, h, c, false, 0, now, delay);
  }

  lemma RestIsInside(s: Rows, step: Step, recoveryMax: int)
    requires !IsWorkerStep(step) && !step.DoPrepareAction? && !step.DoSupersede? && !step.DoCancelAction?
    requires !step.DoBeginSend? && !step.DoResend? && !step.Deliver? && !step.Lose?
    ensures SameOutside(s, Next(s, step, recoveryMax))
  {
    hide FindIntent, LockBoundRows, LockExecuting, ApproveCount, OwnDecision;
  }

  /** Only the two authorizations put a call on the wire. */
  lemma OthersSendNothing(s: Rows, step: Step, recoveryMax: int)
    requires !step.DoBeginSend? && !step.DoResend?
    ensures Next(s, step, recoveryMax).wire <= s.wire
    ensures !step.Deliver? ==> Next(s, step, recoveryMax).portal == s.portal
  {
    hide Next;
    if IsWorkerStep(step) {
      WorkersAreInside(s, step, recoveryMax);
    } else if step.DoPrepareAction? || step.DoSupersede? || step.DoCancelAction? {
      ActionsAreInside(s, step, recoveryMax);
    } else if step.Deliver? || step.Lose? {
      NetworkMoves(s, step, recoveryMax);
    } else {
      RestIsInside(s, step, recoveryMax);
    }
  }

  lemma NetworkMoves(s: Rows, step: Step, recoveryMax: int)
    requires step.Deliver? || step.Lose?
    ensures
      var t := Next(s, step, recoveryMax);
      t.proposals == s.proposals && t.wire <= s.wire && (s.wire == {} || step.Lose? ==> t.portal == s.portal)
  {
    hide PutIfAbsent;
  }

  lemma ClosedIsNotActed(s: Rows, i: nat, recoveryMax: int)
    requires Inv(s, recoveryMax) && Closed(s.proposals) && i < |s.proposals|
    ensures s.proposals[i].intent.status !in {Authorized, Executing}
  {
    hide OutsideOk, LogOk, ResumeOk, LeaseOk, RunOk, QueueOk, WaitOk, JobOk, Progress, ActionsOk, ProposalOk;
  }

  lemma ClosedIsNotSent(s: Rows, id: Identity, now: Time, recoveryMax: int)
    requires Inv(s, recoveryMax) && Closed(s.proposals)
    ensures SameOutside(s, After(s, BeginSend(s, id, now)))
  {
    hide Inv, Closed, LockBoundRows;
    var b := LockBoundRows(s, id);
    if b.Bound? { ClosedIsNotActed(s, b.i, recoveryMax); }
  }

  lemma ClosedIsNotResent(s: Rows, id: Identity, expected: int, now: Time, recoveryMax: int)
    requires Inv(s, recoveryMax) && Closed(s.proposals)
    ensures SameOutside(s, After(s, AuthorizeResend(s, id, expected, now)))
  {
    hide Inv, Closed, LockExecuting;
    var b := LockExecuting(s, id, false);
    if b.Bound? { ClosedIsNotActed(s, b.i, recoveryMax); }
  }

  /** Neither authorization is possible once the newest action is closed. */
  lemma ClosedSendsNothing(s: Rows, step: Step, recoveryMax: int)
    requires Inv(s, recoveryMax) && Closed(s.proposals)
    ensures Next(s, step, recoveryMax).wire <= s.wire
    ensures s.wire == {} ==> Next(s, step, recoveryMax).portal == s.portal
  {
    if step.DoBeginSend? {
      ClosedIsNotSent(s, step.id, step.now, recoveryMax);
      hide Inv, Closed, BeginSend;
    } else if step.DoResend? {
      ClosedIsNotResent(s, step.id, step.expected, step.now, recoveryMax);
      hide Inv, Closed, AuthorizeResend;
    } else {
      hide Inv, Next;
      OthersSendNothing(s, step, recoveryMax);
      if step.Deliver? { NetworkMoves(s, step, recoveryMax); }
    }
  }

  // ---- A closed action stays the newest -------------------------------------

  lemma ClosedInsertsNothing(s: Rows, c: Propose, allowCreate: bool, recoveryMax: int)
    requires Inv(s, recoveryMax) && (allowCreate ==> 1 <= c.revision <= |s.proposals|)
    ensures |After(s, InsertProposal(s, c, allowCreate)).proposals| == |s.proposals|
  {
    hide EventsAbout, FindIntent;
    if allowCreate { RevisionIsPosition(s, c.revision, recoveryMax); }
  }

  lemma ClosedIsNotProposed(s: Rows, c: Propose, recoveryMax: int)
    requires Inv(s, recoveryMax) && Closed(s.proposals)
    ensures |After(s, PrepareAction(s, c)).proposals| == |s.proposals|
  {
    if c.revision == INITIAL_ACTION_REVISION { ClosedInsertsNothing(s, c, true, recoveryMax); }
    hide Inv, InsertProposal;
  }

  lemma CancellingInsertsNothing(s: Rows, step: Step, recoveryMax: int)
    requires step.DoCancelAction? || step.DoCancelRun?
    ensures |Next(s, step, recoveryMax).proposals| == |s.proposals|
  {
    hide FindIntent, EventsAbout, FirstWith, ExactBinding, TerminalTime;
  }

  lemma ClosedIsLast(s: Rows, step: Step, recoveryMax: int)
    requires Inv(s, recoveryMax) && Closed(s.proposals)
    ensures |Next(s, step, recoveryMax).proposals| == |s.proposals|
  {
    if step.DoPrepareAction? {
      ClosedIsNotProposed(s, step.propose, recoveryMax);
      hide Inv, PrepareAction;
    } else if step.DoSupersede? {
      ClosedIsNotReplaced(s, step.old_, step.propose, recoveryMax);
      hide Inv, SupersedeAction;
    } else if step.DoCancelAction? || step.DoCancelRun? {
      CancellingInsertsNothing(s, step, recoveryMax);
    } else {
      hide Inv, Next;
      StepIsLater(s, step, recoveryMax);
    }
  }

  lemma ClosedIsNotReplaced(s: Rows, old_: IntentId, c: Propose, recoveryMax: int)
    requires Inv(s, recoveryMax) && Closed(s.proposals)
    ensures |After(s, SupersedeAction(s, old_, c)).proposals| == |s.proposals|
  {
    hide OutsideOk, LogOk, ResumeOk, LeaseOk, RunOk, QueueOk, WaitOk, JobOk, Progress, ActionsOk, ProposalOk,
      FindIntent, EventsAbout, InsertProposal, Retire;
    var found := FindIntent(s.proposals, old_);
    if found.Some? && s.proposals[found.value].intent.status == Cancelled {
      ClosedInsertsNothing(s, c, false, recoveryMax);
    }
  }

  lemma ClosedStays(s: Rows, step: Step, recoveryMax: int)
    requires Inv(s, recoveryMax) && Closed(s.proposals)
    ensures
      var t := Next(s, step, recoveryMax);
      && |t.proposals| == |s.proposals|
      && Newest(t.proposals).intent.id == Newest(s.proposals).intent.id
      && Newest(t.proposals).intent.status == Newest(s.proposals).intent.status
  {
    hide Inv, Next, RunEvolves;
    var t := Next(s, step, recoveryMax);
    ClosedIsLast(s, step, recoveryMax);
    StepIsLater(s, step, recoveryMax);
    assert Evolves(Newest(s.proposals), t.proposals[|s.proposals| - 1]);
  }

  // ---- Whole runs -----------------------------------------------------------

  /** From a closed action on: it stays the newest with the same outcome, what is on the wire was
      there before, and without anything there the portal stays as it is. */
  lemma {:induction false} ClosedForGood(states: seq<Rows>, steps: seq<Step>, recoveryMax: int, m: nat, n: nat)
    requires Continues(states, steps, recoveryMax) && m <= n < |states|
    requires Inv(states[m], recoveryMax) && Closed(states[m].proposals)
    ensures
      var s, t := states[m], states[n];
      && Inv(t, recoveryMax) && |t.proposals| == |s.proposals|
      && Newest(t.proposals).intent.id == Newest(s.proposals).intent.id
      && Newest(t.proposals).intent.status == Newest(s.proposals).intent.status
      && t.wire <= s.wire && (s.wire == {} ==> t.portal == s.portal)
    decreases n - m
  {
    hide Inv, Driven, Next;
    if m < n {
      ClosedForGood(states, steps, recoveryMax, m, n - 1);
      var s, step := states[n - 1], steps[n - 1];
      assert Driven(s, step) && states[n - 1 + 1] == Next(s, step, recoveryMax);
      StepKeeps(s, step, recoveryMax);
      ClosedStays(s, step, recoveryMax);
      ClosedSendsNothing(s, step, recoveryMax);
    }
  }

  /** Once the outcome of a call is recorded, the recorded outcome is final and no call is
      authorized any more, barred or not. */
  lemma SettledSendsNothing(states: seq<Rows>, steps: seq<Step>, recoveryMax: int, m: nat, n: nat)
    requires Trace(states, steps, recoveryMax) && m <= n < |states| && Closed(states[m].proposals)
    ensures
      var s, t := states[m], states[n];
      && |t.proposals| == |s.proposals| && Newest(t.proposals).intent.status == Newest(s.proposals).intent.status
      && t.wire <= s.wire
  {
    hide Inv, Driven, Next, Initial, Continues;
    TraceIsGood(states, steps, recoveryMax, m);
    ClosedForGood(states, steps, recoveryMax, m, n);
  }

  /** An action that was cancelled was never sent and never will be. */
  lemma CancelledIsNeverSent(states: seq<Rows>, steps: seq<Step>, recoveryMax: int, m: nat, n: nat)
    requires Trace(states, steps, recoveryMax) && m <= n < |states| && NewestIs(states[m].proposals, Cancelled)
    ensures states[m].wire == {} && states[m].portal == [] && states[n].wire == {} && states[n].portal == []
  {
    hide Inv, Driven, Next, Initial, Continues;
    TraceIsGood(states, steps, recoveryMax, m);
    CancelledIsSilent(states[m], recoveryMax);
    ClosedForGood(states, steps, recoveryMax, m, n);
  }

  lemma CancelledIsSilent(s: Rows, recoveryMax: int)
    requires Inv(s, recoveryMax) && NewestIs(s.proposals, Cancelled)
    ensures s.wire == {} && s.portal == []
  {
    assert ProposalOk(Newest(s.proposals), recoveryMax);
    assert forall key, args, attempt :: !Authorizes(s.proposals, key, args, attempt);
    assert |s.portal| > 0 ==> Authorizes(s.proposals, s.portal[0].key, s.portal[0].args, 1);
  }

  /** Some continuation of these rows ends with a submission. */
  ghost predicate CanLand(s: Rows, recoveryMax: int)
  {
    exists states: seq<Rows>, steps: seq<Step> ::
      Continues(states, steps, recoveryMax) && states[0] == s && states[|steps|].portal != []
  }

  /** Whether a recorded failure excludes a submission: in every run, once the outcome is recorded
      and the portal has nothing, a submission still appears in some continuation exactly if a call
      is on the wire at that moment. */
  lemma LateCallLands(states: seq<Rows>, steps: seq<Step>, recoveryMax: int, m: nat)
    requires Trace(states, steps, recoveryMax) && m < |states|
    requires Closed(states[m].proposals) && states[m].portal == []
    ensures CanLand(states[m], recoveryMax) <==> states[m].wire != {}
  {
    hide Inv, Driven, Next, Initial;
    var s := states[m];
    TraceIsGood(states, steps, recoveryMax, m);
    if s.wire != {} {
      Lands(s, recoveryMax);
    } else if CanLand(s, recoveryMax) {
      var rest: seq<Rows>, taken: seq<Step> :|
        Continues(rest, taken, recoveryMax) && rest[0] == s && rest[|taken|].portal != [];
      ClosedForGood(rest, taken, recoveryMax, 0, |taken|);
    }
  }

  lemma Lands(s: Rows, recoveryMax: int)
    requires s.wire != {} && 0 <= recoveryMax
    ensures CanLand(s, recoveryMax)
  {
    var m :| m in s.wire;
    var t := Next(s, Deliver(m), recoveryMax);
    assert Continues([s, t], [Deliver(m)], recoveryMax);
  }
}
