/** Whole runs explained: what a human decided, what was sent on it, how long leases last, and why a run
    was cancelled, each traced back to the steps that caused it. */
module Provenance {
  import opened Options
  import opened Rows
  import opened Actions
  import opened Approvals
  import opened ActionExecution
  import opened Jobs
  import opened Invariant
  import opened ExecutionProofs
  import opened JobProofs
  import opened Protocol
  import opened Evolution
  import opened Replays
  import opened Safety
  import opened Settlement
  import opened Liveness
  import opened Effects
  import opened JobEffects
  import opened History

  lemma TraceIsEntitled(states: seq<Rows>, steps: seq<Step>, recoveryMax: int, n: nat)
    requires Trace(states, steps, recoveryMax) && n < |steps|
    ensures Inv(states[n], recoveryMax) && Inv(states[n + 1], recoveryMax)
    ensures states[n + 1] == Next(states[n], steps[n], recoveryMax)
    ensures AllEntitled(states[n], states[n + 1], steps[n]) && Later(states[n], states[n + 1])
  {
    hide Inv, TopicsOk, Driven, Next, AllEntitled, Later, Initial;
    TraceIsGood(states, steps, recoveryMax, n);
    TraceIsGood(states, steps, recoveryMax, n + 1);
    TraceKeepsTopics(states, steps, recoveryMax, n);
    TraceIsLater(states, steps, recoveryMax, n, n + 1);
    assert Driven(states[n], steps[n]) && states[n + 1] == Next(states[n], steps[n], recoveryMax);
    StepIsEntitled(states[n], steps[n], recoveryMax);
  }

  lemma NothingAtFirst(states: seq<Rows>, steps: seq<Step>, recoveryMax: int)
    requires Trace(states, steps, recoveryMax)
    ensures states[0].proposals == [] && states[0].job.lease.None? && states[0].run.status == RunQueued
    ensures states[0].run.cancelRequestedAt.None?
  {
  }

  // ---- Decisions ------------------------------------------------------------

  /** At `k` a current reviewer decided the open request of the action at `i` in time, with this decision. */
  predicate DecidedAt(states: seq<Rows>, steps: seq<Step>, k: nat, i: nat, d: Decision)
  {
    && k < |steps| < |states| && i < |states[k].proposals|
    && steps[k].DoDecide? && DecidesNow(states[k], states[k].proposals[i], steps[k].decide)
    && d == Decision(steps[k].decide.actor, steps[k].decide.verdict, steps[k].decide.now)
    && i < |states[k + 1].proposals| && states[k + 1].proposals[i].decisions == [d]
  }

  /** Every decision on record was made by exactly such a step. */
  lemma {:induction false} DecisionWasMade(states: seq<Rows>, steps: seq<Step>, recoveryMax: int, n: nat, i: nat)
    returns (k: nat)
    requires Trace(states, steps, recoveryMax) && n < |states| && i < |states[n].proposals|
    requires states[n].proposals[i].decisions != []
    ensures k < n && DecidedAt(states, steps, k, i, states[n].proposals[i].decisions[0])
  {
    hide Trace, DecidesNow, Inv, Next, RunEntitled, RunEvolves;
    NothingAtFirst(states, steps, recoveryMax);
    TraceHasSteps(states, steps, recoveryMax);
    TraceIsEntitled(states, steps, recoveryMax, n - 1);
    var s, t := states[n - 1], states[n];
    if i < |s.proposals| && s.proposals[i].decisions != [] {
      assert Evolves(s.proposals[i], t.proposals[i]);
      k := DecisionWasMade(states, steps, recoveryMax, n - 1, i);
    } else {
      k := n - 1;
    }
  }

  lemma TraceHasSteps(states: seq<Rows>, steps: seq<Step>, recoveryMax: int)
    requires Trace(states, steps, recoveryMax)
    ensures |states| == |steps| + 1
  {
  }

  // ---- Consumption and calls ------------------------------------------------

  /** At `k` the approval of the action at `i` was consumed, in time and while nothing barred the run. */
  predicate ConsumedAt(states: seq<Rows>, steps: seq<Step>, k: nat, i: nat, now: Time)
  {
    && k < |steps| < |states| && i < |states[k].proposals|
    && steps[k].DoPrepareExecution? && steps[k].now == now && IsAbout(states[k].proposals[i], steps[k].id)
    && MayCall(states[k]) && states[k].proposals[i].request.value.status == Approved
    && now < states[k].proposals[i].request.value.expiresAt
  }

  lemma {:induction false} ConsumptionWasMade(states: seq<Rows>, steps: seq<Step>, recoveryMax: int, n: nat, i: nat)
    returns (k: nat)
    requires Trace(states, steps, recoveryMax) && n < |states| && i < |states[n].proposals|
    requires ConsumedBefore(states[n].proposals[i])
    ensures states[n].proposals[i].request.value.consumedAt.Some?
    ensures k < n && ConsumedAt(states, steps, k, i, states[n].proposals[i].request.value.consumedAt.value)
  {
    hide Trace, MayCall, Inv, Next, RunEntitled, RunEvolves;
    NothingAtFirst(states, steps, recoveryMax);
    TraceHasSteps(states, steps, recoveryMax);
    TraceIsEntitled(states, steps, recoveryMax, n - 1);
    var s, t := states[n - 1], states[n];
    if i < |s.proposals| && ConsumedBefore(s.proposals[i]) {
      assert Evolves(s.proposals[i], t.proposals[i]);
      k := ConsumptionWasMade(states, steps, recoveryMax, n - 1, i);
    } else {
      k := n - 1;
    }
  }

  /** At `k` the first call of the action at `i` was authorized, while nothing barred the run. */
  predicate SentAt(states: seq<Rows>, steps: seq<Step>, k: nat, i: nat)
  {
    && k < |steps| < |states| && i < |states[k].proposals|
    && steps[k].DoBeginSend? && IsAbout(states[k].proposals[i], steps[k].id)
    && MayCall(states[k]) && states[k].proposals[i].intent.status == Authorized
  }

  lemma {:induction false} CallWasSent(states: seq<Rows>, steps: seq<Step>, recoveryMax: int, n: nat, i: nat)
    returns (k: nat)
    requires Trace(states, steps, recoveryMax) && n < |states| && i < |states[n].proposals|
    requires states[n].proposals[i].intent.status in ACTED
    ensures k < n && SentAt(states, steps, k, i)
  {
    hide Trace, MayCall, Inv, Next, RunEntitled, RunEvolves;
    NothingAtFirst(states, steps, recoveryMax);
    TraceHasSteps(states, steps, recoveryMax);
    TraceIsEntitled(states, steps, recoveryMax, n - 1);
    var s := states[n - 1];
    if i < |s.proposals| && s.proposals[i].intent.status in ACTED {
      k := CallWasSent(states, steps, recoveryMax, n - 1, i);
    } else {
      k := n - 1;
    }
  }

  /** A call with this key is in flight or has arrived. */
  predicate Outside(s: Rows, key: IntentId)
  {
    (exists m :: m in s.wire && m.key == key) || (exists j :: 0 <= j < |s.portal| && s.portal[j].key == key)
  }

  lemma OutsideIsCalled(s: Rows, key: IntentId, recoveryMax: int)
    requires Inv(s, recoveryMax) && Outside(s, key)
    ensures s.proposals != [] && Newest(s.proposals).intent.id == key && Newest(s.proposals).intent.status in ACTED
  {
    hide LogOk, ResumeOk, LeaseOk, RunOk, QueueOk, WaitOk, JobOk, Progress, ActionsOk;
    assert exists args, attempt: int :: attempt >= 1 && Authorizes(s.proposals, key, args, attempt) by {
      if m :| m in s.wire && m.key == key {
        assert Authorizes(s.proposals, m.key, m.args, m.attempt);
      } else {
        var j :| 0 <= j < |s.portal| && s.portal[j].key == key;
        assert Authorizes(s.proposals, s.portal[j].key, s.portal[j].args, 1);
      }
    }
    assert ProposalOk(s.proposals[|s.proposals| - 1], recoveryMax);
  }

  lemma SentWasConsumed(s: Rows, i: nat, recoveryMax: int)
    requires Inv(s, recoveryMax) && i < |s.proposals|
    ensures s.proposals[i].intent.status == Authorized ==> ConsumedBefore(s.proposals[i])
    ensures
      s.proposals[i].request.Some? && s.proposals[i].request.value.status == Approved ==>
        && s.proposals[i].decisions != [] && s.proposals[i].decisions[0].verdict == Approve
  {
    assert ProposalOk(s.proposals[i], recoveryMax);
  }

  /** Every call in flight and every submission goes back to a complete chain of authority, in this order:
      a current reviewer approved the open request in time, the approval was consumed before its
      deadline, and the call was sent, the last two while the creator was a member, the run was
      running and no cancellation was pending. */
  lemma EveryEffectWasAuthorized(states: seq<Rows>, steps: seq<Step>, recoveryMax: int, n: nat, key: IntentId)
    returns (i: nat, decided: nat, consumed: nat, sent: nat)
    requires Trace(states, steps, recoveryMax) && n < |states| && Outside(states[n], key)
    ensures decided < consumed < sent < n && i < |states[n].proposals| && states[n].proposals[i].intent.id == key
    ensures states[n].proposals[i].decisions != [] && states[n].proposals[i].decisions[0].verdict == Approve
    ensures DecidedAt(states, steps, decided, i, states[n].proposals[i].decisions[0])
    ensures states[n].proposals[i].request.Some? && states[n].proposals[i].request.value.consumedAt.Some?
    ensures ConsumedAt(states, steps, consumed, i, states[n].proposals[i].request.value.consumedAt.value)
    ensures SentAt(states, steps, sent, i)
    ensures steps[decided].decide.intent == key && steps[consumed].id.intent == key && steps[sent].id.intent == key
  {
    hide Trace, Inv, DecidesNow, MayCall, Outside;
    TraceHasSteps(states, steps, recoveryMax);
    TraceIsGood(states, steps, recoveryMax, n);
    OutsideIsCalled(states[n], key, recoveryMax);
    i := |states[n].proposals| - 1;
    sent := CallWasSent(states, steps, recoveryMax, n, i);
    TraceIsGood(states, steps, recoveryMax, sent);
    SentWasConsumed(states[sent], i, recoveryMax);
    consumed := ConsumptionWasMade(states, steps, recoveryMax, sent, i);
    TraceIsGood(states, steps, recoveryMax, consumed);
    SentWasConsumed(states[consumed], i, recoveryMax);
    decided := DecisionWasMade(states, steps, recoveryMax, consumed, i);
    SameAction(states, steps, recoveryMax, decided, n, i);
    SameAction(states, steps, recoveryMax, consumed, n, i);
    SameAction(states, steps, recoveryMax, sent, n, i);
    assert steps[decided].decide.intent == key by { DecidesByName(states[decided], i, steps[decided].decide); }
  }

  lemma DecidesByName(s: Rows, i: nat, c: Decide)
    requires i < |s.proposals| && DecidesNow(s, s.proposals[i], c)
    ensures c.intent == s.proposals[i].intent.id
  {
  }

  lemma SameAction(states: seq<Rows>, steps: seq<Step>, recoveryMax: int, m: nat, n: nat, i: nat)
    requires Trace(states, steps, recoveryMax) && m <= n < |states| && i < |states[m].proposals|
    ensures i < |states[n].proposals| && Evolves(states[m].proposals[i], states[n].proposals[i])
    ensures states[n].proposals[i].intent.id == states[m].proposals[i].intent.id
    ensures states[m].proposals[i].decisions <= states[n].proposals[i].decisions
  {
    hide Trace, RunEvolves;
    TraceIsLater(states, steps, recoveryMax, m, n);
    assert Evolves(states[m].proposals[i], states[n].proposals[i]);
  }

  // ---- A human's no ---------------------------------------------------------

  /** The answer of a committed decision is on record. */
  lemma AnswerIsOnRecord(s: Rows, c: Decide, recoveryMax: int) returns (i: nat)
    requires Inv(s, recoveryMax) && DecideApproval(s, c).Committed?
    ensures
      var t := DecideApproval(s, c).rows;
      && i < |t.proposals| && t.proposals[i].intent.id == c.intent
      && t.proposals[i].decisions != [] && t.proposals[i].decisions[0].verdict == c.verdict
  {
    hide DecideApproval, OutsideOk, LogOk, ResumeOk, LeaseOk, RunOk, QueueOk, Progress, WaitOk, JobOk, ActionsOk, Logs;
    if forall j :: 0 <= j < |s.proposals| ==> s.proposals[j].intent.id != c.intent {
      NobodyDecides(s, c);
      assert false;
    }
    i :| i < |s.proposals| && s.proposals[i].intent.id == c.intent;
    assert ProposalOk(s.proposals[i], recoveryMax);
    var ds := s.proposals[i].decisions;
    if !c.memberCurrent {
      StrangerIsNotFound(s, c);
    } else if ds != [] && ds[0].actor == c.actor {
      RepeatedDecision(s, c, i, 0);
    } else {
      FirstDecision(s, c, i);
    }
  }

  /** Once a rejection was committed, no call for that action is on the wire or has arrived, then, before
      or at any later time. */
  lemma RejectionIsObeyed(states: seq<Rows>, steps: seq<Step>, recoveryMax: int, m: nat, n: nat)
    requires Trace(states, steps, recoveryMax) && m < |steps| && n < |states| && steps[m].DoDecide?
    requires steps[m].decide.verdict == Reject && DecideApproval(states[m], steps[m].decide).Committed?
    ensures !Outside(states[n], steps[m].decide.intent)
  {
    hide Trace, Inv, DecideApproval, DecidesNow, MayCall, Outside, Evolves;
    var key := steps[m].decide.intent;
    TraceHasSteps(states, steps, recoveryMax);
    TraceIsEntitled(states, steps, recoveryMax, m);
    var i := AnswerIsOnRecord(states[m], steps[m].decide, recoveryMax);
    if Outside(states[n], key) {
      var j, decided, consumed, sent := EveryEffectWasAuthorized(states, steps, recoveryMax, n, key);
      var u := if m < n then n else m + 1;
      SameAction(states, steps, recoveryMax, m + 1, u, i);
      SameAction(states, steps, recoveryMax, n, u, j);
      TraceIsGood(states, steps, recoveryMax, u);
      NamedOnce(states[u], i, j, recoveryMax);
    }
  }

  lemma NamedOnce(s: Rows, i: nat, j: nat, recoveryMax: int)
    requires Inv(s, recoveryMax) && i < |s.proposals| && j < |s.proposals|
    requires s.proposals[i].intent.id == s.proposals[j].intent.id
    ensures i == j
  {
    InvHasRevisions(s, recoveryMax);
  }

  // ---- Arrivals -------------------------------------------------------------

  /** A submission arrived as a call that was on the wire at that moment, with the same payload. */
  lemma {:induction false} SubmissionArrived(states: seq<Rows>, steps: seq<Step>, recoveryMax: int, n: nat)
    returns (k: nat)
    requires Trace(states, steps, recoveryMax) && n < |states| && states[n].portal != []
    ensures k < n && k < |steps| && steps[k].Deliver? && steps[k].message in states[k].wire
    ensures states[n].portal[0] == Submission(steps[k].message.key, steps[k].message.args)
  {
    hide Trace, Inv, AllEntitled, Later, Next;
    TraceHasSteps(states, steps, recoveryMax);
    PortalIsEmptyAtFirst(states, steps, recoveryMax);
    TraceIsEntitled(states, steps, recoveryMax, n - 1);
    if states[n - 1].portal != [] {
      PortalGrows(states[n - 1], states[n]);
      k := SubmissionArrived(states, steps, recoveryMax, n - 1);
    } else {
      k := n - 1;
      PortalIsWritten(states[k], steps[k], recoveryMax);
    }
  }

  lemma PortalIsEmptyAtFirst(states: seq<Rows>, steps: seq<Step>, recoveryMax: int)
    requires Trace(states, steps, recoveryMax)
    ensures states[0].portal == []
  {
  }

  lemma PortalGrows(s: Rows, t: Rows)
    requires Later(s, t)
    ensures s.portal <= t.portal
  {
  }

  lemma PortalIsWritten(s: Rows, step: Step, recoveryMax: int)
    requires s.portal == []
    ensures
      var t := Next(s, step, recoveryMax);
      t.portal != [] ==>
        step.Deliver? && step.message in s.wire && t.portal == [Submission(step.message.key, step.message.args)]
  {
    hide Next;
    if step.Deliver? { FirstArrival(s, step, recoveryMax); }
    else if step.DoBeginSend? || step.DoResend? { SendingLeavesPortal(s, step, recoveryMax); }
    else { OthersSendNothing(s, step, recoveryMax); }
  }

  lemma SendingLeavesPortal(s: Rows, step: Step, recoveryMax: int)
    requires step.DoBeginSend? || step.DoResend?
    ensures Next(s, step, recoveryMax).portal == s.portal
  {
    hide LockBoundRows;
  }

  lemma FirstArrival(s: Rows, step: Step, recoveryMax: int)
    requires s.portal == [] && step.Deliver?
    ensures
      Next(s, step, recoveryMax).portal ==
        if step.message in s.wire then [Submission(step.message.key, step.message.args)] else []
  {
  }

  lemma RunIsEntitled(s: Rows, t: Rows, step: Step)
    requires AllEntitled(s, t, step) && Later(s, t)
    ensures RunEntitled(s, t, step) && (Terminal(s.run.status) ==> t.run.status == s.run.status)
  {
    hide Entitled, RunEntitled;
  }

  // ---- Leases ---------------------------------------------------------------

  /** At `k` the lease was given or prolonged to this worker and token until this moment. */
  predicate LeasedAt(states: seq<Rows>, steps: seq<Step>, k: nat, lease: Lease)
  {
    k < |steps| < |states| && Leases(states[k], lease, steps[k]) && states[k + 1].job.lease == Some(lease)
  }

  /** Every outstanding lease lasts exactly as long as its last claim or heartbeat asked for, counted from
      that moment, and it has been the lease ever since. */
  lemma {:induction false} LeaseIsBacked(states: seq<Rows>, steps: seq<Step>, recoveryMax: int, n: nat) returns (k: nat)
    requires Trace(states, steps, recoveryMax) && n < |states| && states[n].job.lease.Some?
    ensures k < n && LeasedAt(states, steps, k, states[n].job.lease.value)
    ensures forall j :: k < j <= n ==> states[j].job.lease == states[n].job.lease
  {
    hide Trace, Inv, AllEntitled, Later, Leases, MayEnd, Next;
    NothingAtFirst(states, steps, recoveryMax);
    TraceHasSteps(states, steps, recoveryMax);
    TraceIsEntitled(states, steps, recoveryMax, n - 1);
    RunIsEntitled(states[n - 1], states[n], steps[n - 1]);
    if states[n - 1].job.lease == states[n].job.lease {
      k := LeaseIsBacked(states, steps, recoveryMax, n - 1);
    } else {
      k := n - 1;
    }
  }

  // ---- Cancellations --------------------------------------------------------

  /** A pending cancellation was asked for by an authorized user while the run was running, at that time. */
  lemma {:induction false} CancellationWasAskedFor(states: seq<Rows>, steps: seq<Step>, recoveryMax: int, n: nat)
    returns (k: nat)
    requires Trace(states, steps, recoveryMax) && n < |states| && states[n].run.cancelRequestedAt.Some?
    ensures k < n && k < |steps| && steps[k] == DoCancelRun(true, states[n].run.cancelRequestedAt.value)
    ensures states[k].run.status == RunRunning
  {
    hide Trace, Inv, AllEntitled, Later, Leases, MayEnd, Next;
    NothingAtFirst(states, steps, recoveryMax);
    TraceHasSteps(states, steps, recoveryMax);
    TraceIsEntitled(states, steps, recoveryMax, n - 1);
    RunIsEntitled(states[n - 1], states[n], steps[n - 1]);
    if states[n - 1].run.cancelRequestedAt == states[n].run.cancelRequestedAt {
      k := CancellationWasAskedFor(states, steps, recoveryMax, n - 1);
    } else {
      k := n - 1;
    }
  }

  /** A run that has ended was ended by a step that may end it like this, and has stood so since. */
  lemma {:induction false} EndingWasMade(states: seq<Rows>, steps: seq<Step>, recoveryMax: int, n: nat) returns (k: nat)
    requires Trace(states, steps, recoveryMax) && n < |states| && Terminal(states[n].run.status)
    ensures k < n && k < |steps| && !Terminal(states[k].run.status) && MayEnd(states[k], states[n].run.status, steps[k])
    ensures forall j :: k < j <= n ==> states[j].run.status == states[n].run.status
  {
    hide Trace, Inv, AllEntitled, Later, Leases, MayEnd, Next;
    NothingAtFirst(states, steps, recoveryMax);
    TraceHasSteps(states, steps, recoveryMax);
    TraceIsEntitled(states, steps, recoveryMax, n - 1);
    RunIsEntitled(states[n - 1], states[n], steps[n - 1]);
    if Terminal(states[n - 1].run.status) {
      k := EndingWasMade(states, steps, recoveryMax, n - 1);
    } else {
      k := n - 1;
    }
  }

  /** A run is cancelled only if its creator was removed, or an authorized user asked for it, or the
      holder of its lease gave it up. */
  lemma CancelledForAReason(states: seq<Rows>, steps: seq<Step>, recoveryMax: int, n: nat)
    requires Trace(states, steps, recoveryMax) && n < |states| && states[n].run.status == RunCancelled
    ensures
      || !states[n].memberActive
      || exists k :: 0 <= k < n && k < |steps|
                     && (steps[k].DoCancelJob? || (steps[k].DoCancelRun? && steps[k].authorized))
  {
    hide Trace, Inv, Later;
    var k := EndingWasMade(states, steps, recoveryMax, n);
    if states[k].run.cancelRequestedAt.Some? {
      var j := CancellationWasAskedFor(states, steps, recoveryMax, k);
    } else if !states[k].memberActive {
      TraceIsLater(states, steps, recoveryMax, k, n);
      RemovalIsForGood(states[k], states[n]);
    }
  }

  lemma RemovalIsForGood(s: Rows, t: Rows)
    requires Later(s, t)
    ensures t.memberActive ==> s.memberActive
  {
  }

  // ---- Refusals -------------------------------------------------------------

  lemma ResendIsNamed(s: Rows, id: Identity, expected: int, now: Time, recoveryMax: int) returns (i: nat)
    requires Inv(s, recoveryMax) && AuthorizeResend(s, id, expected, now).Committed?
    ensures i == |s.proposals| - 1 && Names(s, id, i) && s.proposals[i].intent.status == Executing
    ensures s.run.status == RunRunning
  {
    hide OutsideOk, LogOk, ResumeOk, LeaseOk, QueueOk, Progress, WaitOk, JobOk, FindIntent, RunOk;
    i := LockExecuting(s, id, false).i;
    assert ProposalOk(s.proposals[i], recoveryMax);
    BoundIsNewest(s, i, recoveryMax);
  }

  /** A resend that is refused records that the call did not happen, and why. */
  lemma RefusedResendIsKnown(s: Rows, id: Identity, expected: int, now: Time, recoveryMax: int)
    requires Inv(s, recoveryMax)
    requires var o := AuthorizeResend(s, id, expected, now); o.Committed? && o.value.ResendRefused?
    ensures
      var o := AuthorizeResend(s, id, expected, now);
      var category := if s.memberActive then CancelledConfirmedAbsent else AuthorizationRevoked;
      && o.value == ResendRefused(category) && |o.rows.proposals| == |s.proposals| > 0
      && KnownAbsent(Newest(o.rows.proposals), category)
    ensures s.memberActive ==> s.run.cancelRequestedAt.Some?
  {
    var i := ResendIsNamed(s, id, expected, now, recoveryMax);
    ActedIsLinked(s, i, recoveryMax);
    ResendIsAnswered(s, id, i, expected, now, recoveryMax);
    hide Inv, AuthorizeResend, Logs;
  }

  /** What is known about a call that did not happen stays known, as long as the run lives. */
  lemma KnownStays(states: seq<Rows>, steps: seq<Step>, recoveryMax: int, m: nat, n: nat, category: Category)
    requires Trace(states, steps, recoveryMax) && m <= n < |states|
    requires states[m].proposals != [] && KnownAbsent(Newest(states[m].proposals), category)
    ensures states[n].proposals != [] && KnownAbsent(Newest(states[n].proposals), category)
    ensures states[m].run.cancelRequestedAt.Some? ==> states[n].run.cancelRequestedAt.Some?
    ensures !states[m].memberActive ==> !states[n].memberActive
  {
    hide Trace, RunEvolves;
    SettledSendsNothing(states, steps, recoveryMax, m, n);
    TraceIsLater(states, steps, recoveryMax, m, n);
    BarsStay(states[m], states[n]);
    assert Evolves(Newest(states[m].proposals), states[n].proposals[|states[m].proposals| - 1]);
  }

  /** A refused resend ends as a cancelled run: whoever holds the lease at any later time and prepares the
      job, the run is cancelled, because of the removal exactly if the creator was removed when the
      resend was refused, and otherwise because the user asked for it. */
  lemma RefusedResendCancels(states: seq<Rows>, steps: seq<Step>, recoveryMax: int, m: nat, n: nat, h: ClaimedJob,
                             executable: set<int>, now: Time)
    requires Trace(states, steps, recoveryMax) && m < n < |states| && steps[m].DoResend?
    requires
      var o := AuthorizeResend(states[m], steps[m].id, steps[m].expected, steps[m].now);
      o.Committed? && o.value.ResendRefused?
    requires h in states[n].issued && ActiveLease(states[n].job, h, now)
    ensures
      var s, o := states[n], PrepareClaimedJob(states[n], h, executable, now);
      var reason := if states[m].memberActive then UserRequested else AuthorizationRevoked;
      && o.Committed? && o.value == Finished
      && RunIsCancelled(s, o.rows, GivenUp(s.job, JobDone, None, s.job.availableAt), reason, now)
  {
    hide Trace, Inv, AuthorizeResend, PrepareClaimedJob, ActiveLease, RunIsCancelled, RunIsFailed, Converged, Later,
      AllEntitled;
    TraceHasSteps(states, steps, recoveryMax);
    TraceIsEntitled(states, steps, recoveryMax, m);
    RefusedResendIsKnown(states[m], steps[m].id, steps[m].expected, steps[m].now, recoveryMax);
    var category := if states[m].memberActive then CancelledConfirmedAbsent else AuthorizationRevoked;
    BarsStay(states[m], states[m + 1]);
    KnownStays(states, steps, recoveryMax, m + 1, n, category);
    TraceIsGood(states, steps, recoveryMax, n);
    LeaseMeansLeased(states[n], h, now);
    LostIsRunning(states[n], recoveryMax);
    HolderIsTold(states[n], h, executable, now, recoveryMax);
    SettledCallEndsRun(states[n], now, recoveryMax);
  }

  lemma BarsStay(s: Rows, t: Rows)
    requires Later(s, t)
    ensures s.run.cancelRequestedAt.Some? ==> t.run.cancelRequestedAt.Some?
    ensures !s.memberActive ==> !t.memberActive
    ensures Barred(s) ==> Barred(t)
  {
    hide Evolves;
  }

  lemma LeaseMeansLeased(s: Rows, h: ClaimedJob, now: Time)
    requires ActiveLease(s.job, h, now)
    ensures s.job.status == JobLeased
  {
  }

  /** A refused send ends the same way: the action is cancelled without having been called, and the next
      preparation by a holder cancels the run. */
  lemma RefusedSendCancels(states: seq<Rows>, steps: seq<Step>, recoveryMax: int, m: nat, n: nat, h: ClaimedJob,
                           executable: set<int>, now: Time)
    requires Trace(states, steps, recoveryMax) && m < n < |states| && steps[m].DoBeginSend?
    requires var o := BeginSend(states[m], steps[m].id, steps[m].now); o.Committed? && o.value.SendRefused?
    requires h in states[n].issued && ActiveLease(states[n].job, h, now) && states[n].run.graphVersion in executable
    ensures
      var s, o := states[n], PrepareClaimedJob(states[n], h, executable, now);
      && !Outside(s, steps[m].id.intent) && o.Committed? && o.value == Finished
      && RunIsCancelled(s, o.rows, GivenUp(s.job, JobDone, None, s.job.availableAt),
                        if s.memberActive then UserRequested else AuthorizationRevoked, now)
  {
    hide Trace, Inv, BeginSend, PrepareClaimedJob, ActiveLease, RunIsCancelled, RunIsFailed, Converged, Later,
      AllEntitled, Outside;
    TraceHasSteps(states, steps, recoveryMax);
    TraceIsEntitled(states, steps, recoveryMax, m);
    RefusedSendCloses(states[m], steps[m].id, steps[m].now, recoveryMax);
    BarsStay(states[m], states[m + 1]);
    SettledSendsNothing(states, steps, recoveryMax, m + 1, n);
    CancelledIsNeverSent(states, steps, recoveryMax, m + 1, n);
    NothingOutside(states[n], steps[m].id.intent);
    TraceIsLater(states, steps, recoveryMax, m + 1, n);
    BarsStay(states[m + 1], states[n]);
    TraceIsGood(states, steps, recoveryMax, n);
    LeaseMeansLeased(states[n], h, now);
    LeasedIsLive(states[n], recoveryMax);
    HolderIsTold(states[n], h, executable, now, recoveryMax);
  }

  lemma NothingOutside(s: Rows, key: IntentId)
    requires s.wire == {} && s.portal == []
    ensures !Outside(s, key)
  {
  }

  lemma RefusedSendCloses(s: Rows, id: Identity, now: Time, recoveryMax: int)
    requires Inv(s, recoveryMax)
    requires var o := BeginSend(s, id, now); o.Committed? && o.value.SendRefused?
    ensures NewestIs(BeginSend(s, id, now).rows.proposals, Cancelled)
    ensures Barred(s)
  {
    hide OutsideOk, LogOk, ResumeOk, LeaseOk, QueueOk, Progress, JobOk, FindIntent, RunOk;
    var i := LockBoundRows(s, id).i;
    assert ProposalOk(s.proposals[i], recoveryMax);
    BoundIsNewest(s, i, recoveryMax);
    assert s.run.status != RunWaiting && s.run.status != RunQueued;
    SendIsAnswered(s, id, i, now, recoveryMax);
  }
}
