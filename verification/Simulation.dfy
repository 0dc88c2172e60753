/** The stores run the protocol: serving a step in place, field by field, is exactly the step of the
    transition system, so that all that is proved about its runs holds of the stores. */
module Simulation {
  import opened Options
  import opened Rows
  import opened Actions
  import opened Approvals
  import opened ActionExecution
  import opened Jobs
  import opened Invariant
  import opened Protocol
  import opened Replays
  import opened Safety
  import opened Tables
  import opened ActionExecutionStores
  import opened WorkerJobStores
  import opened ActionStores
  import opened ApprovalStores
  import opened RunStores

  /** The answer without its value: what matters to the protocol is whether the call raised. */
  function Acknowledged<T>(r: Result<T>): Result<()>
  {
    match r
    case Ok(_) => Ok(())
    case Err(fault) => Err(fault)
  }

  lemma DidPlainly<T>(before: Rows, after: Rows, o: Outcome<T>, r: Result<T>)
    requires Did(before, after, o, r)
    ensures Did(before, after, Plain(o), Acknowledged(r))
  {
  }

  class System {
    const recoveryMax: int
    const actions: ActionStore
    const approvals: ApprovalStore
    const execution: ActionExecutionStore
    const runs: RunStore

    constructor (recoveryMax: int)
      ensures this.recoveryMax == recoveryMax
    {
      this.recoveryMax := recoveryMax;
      actions := new ActionStore();
      approvals := new ApprovalStore();
      execution := new ActionExecutionStore();
      runs := new RunStore();
    }

    /** The commands of the graph on actions, and the approver's decision. */
    method ServeAction(t: RunTables, step: Step) returns (r: Result<()>)
      requires step.DoPrepareAction? || step.DoSupersede? || step.DoCancelAction? || step.DoDecide?
      modifies t
      ensures Did(old(t.Snapshot()), t.Snapshot(), Perform(old(t.Snapshot()), step, recoveryMax), r)
    {
      hide PrepareAction, SupersedeAction, CancelAction, DecideApproval, Did, Plain;
      ghost var before := t.Snapshot();
      match step {
        case DoPrepareAction(c) =>
          var a := actions.PrepareAction(t, c);
          DidPlainly(before, t.Snapshot(), PrepareAction(before, c), a);
          return Acknowledged(a);
        case DoSupersede(old_, c) =>
          var a := actions.SupersedeAction(t, old_, c);
          DidPlainly(before, t.Snapshot(), SupersedeAction(before, old_, c), a);
          return Acknowledged(a);
        case DoCancelAction(tenant, i, q, rejected) =>
          var a := actions.CancelAction(t, tenant, i, q, rejected);
          DidPlainly(before, t.Snapshot(), CancelAction(before, tenant, i, q, rejected), a);
          return Acknowledged(a);
        case DoDecide(c) =>
          var a := approvals.Decide(t, c);
          DidPlainly(before, t.Snapshot(), DecideApproval(before, c), a);
          return Acknowledged(a);
      }
    }

    /** The calls of the executor of an approved action. */
    method ServeSend(t: RunTables, step: Step) returns (r: Result<()>)
      requires step.DoPrepareExecution? || step.DoBeginSend? || step.DoReconcile? || step.DoResend?
      modifies t
      ensures Did(old(t.Snapshot()), t.Snapshot(), Perform(old(t.Snapshot()), step, recoveryMax), r)
    {
      hide PrepareExecution, BeginSend, BeginReconciliation, AuthorizeResend, Did, Plain;
      ghost var before := t.Snapshot();
      match step {
        case DoPrepareExecution(id, now) =>
          var a := execution.PrepareExecution(t, id, now);
          DidPlainly(before, t.Snapshot(), PrepareExecution(before, id, now), a);
          return Acknowledged(a);
        case DoBeginSend(id, now) =>
          var a := execution.BeginSend(t, id, now);
          DidPlainly(before, t.Snapshot(), BeginSend(before, id, now), a);
          return Acknowledged(a);
        case DoReconcile(id, now) =>
          var a := execution.BeginReconciliation(t, id, recoveryMax, now);
          DidPlainly(before, t.Snapshot(), BeginReconciliation(before, id, recoveryMax, now), a);
          return Acknowledged(a);
        case DoResend(id, expected, now) =>
          var a := execution.AuthorizeResend(t, id, expected, now);
          DidPlainly(before, t.Snapshot(), AuthorizeResend(before, id, expected, now), a);
          return Acknowledged(a);
      }
    }

    method ServeConfirmation(t: RunTables, step: Step) returns (r: Result<()>)
      requires step.DoConfirmSuccess? || step.DoConfirmFailure? || step.DoConfirmUnknown?
      modifies t
      ensures Did(old(t.Snapshot()), t.Snapshot(), Perform(old(t.Snapshot()), step, recoveryMax), r)
    {
      hide ConfirmSuccess, ConfirmFailure, ConfirmOutcomeUnknown, Did, Plain;
      ghost var before := t.Snapshot();
      match step {
        case DoConfirmSuccess(id, now) =>
          var a := execution.ConfirmSuccess(t, id, now);
          DidPlainly(before, t.Snapshot(), ConfirmSuccess(before, id, now), a);
          return Acknowledged(a);
        case DoConfirmFailure(id, category, evidence, now) =>
          var a := execution.ConfirmFailure(t, id, category, evidence, now);
          DidPlainly(before, t.Snapshot(), ConfirmFailure(before, id, category, evidence, now), a);
          return Acknowledged(a);
        case DoConfirmUnknown(id, evidence, now) =>
          var a := execution.ConfirmOutcomeUnknown(t, id, evidence, now);
          DidPlainly(before, t.Snapshot(), ConfirmOutcomeUnknown(before, id, evidence, now), a);
          return Acknowledged(a);
      }
    }

    /** The calls of a worker that holds, or held, a claim, before it gives the job up. */
    method ServeHolder(t: RunTables, step: Step) returns (r: Result<()>)
      requires step.DoClaim? || step.DoPrepareJob? || step.DoHeartbeat? || step.DoComplete? || step.DoWait?
      modifies t
      ensures Did(old(t.Snapshot()), t.Snapshot(), Perform(old(t.Snapshot()), step, recoveryMax), r)
    {
      hide Claim, PrepareClaimedJob, Heartbeat, Complete, WaitForApproval, Did, Plain;
      ghost var before := t.Snapshot();
      match step {
        case DoClaim(executable, worker, token, now, duration) =>
          var jobs := new WorkerJobStore(executable, recoveryMax, _ => 0);
          var a := jobs.ClaimDueJob(t, worker, token, now, duration);
          DidPlainly(before, t.Snapshot(), Claim(before, executable, recoveryMax, worker, token, now, duration), a);
          return Acknowledged(a);
        case DoPrepareJob(h, executable, now) =>
          var jobs := new WorkerJobStore(executable, recoveryMax, _ => 0);
          var a := jobs.PrepareClaimedJob(t, h, now);
          DidPlainly(before, t.Snapshot(), PrepareClaimedJob(before, h, executable, now), a);
          return Acknowledged(a);
        case DoHeartbeat(h, now, duration) =>
          var jobs := new WorkerJobStore({}, recoveryMax, _ => 0);
          var a := jobs.Heartbeat(t, h, now, duration);
          DidPlainly(before, t.Snapshot(), Heartbeat(before, h, now, duration), a);
          return Acknowledged(a);
        case DoComplete(h, publishes, now) =>
          var jobs := new WorkerJobStore({}, recoveryMax, _ => 0);
          var a := jobs.Complete(t, h, publishes, now);
          DidPlainly(before, t.Snapshot(), Complete(before, h, publishes, now), a);
          return Acknowledged(a);
        case DoWait(h, request, now) =>
          var jobs := new WorkerJobStore({}, recoveryMax, _ => 0);
          var a := jobs.WaitForApproval(t, h, request, now);
          DidPlainly(before, t.Snapshot(), WaitForApproval(before, h, request, now), a);
          return Acknowledged(a);
      }
    }

    /** The calls of a worker that gives its job up, with the delay that its settings give. */
    method ServeLeaver(t: RunTables, step: Step) returns (r: Result<()>)
      requires step.DoRequeue? || step.DoFail? || step.DoCancelJob? || step.DoRelease?
      modifies t
      ensures Did(old(t.Snapshot()), t.Snapshot(), Perform(old(t.Snapshot()), step, recoveryMax), r)
    {
      hide Requeue, FailJob, CancelJob, Release, Did, Plain;
      ghost var before := t.Snapshot();
      var delay := step.delay;
      var jobs := new WorkerJobStore({}, recoveryMax, _ => delay);
      match step {
        case DoRequeue(h, category, now, _) =>
          var a := jobs.Requeue(t, h, category, now);
          DidPlainly(before, t.Snapshot(), Requeue(before, h, category, now, delay), a);
          return Acknowledged(a);
        case DoFail(h, category, now, _) =>
          var a := jobs.Fail(t, h, category, now);
          DidPlainly(before, t.Snapshot(), FailJob(before, h, category, recoveryMax, now, delay), a);
          return Acknowledged(a);
        case DoCancelJob(h, reason, now, _) =>
          var a := jobs.Cancel(t, h, reason, now);
          DidPlainly(before, t.Snapshot(), CancelJob(before, h, reason, now, delay), a);
          return Acknowledged(a);
        case DoRelease(h, category, now, _) =>
          var a := jobs.Release(t, h, category, now);
          DidPlainly(before, t.Snapshot(), Release(before, h, category, now, delay), a);
          return Acknowledged(a);
      }
    }

    /** The sweepers, on the rows that their queries select, and the user. */
    method ServeSweep(t: RunTables, step: Step) returns (r: Result<()>)
      requires step.DoSweep? || step.DoReclaim? || step.DoCancelRun?
      modifies t
      ensures Did(old(t.Snapshot()), t.Snapshot(), Perform(old(t.Snapshot()), step, recoveryMax), r)
    {
      hide ReclaimOne, CancelRunByUser, Due, Stale, Plain;
      ghost var before := t.Snapshot();
      match step {
        case DoSweep(i, now) =>
          if i >= |t.proposals| || !Due(t.proposals[i], now) {
            NotDueIsSkipped(before, i, now);
            return Ok(());
          }
          hide SweepRequest;
          var a := approvals.ExpireRequest(t, i, now);
          DidPlainly(before, t.Snapshot(), SweepRequest(before, i, now), a);
          return Acknowledged(a);
        case DoReclaim(executable, now, delay) =>
          if !Stale(t.Snapshot(), executable, now) { return Ok(()); }
          var jobs := new WorkerJobStore(executable, recoveryMax, _ => delay);
          var a := jobs.ReclaimJob(t, now);
          DidPlainly(before, t.Snapshot(), ReclaimOne(before, recoveryMax, now, delay), a);
          return Acknowledged(a);
        case DoCancelRun(authorized, now) =>
          var a := runs.CancelRun(t, authorized, now);
          DidPlainly(before, t.Snapshot(), CancelRunByUser(before, authorized, now), a);
          return Acknowledged(a);
      }
    }

    /** The environment: the membership, the network and the portal, other events of the run. */
    method ServeWorld(t: RunTables, step: Step) returns (r: Result<()>)
      requires step.Revoke? || step.Deliver? || step.Lose? || step.DoAgentEvent?
      modifies t
      ensures Did(old(t.Snapshot()), t.Snapshot(), Perform(old(t.Snapshot()), step, recoveryMax), r)
    {
      hide PutIfAbsent, PrepareAction, SupersedeAction, CancelAction, DecideApproval, SweepRequest, PrepareExecution,
        BeginSend, BeginReconciliation, AuthorizeResend, ConfirmSuccess, ConfirmFailure, ConfirmOutcomeUnknown, Claim,
        PrepareClaimedJob, Heartbeat, Complete, WaitForApproval, Requeue, FailJob, CancelJob, Release, ReclaimOne,
        CancelRunByUser;
      match step {
        case Revoke => t.memberActive := false;
        case Deliver(m) => if m in t.wire { var _, _ := t.PutIfAbsent(m); }
        case Lose(m) => t.wire := t.wire - {m};
        case DoAgentEvent(code) => t.AppendEvent(AgentEvent(code));
      }
      return Ok(());
    }

    /** Any step of any party. */
    method Serve(t: RunTables, step: Step) returns (r: Result<()>)
      modifies t
      ensures Did(old(t.Snapshot()), t.Snapshot(), Perform(old(t.Snapshot()), step, recoveryMax), r)
    {
      hide Perform, Did;
      if step.DoPrepareAction? || step.DoSupersede? || step.DoCancelAction? || step.DoDecide? {
        r := ServeAction(t, step);
      } else if step.DoPrepareExecution? || step.DoBeginSend? || step.DoReconcile? || step.DoResend? {
        r := ServeSend(t, step);
      } else if step.DoConfirmSuccess? || step.DoConfirmFailure? || step.DoConfirmUnknown? {
        r := ServeConfirmation(t, step);
      } else if step.DoClaim? || step.DoPrepareJob? || step.DoHeartbeat? || step.DoComplete? || step.DoWait? {
        r := ServeHolder(t, step);
      } else if step.DoRequeue? || step.DoFail? || step.DoCancelJob? || step.DoRelease? {
        r := ServeLeaver(t, step);
      } else if step.DoSweep? || step.DoReclaim? || step.DoCancelRun? {
        r := ServeSweep(t, step);
      } else {
        r := ServeWorld(t, step);
      }
    }

    /** A whole run: the stores, called by drivers as assumed, pass through exactly the states of the
        transition system; the rows always satisfy the invariants, and no call ever raises a
        consistency error but a live one. */
    method ServeAll(t: RunTables, ghost states: seq<Rows>, steps: seq<Step>) returns (results: seq<Result<()>>)
      requires Trace(states, steps, recoveryMax) && t.Snapshot() == states[0]
      modifies t
      ensures t.Snapshot() == states[|steps|] && Good(t.Snapshot(), recoveryMax)
      ensures |results| == |steps|
      ensures forall k :: 0 <= k < |steps| ==>
                results[k] == AnswerOf(Perform(states[k], steps[k], recoveryMax)) && LiveOnly(results[k])
    {
      hide Driven, Next, Initial, Perform, Good, LiveOnly;
      results := [];
      TraceIsSafe(states, steps, recoveryMax, 0);
      for i := 0 to |steps|
        invariant t.Snapshot() == states[i] && Good(states[i], recoveryMax)
        invariant |results| == i
        invariant forall k :: 0 <= k < i ==>
          results[k] == AnswerOf(Perform(states[k], steps[k], recoveryMax)) && LiveOnly(results[k])
      {
        var r := Serve(t, steps[i]);
        ServedIsNext(states[i], t.Snapshot(), steps[i], recoveryMax, r);
        TraceIsSafe(states, steps, recoveryMax, i);
        TraceIsSafe(states, steps, recoveryMax, i + 1);
        results := results + [r];
      }
    }
  }

  lemma NotDueIsSkipped(s: Rows, i: nat, now: Time)
    ensures i < |s.proposals| && !Due(s.proposals[i], now) ==> Plain(SweepRequest(s, i, now)) == Committed(s, ())
  {
  }

  /** Both invariants. */
  ghost predicate Good(s: Rows, recoveryMax: int) { Inv(s, recoveryMax) && TopicsOk(s.proposals, s.events) }

  /** No consistency error, or one of those that can occur. */
  predicate LiveOnly(r: Result<()>) { r.Err? && r.fault.Broken? ==> r.fault.guard in LIVE_GUARDS }

  lemma ServedIsNext(before: Rows, after: Rows, step: Step, recoveryMax: int, r: Result<()>)
    requires Did(before, after, Perform(before, step, recoveryMax), r)
    ensures after == Next(before, step, recoveryMax) && r == AnswerOf(Perform(before, step, recoveryMax))
  {
    hide Perform;
  }

  /** What a caller may count on: a driven call on good rows leaves good rows, and raises no consistency
      error but a live one. */
  lemma ServedIsSafe(before: Rows, after: Rows, step: Step, recoveryMax: int, r: Result<()>)
    requires Good(before, recoveryMax) && Driven(before, step) && 0 <= recoveryMax
    requires Did(before, after, Perform(before, step, recoveryMax), r)
    ensures Good(after, recoveryMax) && LiveOnly(r)
  {
    hide Inv, TopicsOk, Driven, Perform, Next;
    ServedIsNext(before, after, step, recoveryMax, r);
    StepKeeps(before, step, recoveryMax);
    StepKeepsTopics(before, step, recoveryMax);
    GuardsAreDead(before, step, recoveryMax);
  }

  lemma TraceIsSafe(states: seq<Rows>, steps: seq<Step>, recoveryMax: int, n: nat)
    requires Trace(states, steps, recoveryMax) && n < |states|
    ensures Good(states[n], recoveryMax)
    ensures n < |steps| ==>
              states[n + 1] == Next(states[n], steps[n], recoveryMax)
              && LiveOnly(AnswerOf(Perform(states[n], steps[n], recoveryMax)))
  {
    hide Inv, TopicsOk, Driven, Perform, Next, Initial;
    TraceIsGood(states, steps, recoveryMax, n);
    TraceKeepsTopics(states, steps, recoveryMax, n);
    if n < |steps| {
      assert Driven(states[n], steps[n]);
      GuardsAreDead(states[n], steps[n], recoveryMax);
    }
  }
}
