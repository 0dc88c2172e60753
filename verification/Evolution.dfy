/** How the rows of one run may change over time: what each step, and so every later state,
    preserves as history. */
module Evolution {
  import opened Options
  import opened Rows
  import opened Actions
  import opened Approvals
  import opened ActionExecution
  import opened Jobs
  import opened Protocol

  /** The statuses an intent can still reach, itself included. */
  predicate IntentReaches(a: IntentStatus, b: IntentStatus)
  {
    match a
    case Proposed => true
    case Authorized => b != Proposed
    case Executing => b in {Executing, Succeeded, Failed, OutcomeUnknown}
    case _ => b == a
  }

  predicate RequestReaches(a: RequestStatus, b: RequestStatus)
  {
    match a
    case Pending => true
    case Approved => b in {Approved, Consumed, Expired}
    case _ => b == a
  }

  predicate RunReaches(a: RunStatus, b: RunStatus)
  {
    match a
    case RunQueued => true
    case RunRunning => b != RunQueued
    case RunWaiting => b != RunQueued
    case _ => b == a
  }

  predicate Evolves(p: Proposal, q: Proposal)
  {
    && IntentReaches(p.intent.status, q.intent.status)
    && q.intent.id == p.intent.id && q.intent.revision == p.intent.revision && q.intent.args == p.intent.args
    && q.intent.recoveryAttempts >= p.intent.recoveryAttempts
    && p.decisions <= q.decisions
    && (p.intent.status in {Succeeded, Failed, OutcomeUnknown} ==> q.intent == p.intent && q.invocation == p.invocation)
    && (p.request.Some? && p.request.value.status == Consumed ==> q.request == p.request)
    && (p.request.Some? ==>
          && q.request.Some?
          && RequestReaches(p.request.value.status, q.request.value.status)
          && q.request.value.id == p.request.value.id && q.request.value.binding == p.request.value.binding
          && q.request.value.expiresAt == p.request.value.expiresAt
          && q.request.value.version >= p.request.value.version)
    && (p.invocation.Some? ==>
          q.invocation.Some? && q.invocation.value.attempt >= p.invocation.value.attempt)
  }

  predicate ProposalsEvolve(ps: seq<Proposal>, qs: seq<Proposal>)
  {
    |ps| <= |qs| && forall i :: 0 <= i < |ps| ==> Evolves(ps[i], qs[i])
  }

  predicate RunEvolves(r: Run, t: Run)
  {
    && t.mode == r.mode && t.graphVersion == r.graphVersion
    && RunReaches(r.status, t.status)
    && (r.startedAt.Some? && r.status != RunQueued ==> t.startedAt == r.startedAt)
    && (r.cancelRequestedAt.Some? ==> t.cancelRequestedAt == r.cancelRequestedAt)
    && (Terminal(r.status) ==>
          t.finishedAt == r.finishedAt && t.errorCategory == r.errorCategory && t.hasResult == r.hasResult)
  }

  /** Nothing may be sent any more: the creator was removed, or a cancellation recorded, or
      the run has ended. */
  predicate Barred(s: Rows) { !s.memberActive || s.run.cancelRequestedAt.Some? || Terminal(s.run.status) }

  /** `t` is a later state than `s`: logs only grow, statuses only advance, a revocation
      and a terminal run are for good, and a barred run authorizes no further call. */
  predicate Later(s: Rows, t: Rows)
  {
    && ProposalsEvolve(s.proposals, t.proposals)
    && RunEvolves(s.run, t.run)
    && s.events <= t.events && s.portal <= t.portal && s.issued <= t.issued
    && (t.memberActive ==> s.memberActive)
    && t.job.maxAttempts == s.job.maxAttempts
    && (Barred(s) ==> t.wire <= s.wire)
  }

  // ---- Topics of the event log ----------------------------------------------

  predicate Topical(k: EventKind)
  {
    k.ActionProposed? || k.ActionCancelledEvent? || (k.ApprovalExpiredEvent? && k.why == Superseded)
  }

  /** The step adds no proposal and no event that a replay reads back. */
  predicate Quiet(s: Rows, t: Rows)
  {
    && |t.proposals| == |s.proposals| && s.events <= t.events
    && forall j :: |s.events| <= j < |t.events| ==> !Topical(t.events[j].kind)
  }

  predicate IsTopical(step: Step)
  {
    step.DoPrepareAction? || step.DoSupersede? || step.DoCancelAction? || step.DoCancelRun?
  }

  /** `Later`, and silent about the topics of replays where `quiet` asks for it. */
  predicate Onward(s: Rows, t: Rows, quiet: bool) { Later(s, t) && (quiet ==> Quiet(s, t)) }

  // ---- Building blocks ------------------------------------------------------

  lemma Stay(s: Rows)
    ensures Onward(s, s, true) && Onward(s, s, false)
  {
  }

  lemma LaterIsTransitive(s: Rows, t: Rows, u: Rows)
    requires Later(s, t) && Later(t, u)
    ensures Later(s, u)
  {
    forall i | 0 <= i < |s.proposals| ensures Evolves(s.proposals[i], u.proposals[i]) {
      assert Evolves(s.proposals[i], t.proposals[i]) && Evolves(t.proposals[i], u.proposals[i]);
    }
  }

  lemma ThenAppend(s: Rows, t: Rows, k: EventKind, quiet: bool)
    requires Onward(s, t, quiet) && (quiet ==> !Topical(k))
    ensures Onward(s, Append(t, k), quiet)
  {
    hide Evolves;
  }

  lemma ThenRewrite(s: Rows, t: Rows, i: nat, q: Proposal, quiet: bool)
    requires Onward(s, t, quiet) && s.proposals == t.proposals && i < |t.proposals| && Evolves(t.proposals[i], q)
    ensures Onward(s, SetProposal(t, i, q), quiet)
  {
  }

  lemma ThenJob(s: Rows, t: Rows, j: Job, quiet: bool)
    requires Onward(s, t, quiet) && j.maxAttempts == t.job.maxAttempts
    ensures Onward(s, t.(job := j), quiet)
  {
  }

  lemma ThenRun(s: Rows, t: Rows, r: Run, quiet: bool)
    requires Onward(s, t, quiet) && RunEvolves(s.run, r)
    ensures Onward(s, t.(run := r), quiet)
  {
    hide Evolves;
  }

  lemma ThenEnd(s: Rows, t: Rows, v: Jobs.Verdict, now: Time, quiet: bool)
    requires Onward(s, t, quiet)
    ensures Onward(s, EndRun(t, v, now), quiet)
  {
    hide Evolves, TerminalTime;
  }

  /** The rest of a row is history or outside the run: it may change freely. */
  lemma ThenOutside(s: Rows, t: Rows, wire: set<Message>, executing: Option<Token>, quiet: bool)
    requires Onward(s, t, quiet) && (Barred(s) ==> wire <= t.wire)
    ensures Onward(s, t.(wire := wire, executing := executing), quiet)
  {
    hide Evolves;
  }

  // ---- actions.py, approvals.py ---------------------------------------------

  lemma InsertIsLater(s: Rows, t: Rows, c: Propose, allowCreate: bool)
    requires Onward(s, t, false)
    ensures var o := InsertProposal(t, c, allowCreate); o.Committed? ==> Onward(s, o.rows, false)
  {
    hide EventsAbout, FindIntent, FindRevision;
  }

  lemma RetireIsLater(s: Rows, i: nat)
    requires i < |s.proposals| && s.proposals[i].request.Some?
    requires s.proposals[i].intent.status in {Proposed, Authorized}
    ensures Onward(s, Retire(s, i), false)
  {
    Stay(s);
    ThenRewrite(s, s, i, Retire(s, i).proposals[i], false);
  }

  lemma ActionStepIsLater(s: Rows, step: Step, recoveryMax: int)
    requires step.DoPrepareAction? || step.DoSupersede? || step.DoCancelAction?
    ensures Onward(s, Next(s, step, recoveryMax), false)
  {
    hide Onward, EventsAbout, FindIntent, InsertProposal, Retire;
    Stay(s);
    match step
    case DoPrepareAction(c) => InsertIsLater(s, s, c, true);
    case DoSupersede(old_, c) =>
      var found := FindIntent(s.proposals, old_);
      InsertIsLater(s, s, c, false);
      if found.Some? && s.proposals[found.value].request.Some?
         && s.proposals[found.value].intent.status in {Proposed, Authorized} {
        RetireIsLater(s, found.value);
        InsertIsLater(s, Retire(s, found.value), c, true);
      }
    case DoCancelAction(_, id, request, rejected) =>
      var found := FindIntent(s.proposals, id);
      if found.Some? && s.proposals[found.value].intent.status in {Proposed, Authorized} {
        var p := s.proposals[found.value];
        var q := p.(intent := p.intent.(status := Cancelled));
        ThenRewrite(s, s, found.value, q, false);
        ThenAppend(s, SetProposal(s, found.value, q),
                   ActionCancelledEvent(id, request, if rejected then ApprovalRejected else ApprovalExpired), false);
      }
  }

  /** One group rewritten, calls put on the wire, the job row replaced, an event appended. */
  lemma RewriteIsLater(s: Rows, i: nat, q: Proposal, wire: set<Message>, job: Job, k: EventKind)
    requires i < |s.proposals| && Evolves(s.proposals[i], q) && job.maxAttempts == s.job.maxAttempts && !Topical(k)
    requires Barred(s) ==> wire <= s.wire
    ensures
      var t := SetProposal(s, i, q).(wire := wire, job := job);
      Onward(s, t, true) && Onward(s, Append(t, k), true)
  {
    hide Onward, Evolves;
    Stay(s);
    var t := SetProposal(s, i, q);
    ThenRewrite(s, s, i, q, true);
    ThenOutside(s, t, wire, t.executing, true);
    ThenJob(s, t.(wire := wire), job, true);
    ThenAppend(s, t.(wire := wire, job := job), k, true);
  }

  lemma DecideIsLater(s: Rows, c: Decide)
    ensures var o := DecideApproval(s, c); o.Committed? ==> Onward(s, o.rows, true)
  {
    hide Onward;
    Stay(s);
    var o, found := DecideApproval(s, c), FindIntent(s.proposals, c.intent);
    if o.Committed? && o.rows != s {
      var r := s.proposals[found.value].request.value;
      RewriteIsLater(s, found.value, o.rows.proposals[found.value], s.wire, o.rows.job,
                     ApprovalDecided(c.intent, r.id, c.verdict, r.version + 1));
    }
  }

  lemma SweepIsLater(s: Rows, i: nat, now: Time)
    requires i < |s.proposals|
    ensures var o := SweepRequest(s, i, now); o.Committed? ==> Onward(s, o.rows, true)
  {
    hide Onward;
    Stay(s);
    var o, p := SweepRequest(s, i, now), s.proposals[i];
    if o.Committed? && o.rows != s {
      RewriteIsLater(s, i, o.rows.proposals[i], s.wire, o.rows.job,
                     ApprovalExpiredEvent(p.intent.id, p.request.value.id, p.intent.revision, NaturalExpiry));
    }
  }

  // ---- action_execution.py --------------------------------------------------

  lemma PrepareExecutionIsLater(s: Rows, id: Identity, now: Time)
    ensures var o := PrepareExecution(s, id, now); o.Committed? ==> Onward(s, o.rows, true)
  {
    hide Onward, FindIntent, ApproveCount;
    Stay(s);
    var o, b := PrepareExecution(s, id, now), LockBoundRows(s, id);
    if o.Committed? && o.rows != s {
      RewriteIsLater(s, b.i, o.rows.proposals[b.i], s.wire, s.job, AgentEvent(0));
    }
  }

  lemma BeginSendIsLater(s: Rows, id: Identity, now: Time)
    ensures var o := BeginSend(s, id, now); o.Committed? ==> Onward(s, o.rows, true)
  {
    hide Onward, FindIntent;
    var o, b := BeginSend(s, id, now), LockBoundRows(s, id);
    if o.Committed? {
      RewriteIsLater(s, b.i, o.rows.proposals[b.i], o.rows.wire, s.job, ActionStarted(id.intent));
    }
  }

  lemma ReconcileIsLater(s: Rows, id: Identity, recoveryMax: int, now: Time)
    ensures var o := BeginReconciliation(s, id, recoveryMax, now); o.Committed? ==> Onward(s, o.rows, true)
  {
    hide Onward, LockBoundRows;
    var o, b := BeginReconciliation(s, id, recoveryMax, now), LockExecuting(s, id, true);
    if o.Committed? {
      RewriteIsLater(s, b.i, o.rows.proposals[b.i], s.wire, s.job, ActionOutcomeUnknown(s.proposals[b.i].intent.id));
    }
  }

  lemma ResendIsLater(s: Rows, id: Identity, expected: int, now: Time)
    ensures var o := AuthorizeResend(s, id, expected, now); o.Committed? ==> Onward(s, o.rows, true)
  {
    hide Onward, LockBoundRows;
    var o, b := AuthorizeResend(s, id, expected, now), LockExecuting(s, id, false);
    if o.Committed? {
      var category := if !s.memberActive then AuthorizationRevoked else CancelledConfirmedAbsent;
      RewriteIsLater(s, b.i, o.rows.proposals[b.i], o.rows.wire, s.job,
                     ActionFailed(s.proposals[b.i].intent.id, category));
    }
  }

  lemma ConfirmIsLater(s: Rows, id: Identity, category: Category, evidence: Evidence, now: Time)
    ensures var o := ConfirmSuccess(s, id, now); o.Committed? ==> Onward(s, o.rows, true)
    ensures var o := ConfirmFailure(s, id, category, evidence, now); o.Committed? ==> Onward(s, o.rows, true)
    ensures var o := ConfirmOutcomeUnknown(s, id, evidence, now); o.Committed? ==> Onward(s, o.rows, true)
  {
    hide Onward, LockBoundRows;
    var b, c := LockExecuting(s, id, true), LockExecuting(s, id, false);
    if c.Bound? {
      var key := s.proposals[c.i].intent.id;
      var failed, unknown := MarkFailed(s, c.i, category, evidence, now), MarkUnknown(s, c.i, evidence, now);
      RewriteIsLater(s, c.i, failed.proposals[c.i], s.wire, s.job, ActionFailed(key, category));
      RewriteIsLater(s, c.i, unknown.proposals[c.i], s.wire, s.job, ActionOutcomeUnknown(key));
      if b.Bound? {
        RewriteIsLater(s, b.i, ConfirmSuccess(s, id, now).rows.proposals[b.i], s.wire, s.job, ActionCompleted(key));
      }
    }
  }

  // ---- jobs.py, runs.py -----------------------------------------------------

  lemma ConvergeIsLater(s: Rows, i: nat, now: Time)
    requires i < |s.proposals|
    ensures var o := Converge(s, i, now); o.Committed? ==> Onward(s, o.rows, true)
  {
    hide Onward;
    Stay(s);
    if Converge(s, i, now).Committed? {
      var v := ConvergedVerdict(s, s.proposals[i]);
      ThenJob(s, s, LeaveJob(s.job, JobDone, SummaryOf(v)), true);
      ThenEnd(s, SetJob(s, JobDone, SummaryOf(v)), v, now, true);
    }
  }

  lemma CloseIsLater(s: Rows, t: Rows, j: Job, v: Jobs.Verdict, now: Time)
    requires Onward(s, t, true) && j.maxAttempts == t.job.maxAttempts
    ensures Onward(s, t.(job := j), true) && Onward(s, EndRun(t.(job := j), v, now), true)
  {
    hide Onward;
    ThenJob(s, t, j, true);
    ThenEnd(s, t.(job := j), v, now, true);
  }

  lemma DeathIsLater(s: Rows, t: Rows, attempt: int, category: Category, now: Time)
    requires Onward(s, t, true)
    ensures
      Onward(s, MarkRunFailed(Append(SetJob(t, JobDead, Some(category)), JobDeadEvent(attempt, category)), category, now),
             true)
  {
    hide Onward;
    var t1 := SetJob(t, JobDead, Some(category));
    ThenJob(s, t, LeaveJob(t.job, JobDead, Some(category)), true);
    ThenAppend(s, t1, JobDeadEvent(attempt, category), true);
    ThenEnd(s, Append(t1, JobDeadEvent(attempt, category)), FailRun(category), now, true);
  }

  lemma GiveUpIsLater(s: Rows, t: Rows, i: nat, recoveryMax: int, now: Time, delay: Time)
    requires Onward(s, t, true) && s.proposals == t.proposals
    requires i < |t.proposals| && t.proposals[i].intent.status == Executing
    ensures var o := GiveUpInDoubt(t, i, recoveryMax, now, delay); o.Committed? ==> Onward(s, o.rows, true)
  {
    hide Onward;
    var p := t.proposals[i];
    ThenJob(s, t, RequeueJob(t, ActionRecoveryRequired, now + delay).job, true);
    if p.invocation.Some? {
      var t1 := SetJob(t, JobDone, Some(ExternalOutcomeUnknown));
      var t2 := MarkUnknown(t1, i, EXHAUSTED, now);
      ThenJob(s, t, t1.job, true);
      ThenRewrite(s, t1, i, t2.proposals[i], true);
      ThenAppend(s, SetProposal(t1, i, t2.proposals[i]), ActionOutcomeUnknown(p.intent.id), true);
      ThenEnd(s, t2, FailRun(ExternalOutcomeUnknown), now, true);
    }
  }

  lemma ClaimIsLater(s: Rows, step: Step, recoveryMax: int)
    requires step.DoClaim?
    ensures Onward(s, Next(s, step, recoveryMax), true)
  {
    hide Evolves, SomeRecoverable, FirstWith;
    Stay(s);
    assert forall i :: 0 <= i < |s.proposals| ==> Evolves(s.proposals[i], s.proposals[i]);
  }

  lemma PrepareJobIsLater(s: Rows, h: ClaimedJob, executable: set<int>, now: Time)
    ensures var o := PrepareClaimedJob(s, h, executable, now); o.Committed? ==> Onward(s, o.rows, true)
  {
    hide Onward, FirstWith, ResumeFault, Converge;
    Stay(s);
    var ended := FirstWith(s.proposals, {Failed, OutcomeUnknown});
    if ended.Some? { ConvergeIsLater(s, ended.value, now); }
    CloseIsLater(s, s, LeaveJob(s.job, JobDone, None), CancelRun(AuthorizationRevoked), now);
    CloseIsLater(s, s, LeaveJob(s.job, JobDone, None), CancelRun(UserRequested), now);
    DeathIsLater(s, s, s.job.attempt, UnsupportedGraphVersion, now);
    if !Terminal(s.run.status) { StartIsLater(s, h, now); }
  }

  lemma StartIsLater(s: Rows, h: ClaimedJob, now: Time)
    requires !Terminal(s.run.status)
    ensures var o := StartRun(s, h, now); o.Committed? ==> Onward(s, o.rows, true)
  {
    hide Onward, ResumeFault;
    Stay(s);
    var o := StartRun(s, h, now);
    ThenOutside(s, s, s.wire, Some(h.token), true);
    if o.Committed? && o.rows.run != s.run {
      var r := if s.run.status == RunQueued then s.run.(status := RunRunning, startedAt := Some(now))
               else s.run.(status := RunRunning);
      ThenRun(s, s, r, true);
      ThenOutside(s, s.(run := r), s.wire, Some(h.token), true);
      ThenAppend(s, s.(run := r, executing := Some(h.token)), RunStatusChanged(s.run.status, RunRunning), true);
    }
  }

  lemma HeartbeatIsLater(s: Rows, h: ClaimedJob, now: Time, duration: Time)
    ensures var o := Heartbeat(s, h, now, duration); o.Committed? ==> Onward(s, o.rows, true)
  {
    hide Onward;
    Stay(s);
    ThenJob(s, s, After(s, Heartbeat(s, h, now, duration)).job, true);
  }

  lemma CompleteIsLater(s: Rows, h: ClaimedJob, publishes: bool, now: Time)
    ensures var o := Complete(s, h, publishes, now); o.Committed? ==> Onward(s, o.rows, true)
  {
    hide Onward, MarkRunCancelled;
    Stay(s);
    var done := LeaveJob(s.job, JobDone, None);
    CloseIsLater(s, s, done, CancelRun(UserRequested), now);
    CloseIsLater(s, s, done, CancelRun(AuthorizationRevoked), now);
    if s.run.status == RunRunning {
      var run := s.run.(status := RunCompleted, hasResult := true, errorCategory := None,
                        finishedAt := Some(TerminalTime(s.run, now)));
      ThenRun(s, s.(job := done), run, true);
      ThenAppend(s, s.(job := done, run := run), RunCompletedEvent, true);
    }
  }

  lemma WaitIsLater(s: Rows, h: ClaimedJob, request: RequestId, now: Time)
    ensures var o := WaitForApproval(s, h, request, now); o.Committed? ==> Onward(s, o.rows, true)
  {
    hide Onward, FindRequest;
    Stay(s);
    if s.run.status == RunRunning {
      var done, run := LeaveJob(s.job, JobDone, None), s.run.(status := RunWaiting);
      ThenJob(s, s, done, true);
      ThenRun(s, s.(job := done), run, true);
      ThenAppend(s, s.(job := done, run := run), RunStatusChanged(RunRunning, RunWaiting), true);
    }
  }

  lemma FailIsLater(s: Rows, h: ClaimedJob, category: Category, recoveryMax: int, now: Time, delay: Time)
    ensures var o := FailJob(s, h, category, recoveryMax, now, delay); o.Committed? ==> Onward(s, o.rows, true)
  {
    hide Onward, FirstWith, GiveUpInDoubt, Converge, MarkRunFailed, MarkRunCancelled;
    Stay(s);
    var found := FirstWith(s.proposals, {Executing, Succeeded, Failed, OutcomeUnknown});
    if found.Some? {
      ConvergeIsLater(s, found.value, now);
      if s.proposals[found.value].intent.status == Executing {
        GiveUpIsLater(s, s, found.value, recoveryMax, now, delay);
      }
    }
    ThenJob(s, s, LeaveJob(s.job, JobDone, Some(category)), true);
    ThenJob(s, s, LeaveJob(s.job, JobDead, Some(category)), true);
    CloseIsLater(s, s, LeaveJob(s.job, JobDone, None), CancelRun(UserRequested), now);
    DeathIsLater(s, s, h.attempt, category, now);
  }

  lemma CancelJobIsLater(s: Rows, h: ClaimedJob, reason: Category, now: Time, delay: Time)
    ensures var o := CancelJob(s, h, reason, now, delay); o.Committed? ==> Onward(s, o.rows, true)
  {
    hide Onward, FirstWith, Converge, MarkRunCancelled;
    Stay(s);
    var found := FirstWith(s.proposals, {Executing, Failed, OutcomeUnknown});
    if found.Some? { ConvergeIsLater(s, found.value, now); }
    var persisted := if s.run.cancelRequestedAt.Some? then UserRequested
                     else if !s.memberActive then AuthorizationRevoked else reason;
    ThenJob(s, s, RequeueJob(s, ActionRecoveryRequired, now + delay).job, true);
    CloseIsLater(s, s, LeaveJob(s.job, JobDone, None), CancelRun(persisted), now);
  }

  lemma RequeueIsLater(s: Rows, h: ClaimedJob, category: Category, now: Time, delay: Time)
    ensures var o := Requeue(s, h, category, now, delay); o.Committed? ==> Onward(s, o.rows, true)
    ensures var o := Release(s, h, category, now, delay); o.Committed? ==> Onward(s, o.rows, true)
  {
    hide Onward, FirstWith, MarkRunCancelled;
    Stay(s);
    ThenJob(s, s, RequeueJob(s, category, now + delay).job, true);
    CloseIsLater(s, s, LeaveJob(s.job, JobDone, None).(availableAt := now + delay), CancelRun(UserRequested), now);
  }

  lemma ReclaimIsLater(s: Rows, recoveryMax: int, now: Time, delay: Time)
    ensures var o := ReclaimOne(s, recoveryMax, now, delay); o.Committed? ==> Onward(s, o.rows, true)
  {
    hide Onward, FirstWith, GiveUpInDoubt, Converge, MarkRunFailed, MarkRunCancelled, FindRequest;
    Stay(s);
    var found := FirstWith(s.proposals, {Executing, Succeeded, Failed, OutcomeUnknown});
    var t := Append(s, JobLeaseExpired(s.job.attempt));
    ThenAppend(s, s, JobLeaseExpired(s.job.attempt), true);
    if found.Some? {
      ConvergeIsLater(s, found.value, now);
      if s.proposals[found.value].intent.status == Executing {
        GiveUpIsLater(s, t, found.value, recoveryMax, now, delay);
      }
    }
    ThenJob(s, t, RequeueJob(t, TerminalActionConvergence, now + delay).job, true);
    ThenJob(s, t, RequeueJob(t, LeaseExpired, now + delay).job, true);
    CloseIsLater(s, s, LeaveJob(s.job, JobDone, None), CancelRun(UserRequested), now);
    DeathIsLater(s, t, t.job.attempt, UnexpectedWaitingApproval, now);
    DeathIsLater(s, t, t.job.attempt, JobAttemptsExhausted, now);
  }

  lemma CancelWaitingIsLater(s: Rows, now: Time)
    requires s.run.status == RunWaiting
    ensures var o := CancelWaiting(s, now); o.Committed? ==> Onward(s, o.rows, false)
  {
    hide Onward, FirstWith;
    Stay(s);
    var o, active := CancelWaiting(s, now), FirstWith(s.proposals, {Proposed, Authorized});
    if o.Committed? {
      var p, q := s.proposals[active.value], o.rows.proposals[active.value];
      var open := ApprovalExpiredEvent(p.intent.id, p.request.value.id, p.intent.revision, ExpiredByUser);
      var cancelled := ActionCancelledEvent(p.intent.id, p.request.value.id, CancelledByUser);
      var s1 := if p.request.value.status in {Pending, Approved} then Append(s, open) else s;
      var s2 := SetProposal(s1, active.value, q);
      var s3 := Append(s2, cancelled);
      var s4 := SetJob(s3, JobDone, None);
      ThenAppend(s, s, open, false);
      ThenRewrite(s, s1, active.value, q, false);
      ThenAppend(s, s2, cancelled, false);
      ThenJob(s, s3, s4.job, false);
      var run := s4.run.(status := RunCancelled, finishedAt := o.rows.run.finishedAt);
      ThenRun(s, s4, run, false);
      ThenAppend(s, s4.(run := run), RunCancelledEvent(RunWaiting, UserRequested), false);
    }
  }

  lemma CancelRunIsLater(s: Rows, authorized: bool, now: Time)
    ensures var o := CancelRunByUser(s, authorized, now); o.Committed? ==> Onward(s, o.rows, false)
  {
    hide Onward, FirstWith, CancelWaiting;
    Stay(s);
    if s.run.status == RunWaiting { CancelWaitingIsLater(s, now); }
    var r := s.run.(status := RunCancelled, finishedAt := Some(now));
    if s.run.status == RunRunning && s.run.cancelRequestedAt.None? {
      ThenRun(s, s, s.run.(cancelRequestedAt := Some(now)), false);
    } else if s.run.status == RunQueued {
      var done := LeaveJob(s.job, JobDone, None);
      ThenJob(s, s, done, false);
      ThenRun(s, s.(job := done), r, false);
      ThenAppend(s, s.(job := done, run := r), RunCancelledEvent(RunQueued, UserRequested), false);
    }
  }

  // ---- Every step -----------------------------------------------------------

  lemma DeliverIsLater(s: Rows, m: Message)
    ensures Onward(s, s.(portal := PutIfAbsent(s.portal, m).0), true)
  {
    hide Evolves, RunEvolves;
    Stay(s);
    assert ProposalsEvolve(s.proposals, s.proposals) && RunEvolves(s.run, s.run);
  }

  lemma RevokeIsLater(s: Rows)
    ensures Onward(s, s.(memberActive := false), true)
  {
    hide Evolves, RunEvolves;
    Stay(s);
    assert ProposalsEvolve(s.proposals, s.proposals) && RunEvolves(s.run, s.run);
  }

  lemma WorkerStepIsLater(s: Rows, step: Step, recoveryMax: int)
    requires IsWorkerStep(step)
    ensures Onward(s, Next(s, step, recoveryMax), !IsTopical(step))
  {
    hide Onward, Claim, PrepareClaimedJob, Heartbeat, Complete, WaitForApproval, Requeue, FailJob, CancelJob, Release,
      ReclaimOne, CancelRunByUser, Stale;
    Stay(s);
    match step
    case DoClaim(_, _, _, _, _) => ClaimIsLater(s, step, recoveryMax);
    case DoPrepareJob(h, x, now) => PrepareJobIsLater(s, h, x, now);
    case DoHeartbeat(h, now, d) => HeartbeatIsLater(s, h, now, d);
    case DoComplete(h, publishes, now) => CompleteIsLater(s, h, publishes, now);
    case DoWait(h, r, now) => WaitIsLater(s, h, r, now);
    case DoReclaim(x, now, delay) => ReclaimIsLater(s, recoveryMax, now, delay);
    case DoCancelRun(authorized, now) => CancelRunIsLater(s, authorized, now);
    case DoRequeue(h, c, now, delay) => RequeueIsLater(s, h, c, now, delay);
    case DoFail(h, c, now, delay) => FailIsLater(s, h, c, recoveryMax, now, delay);
    case DoCancelJob(h, c, now, delay) => CancelJobIsLater(s, h, c, now, delay);
    case DoRelease(h, c, now, delay) => RequeueIsLater(s, h, c, now, delay);
  }

  /** Every step of every party, driven as assumed or not, only moves the rows forward, and
      only four kinds of step can add an event that a replay reads back. */
  lemma StepIsLater(s: Rows, step: Step, recoveryMax: int)
    ensures Later(s, Next(s, step, recoveryMax))
    ensures !IsTopical(step) ==> Quiet(s, Next(s, step, recoveryMax))
  {
    hide Later, Quiet, PrepareAction, SupersedeAction, CancelAction, DecideApproval, SweepRequest, PrepareExecution,
      BeginSend, BeginReconciliation, AuthorizeResend, ConfirmSuccess, ConfirmFailure, ConfirmOutcomeUnknown,
      PutIfAbsent;
    Stay(s);
    if IsWorkerStep(step) {
      WorkerStepIsLater(s, step, recoveryMax);
    } else {
      match step
      case DoPrepareAction(_) => ActionStepIsLater(s, step, recoveryMax);
      case DoSupersede(_, _) => ActionStepIsLater(s, step, recoveryMax);
      case DoCancelAction(_, _, _, _) => ActionStepIsLater(s, step, recoveryMax);
      case DoDecide(c) => DecideIsLater(s, c);
      case DoSweep(i, now) => if i < |s.proposals| { SweepIsLater(s, i, now); }
      case DoPrepareExecution(id, now) => PrepareExecutionIsLater(s, id, now);
      case DoBeginSend(id, now) => BeginSendIsLater(s, id, now);
      case DoReconcile(id, now) => ReconcileIsLater(s, id, recoveryMax, now);
      case DoResend(id, expected, now) => ResendIsLater(s, id, expected, now);
      case DoConfirmSuccess(id, now) => ConfirmIsLater(s, id, UserRequested, EXHAUSTED, now);
      case DoConfirmFailure(id, c, e, now) => ConfirmIsLater(s, id, c, e, now);
      case DoConfirmUnknown(id, e, now) => ConfirmIsLater(s, id, UserRequested, e, now);
      case Revoke => RevokeIsLater(s);
      case Deliver(m) => DeliverIsLater(s, m);
      case Lose(m) => ThenOutside(s, s, s.wire - {m}, s.executing, true);
      case DoAgentEvent(code) => ThenAppend(s, s, AgentEvent(code), true);
    }
  }

  /** Over whole runs: any state is later than every state before it. */
  lemma {:induction false} TraceIsLater(states: seq<Rows>, steps: seq<Step>, recoveryMax: int, m: nat, n: nat)
    requires Trace(states, steps, recoveryMax) && m <= n < |states|
    ensures Later(states[m], states[n])
    decreases n - m
  {
    hide Later, Driven, Next, Initial;
    if m == n {
      Stay(states[m]);
    } else {
      TraceIsLater(states, steps, recoveryMax, m, n - 1);
      assert states[n - 1 + 1] == Next(states[n - 1], steps[n - 1], recoveryMax);
      StepIsLater(states[n - 1], steps[n - 1], recoveryMax);
      LaterIsTransitive(states[m], states[n - 1], states[n]);
    }
  }
}
