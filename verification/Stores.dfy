/** The stores in their own form: transactions that update rows in place, field by field and
    event by event, each proved to commit exactly what its specification function says or to
    leave the rows as they were. */
module Tables {
  import opened Options
  import opened Rows
  import opened Invariant
  import ActionExecution

  /** What a call returns to its caller: an answer, or the exception it raises. */
  datatype Result<+T> = Ok(value: T) | Err(fault: Fault)

  function AnswerOf<T>(o: Outcome<T>): Result<T>
  {
    match o
    case Committed(_, value) => Ok(value)
    case Raised(fault) => Err(fault)
  }

  /** A call that found the rows `before` did what the specification says. */
  ghost predicate Did<T>(before: Rows, after: Rows, o: Outcome<T>, r: Result<T>)
  {
    after == After(before, o) && r == AnswerOf(o)
  }

  /** The rows of one run, as the session's row objects. */
  class RunTables {
    var run: Run
    var job: Job
    var proposals: seq<Proposal>
    var memberActive: bool
    var events: seq<Event>
    var wire: set<Message>
    var portal: seq<Submission>
    var issued: set<ClaimedJob>
    var executing: Option<Token>

    function Snapshot(): Rows
      reads this
    {
      Rows(run, job, proposals, memberActive, events, wire, portal, issued, executing)
    }

    /** A run as it is created, with its job and its first event. */
    constructor (mode: RunMode, graphVersion: int, maxAttempts: int, availableAt: Time)
      ensures Snapshot() == Rows(
        Run(mode, graphVersion, RunQueued, None, None, None, None, false, 2),
        Job(JobQueued, 0, maxAttempts, availableAt, None, None, None),
        [], true, [Event(1, RunCreatedEvent)], {}, [], {}, None)
    {
      run := Run(mode, graphVersion, RunQueued, None, None, None, None, false, 2);
      job := Job(JobQueued, 0, maxAttempts, availableAt, None, None, None);
      proposals := [];
      memberActive := true;
      events := [Event(1, RunCreatedEvent)];
      wire := {};
      portal := [];
      issued := {};
      executing := None;
    }

    /** The transaction rolls its writes back. */
    method Rollback(saved: Rows)
      modifies `run, `job, `proposals, `events
      ensures run == saved.run && job == saved.job && proposals == saved.proposals && events == saved.events
    {
      run, job, proposals, events := saved.run, saved.job, saved.proposals, saved.events;
    }

    method AppendEvent(kind: EventKind)
      modifies `run, `events
      ensures Snapshot() == Append(old(Snapshot()), kind)
    {
      var sequence := run.nextEventSeq;
      run := run.(nextEventSeq := sequence + 1);
      events := events + [Event(sequence, kind)];
    }

    method MarkCancelled(reason: Category, now: Time)
      modifies `run, `events
      ensures Snapshot() == MarkRunCancelled(old(Snapshot()), reason, now)
    {
      if Terminal(run.status) { return; }
      var previous := run.status;
      run := run.(status := RunCancelled);
      run := run.(finishedAt := Some(TerminalTime(run, now)));
      AppendEvent(RunCancelledEvent(previous, reason));
    }

    method MarkFailed(category: Category, now: Time)
      modifies `run, `events
      ensures Snapshot() == MarkRunFailed(old(Snapshot()), category, now)
    {
      if Terminal(run.status) { return; }
      if run.startedAt.None? { run := run.(startedAt := Some(now)); }
      run := run.(status := RunFailed);
      run := run.(errorCategory := Some(category));
      run := run.(finishedAt := Some(TerminalTime(run, now)));
      AppendEvent(RunFailedEvent(category));
    }

    method ClearLease(status: JobStatus)
      modifies `job
      ensures job == old(job).(status := status, lease := None)
    {
      job := job.(status := status);
      job := job.(lease := None);
    }

    method MarkDead(category: Category)
      modifies `job, `run, `events
      ensures Snapshot() ==
        Append(SetJob(old(Snapshot()), JobDead, Some(category)), JobDeadEvent(old(job).attempt, category))
    {
      ClearLease(JobDead);
      job := job.(errorSummary := Some(category));
      AppendEvent(JobDeadEvent(job.attempt, category));
    }

    method SetIntent(i: nat, intent: Intent)
      requires i < |proposals|
      modifies `proposals
      ensures proposals == old(proposals)[i := old(proposals)[i].(intent := intent)]
    {
      proposals := proposals[i := proposals[i].(intent := intent)];
    }

    method SetRequest(i: nat, request: Request)
      requires i < |proposals|
      modifies `proposals
      ensures proposals == old(proposals)[i := old(proposals)[i].(request := Some(request))]
    {
      proposals := proposals[i := proposals[i].(request := Some(request))];
    }

    method SetInvocation(i: nat, invocation: Invocation)
      requires i < |proposals|
      modifies `proposals
      ensures proposals == old(proposals)[i := old(proposals)[i].(invocation := Some(invocation))]
    {
      proposals := proposals[i := proposals[i].(invocation := Some(invocation))];
    }

    /** `SqlAlchemyMockSubmissionRepository.put_if_absent` for a call on this run's key. */
    method PutIfAbsent(m: Message) returns (stored: Submission, created: bool)
      modifies `portal
      ensures portal == ActionExecution.PutIfAbsent(old(portal), m).0
      ensures created == ActionExecution.PutIfAbsent(old(portal), m).1
      ensures stored in portal && stored.key == m.key && (created ==> stored.args == m.args)
      ensures !created ==> stored in old(portal) && portal == old(portal)
    {
      var i := 0;
      while i < |portal|
        invariant 0 <= i <= |portal|
        invariant forall j :: 0 <= j < i ==> portal[j].key != m.key
      {
        if portal[i].key == m.key { return portal[i], false; }
        i := i + 1;
      }
      stored := Submission(m.key, m.args);
      portal := portal + [stored];
      created := true;
    }
  }

  // ---- Many runs ------------------------------------------------------------

  function Snapshots(database: seq<RunTables>): (r: seq<Rows>)
    reads set t | t in database
    ensures |r| == |database| && forall i :: 0 <= i < |r| ==> r[i] == database[i].Snapshot()
  {
    if database == [] then [] else
    Snapshots(database[..|database| - 1]) + [database[|database| - 1].Snapshot()]
  }

  predicate Distinct(database: seq<RunTables>)
  {
    forall i, j :: 0 <= i < j < |database| ==> database[i] != database[j]
  }

  predicate AllGood(rows: seq<Rows>, recoveryMax: int) { forall i :: 0 <= i < |rows| ==> Inv(rows[i], recoveryMax) }
}

module ActionExecutionStores {
  import opened Options
  import opened Rows
  import opened ActionExecution
  import opened Tables

  /** `SqlAlchemyActionExecutionStore`. */
  class ActionExecutionStore {

    constructor () {}

    method PrepareExecution(t: RunTables, id: Identity, now: Time) returns (r: Result<Preparation>)
      modifies t`proposals
      ensures Did(old(t.Snapshot()), t.Snapshot(), ActionExecution.PrepareExecution(old(t.Snapshot()), id, now), r)
    {
      var b := LockBoundRows(t.Snapshot(), id);
      if b.Unbound? { return Err(b.fault); }
      var i := b.i;
      var intent, request := t.proposals[i].intent, t.proposals[i].request.value;
      var invocation := t.proposals[i].invocation;
      if intent.status in {Executing, Succeeded, Failed, OutcomeUnknown} {
        if invocation.None? { return Err(Broken(InvocationMissing)); }
        if !ValidInvocation(t.proposals[i]) { return Err(Broken(InvocationFactsConflict)); }
        if request.status != Consumed || Some(invocation.value.status) != InvocationOf(intent.status)
           || invocation.value.attempt < 1 {
          return Err(Broken(RecoveryFactsConflict));
        }
        return Ok(Ready(intent.status));
      }
      if !t.memberActive {
        r := AbortRevoked(t, i, now);
        return;
      }
      if t.run.status != RunRunning || t.run.cancelRequestedAt.Some? { return Err(Conflict); }
      if request.status == Approved && request.expiresAt <= now {
        t.SetRequest(i, Expire(request));
        return Ok(ApprovalHasExpired);
      }
      if request.status == Consumed && intent.status == Authorized && invocation.Some? {
        if !ValidInvocation(t.proposals[i]) { return Err(Broken(InvocationFactsConflict)); }
        if invocation.value.status != InvPrepared || invocation.value.attempt != 0 {
          return Err(Broken(PreparedRetryConflict));
        }
        return Ok(Ready(Authorized));
      }
      if request.status != Approved || intent.status != Proposed { return Err(Conflict); }
      if invocation.Some? { return Err(Broken(ConflictingInvocation)); }
      if ApproveCount(t.proposals[i].decisions) != 1 { return Err(Broken(DecisionFactsConflict)); }
      t.SetRequest(i, request.(status := Consumed, consumedAt := Some(now), version := request.version + 1));
      t.SetIntent(i, intent.(status := Authorized));
      t.SetInvocation(i, FreshInvocation(intent.args));
      return Ok(Ready(Authorized));
    }

    /** The branch of `prepare_execution` for a revoked membership: rows are written before
        the invocation is checked, so a failed check rolls them back. */
    method AbortRevoked(t: RunTables, i: nat, now: Time) returns (r: Result<Preparation>)
      requires i < |t.proposals| && t.proposals[i].request.Some?
      modifies t`proposals
      ensures
        var p := old(t.proposals)[i];
        if p.invocation.Some? && !ValidInvocation(p) then
          r == Err(Broken(InvocationFactsConflict)) && t.proposals == old(t.proposals)
        else if p.invocation.Some? && p.invocation.value.status != InvPrepared then
          r == Err(Broken(RevokedActionMayBeSent)) && t.proposals == old(t.proposals)
        else r == Ok(MembershipRevoked) && t.proposals == old(t.proposals)[i := Revoked(p, now)]
    {
      var saved := t.proposals;
      var intent, request := t.proposals[i].intent, t.proposals[i].request.value;
      if request.status in {Pending, Approved} { t.SetRequest(i, Expire(request)); }
      if intent.status in {Proposed, Authorized} { t.SetIntent(i, intent.(status := Cancelled)); }
      if t.proposals[i].invocation.Some? {
        var v := t.proposals[i].invocation.value;
        if !ValidInvocation(t.proposals[i]) {
          t.proposals := saved;
          return Err(Broken(InvocationFactsConflict));
        }
        if v.status != InvPrepared {
          t.proposals := saved;
          return Err(Broken(RevokedActionMayBeSent));
        }
        t.SetInvocation(i, AbortInvocation(v, AbortedBeforeSend, now));
      }
      return Ok(MembershipRevoked);
    }

    /** The commit of an allowed send puts the call on the wire. */
    method BeginSend(t: RunTables, id: Identity, now: Time) returns (r: Result<SendAuthorization>)
      modifies t`proposals, t`wire, t`run, t`events
      ensures Did(old(t.Snapshot()), t.Snapshot(), ActionExecution.BeginSend(old(t.Snapshot()), id, now), r)
    {
      var b := LockBoundRows(t.Snapshot(), id);
      if b.Unbound? { return Err(b.fault); }
      var i := b.i;
      var intent := t.proposals[i].intent;
      if t.proposals[i].invocation.None? { return Err(Broken(InvocationMissing)); }
      if !ValidInvocation(t.proposals[i]) { return Err(Broken(InvocationFactsConflict)); }
      var v := t.proposals[i].invocation.value;
      if t.proposals[i].request.value.status != Consumed || intent.status != Authorized
         || v.status != InvPrepared || v.attempt != 0 {
        return Err(Conflict);
      }
      if !t.memberActive || t.run.status != RunRunning || t.run.cancelRequestedAt.Some? {
        var category := if !t.memberActive then AbortedBeforeSend else CancelledBeforeSend;
        t.SetIntent(i, intent.(status := Cancelled));
        t.SetInvocation(i, AbortInvocation(v, category, now));
        return Ok(SendRefused(category));
      }
      t.SetIntent(i, intent.(status := Executing));
      t.SetInvocation(i, v.(status := InvExecuting, attempt := 1, startedAt := Some(now)));
      t.wire := t.wire + {Message(intent.id, intent.args, 1)};
      t.AppendEvent(ActionStarted(intent.id));
      return Ok(SendAllowed);
    }

    method MarkFailed(t: RunTables, i: nat, category: Category, evidence: Evidence, now: Time)
      requires i < |t.proposals| && t.proposals[i].invocation.Some?
      modifies t`proposals, t`run, t`events
      ensures t.Snapshot() == ActionExecution.MarkFailed(old(t.Snapshot()), i, category, evidence, now)
    {
      var intent := t.proposals[i].intent;
      t.SetIntent(i, intent.(status := Failed, hasResult := false, evidence := Some(evidence)));
      t.SetInvocation(i, t.proposals[i].invocation.value.(
        status := InvFailed, hasResult := false, errorCategory := Some(category), finishedAt := Some(now)));
      t.AppendEvent(ActionFailed(intent.id, category));
    }

    method MarkUnknown(t: RunTables, i: nat, evidence: Evidence, now: Time)
      requires i < |t.proposals| && t.proposals[i].invocation.Some?
      modifies t`proposals, t`run, t`events
      ensures t.Snapshot() == ActionExecution.MarkUnknown(old(t.Snapshot()), i, evidence, now)
    {
      var intent := t.proposals[i].intent;
      t.SetIntent(i, intent.(status := OutcomeUnknown, hasResult := false, evidence := Some(evidence)));
      t.SetInvocation(i, t.proposals[i].invocation.value.(
        status := InvUnknown, hasResult := false, errorCategory := Some(ExternalOutcomeUnknown),
        finishedAt := Some(now)));
      t.AppendEvent(ActionOutcomeUnknown(intent.id));
    }

    method BeginReconciliation(t: RunTables, id: Identity, maxAttempts: int, now: Time)
      returns (r: Result<Reconciliation>)
      modifies t`proposals, t`run, t`events
      ensures Did(old(t.Snapshot()), t.Snapshot(),
                  ActionExecution.BeginReconciliation(old(t.Snapshot()), id, maxAttempts, now), r)
    {
      var b := LockExecuting(t.Snapshot(), id, true);
      if b.Unbound? { return Err(b.fault); }
      var intent := t.proposals[b.i].intent;
      if intent.recoveryAttempts >= maxAttempts {
        MarkUnknown(t, b.i, EXHAUSTED, now);
        return Ok(Exhausted);
      }
      t.SetIntent(b.i, intent.(recoveryAttempts := intent.recoveryAttempts + 1));
      return Ok(NetworkAllowed(intent.recoveryAttempts + 1));
    }

    method AuthorizeResend(t: RunTables, id: Identity, expected: int, now: Time)
      returns (r: Result<ResendAuthorization>)
      modifies t`proposals, t`wire, t`run, t`events
      ensures Did(old(t.Snapshot()), t.Snapshot(),
                  ActionExecution.AuthorizeResend(old(t.Snapshot()), id, expected, now), r)
    {
      var b := LockExecuting(t.Snapshot(), id, false);
      if b.Unbound? { return Err(b.fault); }
      var intent, v := t.proposals[b.i].intent, t.proposals[b.i].invocation.value;
      if intent.recoveryAttempts != expected { return Err(Conflict); }
      if !t.memberActive || t.run.cancelRequestedAt.Some? || t.run.status != RunRunning {
        var category := if !t.memberActive then AuthorizationRevoked else CancelledConfirmedAbsent;
        MarkFailed(t, b.i, category, Evidence(ConfirmedAbsent, Some(category)), now);
        return Ok(ResendRefused(category));
      }
      t.SetInvocation(b.i, v.(attempt := v.attempt + 1, resentFor := expected));
      t.wire := t.wire + {Message(intent.id, intent.args, v.attempt + 1)};
      return Ok(ResendAllowed);
    }

    method ConfirmSuccess(t: RunTables, id: Identity, now: Time) returns (r: Result<()>)
      modifies t`proposals, t`run, t`events
      ensures Did(old(t.Snapshot()), t.Snapshot(), ActionExecution.ConfirmSuccess(old(t.Snapshot()), id, now), r)
    {
      var b := LockExecuting(t.Snapshot(), id, true);
      if b.Unbound? { return Err(b.fault); }
      var intent := t.proposals[b.i].intent;
      t.SetIntent(b.i, intent.(
        status := Succeeded, hasResult := true, evidence := Some(Evidence(ConfirmedSuccess, None))));
      t.SetInvocation(b.i, t.proposals[b.i].invocation.value.(
        status := InvSucceeded, hasResult := true, finishedAt := Some(now)));
      t.AppendEvent(ActionCompleted(intent.id));
      return Ok(());
    }

    method ConfirmFailure(t: RunTables, id: Identity, category: Category, evidence: Evidence, now: Time)
      returns (r: Result<()>)
      modifies t`proposals, t`run, t`events
      ensures Did(old(t.Snapshot()), t.Snapshot(),
                  ActionExecution.ConfirmFailure(old(t.Snapshot()), id, category, evidence, now), r)
    {
      var b := LockExecuting(t.Snapshot(), id, false);
      if b.Unbound? { return Err(b.fault); }
      MarkFailed(t, b.i, category, evidence, now);
      return Ok(());
    }

    method ConfirmOutcomeUnknown(t: RunTables, id: Identity, evidence: Evidence, now: Time) returns (r: Result<()>)
      modifies t`proposals, t`run, t`events
      ensures Did(old(t.Snapshot()), t.Snapshot(),
                  ActionExecution.ConfirmOutcomeUnknown(old(t.Snapshot()), id, evidence, now), r)
    {
      var b := LockExecuting(t.Snapshot(), id, false);
      if b.Unbound? { return Err(b.fault); }
      MarkUnknown(t, b.i, evidence, now);
      return Ok(());
    }
  }
}

module WorkerJobStores {
  import opened Options
  import opened Rows
  import opened ActionExecution
  import opened Jobs
  import opened Invariant
  import opened JobProofs
  import opened Tables

  /** `SqlAlchemyWorkerJobStore`.  A call passes the rows of the run that its claim names. */
  class WorkerJobStore {
    const executable: set<int>
    const recoveryMax: int
    const retryDelay: int -> Time

    constructor (executable: set<int>, recoveryMax: int, retryDelay: int -> Time)
      ensures this.executable == executable && this.recoveryMax == recoveryMax && this.retryDelay == retryDelay
    {
      this.executable, this.recoveryMax, this.retryDelay := executable, recoveryMax, retryDelay;
    }

    method ClaimDueJob(t: RunTables, worker: Actor, token: Token, now: Time, duration: Time)
      returns (r: Result<Option<ClaimedJob>>)
      modifies t`job, t`issued
      ensures Did(old(t.Snapshot()), t.Snapshot(),
                  Claim(old(t.Snapshot()), executable, recoveryMax, worker, token, now, duration), r)
    {
      if !Claimable(t.Snapshot(), executable, recoveryMax, now) { return Ok(None); }
      t.job := t.job.(status := JobLeased);
      if t.job.attempt < t.job.maxAttempts { t.job := t.job.(attempt := t.job.attempt + 1); }
      t.job := t.job.(lease := Some(Lease(worker, token, now + duration)));
      var claimed := HandleOf(t.Snapshot(), token);
      t.issued := t.issued + {claimed};
      return Ok(Some(claimed));
    }

    /** `_consume_lease`: give the lease up if it is still held. */
    method ConsumeLease(t: RunTables, h: ClaimedJob, now: Time, status: JobStatus, summary: Option<Category>,
                        availableAt: Option<Time>)
      returns (held: bool)
      modifies t`job
      ensures held == ActiveLease(old(t.job), h, now)
      ensures t.job == if held then LeaveJob(old(t.job), status, summary).(
                availableAt := if availableAt.Some? then availableAt.value else old(t.job).availableAt)
              else old(t.job)
    {
      if !ActiveLease(t.job, h, now) { return false; }
      t.ClearLease(status);
      t.job := t.job.(errorSummary := summary);
      if availableAt.Some? { t.job := t.job.(availableAt := availableAt.value); }
      return true;
    }

    /** `_converge_terminal_action`, on a job whose lease is already cleared. */
    method ConvergeTerminalAction(t: RunTables, i: nat, now: Time) returns (r: Result<()>)
      requires i < |t.proposals| && t.job.status == JobDone && t.job.lease == None
      modifies t`job, t`run, t`events
      ensures Did(old(t.Snapshot()), t.Snapshot(), Converge(old(t.Snapshot()), i, now), r)
    {
      var action, invocation := t.proposals[i].intent, t.proposals[i].invocation;
      if invocation.None? || Some(invocation.value.status) != InvocationOf(action.status) {
        return Err(Broken(TerminalInvocationInconsistent));
      }
      if action.status !in {Failed, OutcomeUnknown} { return Err(Broken(ConvergenceRequiresFailure)); }
      match ConvergedVerdict(t.Snapshot(), t.proposals[i]) {
        case FailRun(category) =>
          t.job := t.job.(errorSummary := Some(category));
          t.MarkFailed(category, now);
        case CancelRun(reason) =>
          t.job := t.job.(errorSummary := None);
          t.MarkCancelled(reason, now);
      }
      return Ok(());
    }

    method PrepareClaimedJob(t: RunTables, h: ClaimedJob, now: Time) returns (r: Result<Disposition>)
      modifies t`job, t`run, t`events, t`executing
      ensures Did(old(t.Snapshot()), t.Snapshot(),
                  Jobs.PrepareClaimedJob(old(t.Snapshot()), h, executable, now), r)
    {
      hide Converge, FirstWith, ResumeFault, MarkRunFailed, MarkRunCancelled;
      if !ActiveLease(t.job, h, now) { return Ok(LeaseLost); }
      var inDoubt := FirstWith(t.proposals, {Executing});
      var ended := FirstWith(t.proposals, {Failed, OutcomeUnknown});
      if inDoubt.Some? && (!t.memberActive || t.run.cancelRequestedAt.Some?) {
        var p := t.proposals[inDoubt.value];
        if p.request.None? || p.request.value.status != Consumed { return Err(Broken(BindingMissing)); }
        return Ok(RecoverAction(Identity(p.intent.id, p.request.value.id)));
      }
      if ended.Some? {
        var saved := t.job;
        t.ClearLease(JobDone);
        assert t.job == LeaveJob(saved, JobDone, saved.errorSummary);
        ConvergeIgnoresLease(old(t.Snapshot()), t.Snapshot(), ended.value, now);
        var c := ConvergeTerminalAction(t, ended.value, now);
        if c.Err? {
          t.job := saved;
          return Err(c.fault);
        }
        return Ok(Finished);
      }
      if Terminal(t.run.status) {
        t.ClearLease(JobDone);
        t.job := t.job.(errorSummary := None);
        return Ok(Finished);
      }
      if !t.memberActive {
        t.ClearLease(JobDone);
        t.job := t.job.(errorSummary := None);
        t.MarkCancelled(AuthorizationRevoked, now);
        return Ok(Finished);
      }
      if t.run.graphVersion != h.graphVersion || t.run.graphVersion !in executable {
        t.MarkDead(UnsupportedGraphVersion);
        t.MarkFailed(UnsupportedGraphVersion, now);
        return Ok(Finished);
      }
      if t.run.cancelRequestedAt.Some? {
        t.ClearLease(JobDone);
        t.job := t.job.(errorSummary := None);
        t.MarkCancelled(UserRequested, now);
        return Ok(Finished);
      }
      r := StartClaimedRun(t, h, now);
    }

    /** The end of `prepare_claimed_job`: a waiting or queued run starts, and the resume
        identity is checked again after the status changed. */
    method StartClaimedRun(t: RunTables, h: ClaimedJob, now: Time) returns (r: Result<Disposition>)
      modifies t`run, t`events, t`executing
      ensures Did(old(t.Snapshot()), t.Snapshot(), StartRun(old(t.Snapshot()), h, now), r)
    {
      hide ResumeFault;
      if t.job.resumeRequest != h.resumeRequest { return Err(Broken(ResumeIdentityChanged)); }
      var savedRun, savedEvents := t.run, t.events;
      var waited := t.run.status == RunWaiting;
      if waited {
        var fault := ResumeFault(t.Snapshot(), h, false);
        if fault.Some? { return Err(fault.value); }
        t.run := t.run.(status := RunRunning);
        t.AppendEvent(RunStatusChanged(RunWaiting, RunRunning));
      }
      if t.run.status == RunQueued {
        if h.resumeRequest.Some? { return Err(Broken(InitialRunHasResumeIdentity)); }
        t.run := t.run.(status := RunRunning);
        t.run := t.run.(startedAt := Some(now));
        t.AppendEvent(RunStatusChanged(RunQueued, RunRunning));
      } else if t.run.status != RunRunning {
        return Err(Broken(ClaimedRunStatusInvalid));
      } else if h.resumeRequest.Some? {
        var fault := ResumeFault(t.Snapshot(), h, true);
        if fault.Some? {
          t.run, t.events := savedRun, savedEvents;
          return Err(fault.value);
        }
      } else {
        MissingResume(old(t.Snapshot()), h);
      }
      t.executing := Some(h.token);
      return Ok(Execute);
    }

    method Heartbeat(t: RunTables, h: ClaimedJob, now: Time, duration: Time) returns (r: Result<bool>)
      modifies t`job
      ensures Did(old(t.Snapshot()), t.Snapshot(), Jobs.Heartbeat(old(t.Snapshot()), h, now, duration), r)
    {
      if !ActiveLease(t.job, h, now) { return Ok(false); }
      t.job := t.job.(lease := Some(t.job.lease.value.(expiresAt := now + duration)));
      return Ok(true);
    }

    method Complete(t: RunTables, h: ClaimedJob, publishes: bool, now: Time) returns (r: Result<bool>)
      modifies t`job, t`run, t`events
      ensures Did(old(t.Snapshot()), t.Snapshot(), Jobs.Complete(old(t.Snapshot()), h, publishes, now), r)
    {
      hide MarkRunCancelled;
      var saved := t.job;
      var held := ConsumeLease(t, h, now, JobDone, None, None);
      if !held { return Ok(false); }
      if Terminal(t.run.status) { return Ok(true); }
      if t.run.cancelRequestedAt.Some? {
        t.MarkCancelled(UserRequested, now);
        return Ok(true);
      }
      if t.run.status != RunRunning {
        t.job := saved;
        return Err(Broken(CompletedRunNotRunning));
      }
      if publishes && !t.memberActive {
        t.MarkCancelled(AuthorizationRevoked, now);
        return Ok(true);
      }
      t.run := t.run.(status := RunCompleted);
      t.run := t.run.(hasResult := true, errorCategory := None);
      t.run := t.run.(finishedAt := Some(TerminalTime(t.run, now)));
      t.AppendEvent(RunCompletedEvent);
      return Ok(true);
    }

    method WaitForApproval(t: RunTables, h: ClaimedJob, request: RequestId, now: Time) returns (r: Result<bool>)
      modifies t`job, t`run, t`events
      ensures Did(old(t.Snapshot()), t.Snapshot(), Jobs.WaitForApproval(old(t.Snapshot()), h, request, now), r)
    {
      if !ActiveLease(t.job, h, now) { return Ok(false); }
      if t.run.mode == Resume { return Err(Broken(PauseModeInvalid)); }
      var found := FindRequest(t.proposals, request);
      if found.None? { return Err(Broken(PauseRequestMissing)); }
      var status := t.proposals[found.value].request.value.status;
      if t.job.resumeRequest.Some? {
        if t.job.resumeRequest != Some(request) || h.resumeRequest != Some(request) {
          return Err(Broken(PauseIdentityInvalid));
        }
        if status == Consumed { return Err(Broken(ResumeRequestStatusInvalid)); }
      } else {
        if h.resumeRequest.Some? { return Err(Broken(PauseIdentityInvalid)); }
        if status != Pending { return Err(Broken(PauseRequestNotPending)); }
      }
      if t.run.status != RunRunning { return Err(Broken(PauseRunNotRunning)); }
      t.ClearLease(JobDone);
      t.job := t.job.(errorSummary := None);
      t.run := t.run.(status := RunWaiting);
      t.AppendEvent(RunStatusChanged(RunRunning, RunWaiting));
      return Ok(true);
    }

    method Requeue(t: RunTables, h: ClaimedJob, category: Category, now: Time) returns (r: Result<bool>)
      modifies t`job, t`run, t`events
      ensures Did(old(t.Snapshot()), t.Snapshot(),
                  Jobs.Requeue(old(t.Snapshot()), h, category, now, retryDelay(h.attempt)), r)
    {
      hide MarkRunCancelled, FirstWith;
      var held := ConsumeLease(t, h, now, JobQueued, Some(category), Some(now + retryDelay(h.attempt)));
      if !held { return Ok(false); }
      if t.run.cancelRequestedAt.Some? && t.run.status == RunRunning && FirstWith(t.proposals, {Executing}).None? {
        t.job := t.job.(status := JobDone, errorSummary := None);
        t.MarkCancelled(UserRequested, now);
      }
      return Ok(true);
    }

    /** The writes that `fail` and `reclaim_stale_leases` make for an action whose recovery is
        exhausted, after the lease was given up. */
    method GiveUp(t: RunTables, i: nat, now: Time)
      requires i < |t.proposals| && t.proposals[i].invocation.Some?
      modifies t`proposals, t`run, t`events
      ensures t.Snapshot() ==
        MarkRunFailed(MarkUnknown(old(t.Snapshot()), i, EXHAUSTED, now), ExternalOutcomeUnknown, now)
    {
      hide MarkRunFailed;
      var action := t.proposals[i].intent;
      t.SetIntent(i, action.(status := OutcomeUnknown, hasResult := false, evidence := Some(EXHAUSTED)));
      t.SetInvocation(i, t.proposals[i].invocation.value.(
        status := InvUnknown, hasResult := false, errorCategory := Some(ExternalOutcomeUnknown),
        finishedAt := Some(now)));
      t.AppendEvent(ActionOutcomeUnknown(action.id));
      assert t.Snapshot().proposals == MarkUnknown(old(t.Snapshot()), i, EXHAUSTED, now).proposals;
      assert t.Snapshot() == MarkUnknown(old(t.Snapshot()), i, EXHAUSTED, now);
      t.MarkFailed(ExternalOutcomeUnknown, now);
    }

    /** `fail` while the action at `i` is executing. */
    method FailInDoubt(t: RunTables, i: nat, h: ClaimedJob, now: Time) returns (r: Result<bool>)
      requires i < |t.proposals|
      modifies t`job, t`proposals, t`run, t`events
      ensures
        var s := old(t.Snapshot());
        Did(s, t.Snapshot(),
            if ActiveLease(s.job, h, now) then GiveUpInDoubt(s, i, recoveryMax, now, retryDelay(h.attempt))
            else Committed(s, false), r)
    {
      hide MarkRunFailed, MarkUnknown, ActiveLease;
      var saved := t.job;
      if t.proposals[i].intent.recoveryAttempts < recoveryMax {
        var requeued := ConsumeLease(t, h, now, JobQueued, Some(ActionRecoveryRequired),
                                     Some(now + retryDelay(h.attempt)));
        return Ok(requeued);
      }
      var given := ConsumeLease(t, h, now, JobDone, Some(ExternalOutcomeUnknown), None);
      if !given { return Ok(false); }
      var invocation := t.proposals[i].invocation;
      if invocation.None? || invocation.value.status != InvExecuting {
        t.job := saved;
        return Err(Broken(TerminalInvocationInconsistent));
      }
      GiveUp(t, i, now);
      return Ok(true);
    }

    method Fail(t: RunTables, h: ClaimedJob, category: Category, now: Time) returns (r: Result<bool>)
      modifies t`job, t`proposals, t`run, t`events
      ensures Did(old(t.Snapshot()), t.Snapshot(),
                  FailJob(old(t.Snapshot()), h, category, recoveryMax, now, retryDelay(h.attempt)), r)
    {
      hide Converge, FirstWith, MarkRunFailed, MarkRunCancelled, GiveUpInDoubt, ActiveLease;
      var found := FirstWith(t.proposals, {Executing, Succeeded, Failed, OutcomeUnknown});
      var saved := t.job;
      if found.Some? && t.proposals[found.value].intent.status == Executing {
        r := FailInDoubt(t, found.value, h, now);
        return;
      }
      var ended := found.Some? && t.proposals[found.value].intent.status in {Failed, OutcomeUnknown};
      var held := ConsumeLease(t, h, now, if ended then JobDone else JobDead, Some(category), None);
      if !held { return Ok(false); }
      if Terminal(t.run.status) { return Ok(true); }
      if ended {
        ConvergeIgnoresLease(old(t.Snapshot()), t.Snapshot(), found.value, now);
        var c := ConvergeTerminalAction(t, found.value, now);
        if c.Err? {
          t.job := saved;
          return Err(c.fault);
        }
        return Ok(true);
      }
      if t.run.cancelRequestedAt.Some? {
        t.job := t.job.(status := JobDone, errorSummary := None);
        t.MarkCancelled(UserRequested, now);
        return Ok(true);
      }
      t.AppendEvent(JobDeadEvent(h.attempt, category));
      t.MarkFailed(category, now);
      return Ok(true);
    }

    method Cancel(t: RunTables, h: ClaimedJob, reason: Category, now: Time) returns (r: Result<bool>)
      modifies t`job, t`run, t`events
      ensures Did(old(t.Snapshot()), t.Snapshot(),
                  CancelJob(old(t.Snapshot()), h, reason, now, retryDelay(h.attempt)), r)
    {
      hide Converge, FirstWith, MarkRunFailed, MarkRunCancelled, ConvergedVerdict, ActiveLease;
      var found := FirstWith(t.proposals, {Executing, Failed, OutcomeUnknown});
      var saved := t.job;
      if found.Some? && t.proposals[found.value].intent.status == Executing {
        var requeued := ConsumeLease(t, h, now, JobQueued, Some(ActionRecoveryRequired),
                                     Some(now + retryDelay(h.attempt)));
        return Ok(requeued);
      }
      var held := ConsumeLease(t, h, now, JobDone, None, None);
      if !held { return Ok(false); }
      if found.Some? {
        ConvergeIgnoresLease(old(t.Snapshot()), t.Snapshot(), found.value, now);
        var c := ConvergeTerminalAction(t, found.value, now);
        if c.Err? {
          t.job := saved;
          return Err(c.fault);
        }
        return Ok(true);
      }
      var persisted := if t.run.cancelRequestedAt.Some? then UserRequested
                       else if !t.memberActive then AuthorizationRevoked else reason;
      t.MarkCancelled(persisted, now);
      return Ok(true);
    }

    /** One iteration of the reclaim loop. */
    method ReclaimJob(t: RunTables, now: Time) returns (r: Result<Reclaimed>)
      modifies t`job, t`proposals, t`run, t`events
      ensures Did(old(t.Snapshot()), t.Snapshot(),
                  ReclaimOne(old(t.Snapshot()), recoveryMax, now, retryDelay(old(t.job).attempt)), r)
    {
      hide Converge, FirstWith, MarkRunFailed, MarkRunCancelled, GiveUpInDoubt, ReclaimIdle;
      var found := FirstWith(t.proposals, {Executing, Succeeded, Failed, OutcomeUnknown});
      var attempt := t.job.attempt;
      if found.Some? && t.proposals[found.value].intent.status == Executing {
        r := ReclaimInDoubt(t, found.value, now);
        return;
      }
      if found.Some? && t.proposals[found.value].intent.status in {Failed, OutcomeUnknown} {
        var saved := t.job;
        t.ClearLease(JobDone);
        assert t.job == LeaveJob(saved, JobDone, saved.errorSummary);
        ConvergeIgnoresLease(old(t.Snapshot()), t.Snapshot(), found.value, now);
        var c := ConvergeTerminalAction(t, found.value, now);
        if c.Err? {
          t.job := saved;
          return Err(c.fault);
        }
        return Ok(FinishedJob);
      }
      if found.Some? && !Terminal(t.run.status) && attempt < t.job.maxAttempts + recoveryMax {
        t.AppendEvent(JobLeaseExpired(attempt));
        RequeueReclaimed(t, TerminalActionConvergence, now);
        return Ok(Requeued);
      }
      if Terminal(t.run.status) {
        t.ClearLease(JobDone);
        t.job := t.job.(errorSummary := None);
        return Ok(FinishedJob);
      }
      if t.run.cancelRequestedAt.Some? {
        t.ClearLease(JobDone);
        t.job := t.job.(errorSummary := None);
        t.MarkCancelled(UserRequested, now);
        return Ok(FinishedJob);
      }
      r := ReclaimIdleJob(t, now);
    }

    method RequeueReclaimed(t: RunTables, category: Category, now: Time)
      modifies t`job
      ensures t.Snapshot() == RequeueJob(old(t.Snapshot()), category, now + retryDelay(old(t.job).attempt))
    {
      t.ClearLease(JobQueued);
      t.job := t.job.(availableAt := now + retryDelay(t.job.attempt));
      t.job := t.job.(errorSummary := Some(category));
    }

    method ReclaimInDoubt(t: RunTables, i: nat, now: Time) returns (r: Result<Reclaimed>)
      requires i < |t.proposals| && t.proposals[i].intent.status == Executing
      requires FirstWith(t.proposals, {Executing, Succeeded, Failed, OutcomeUnknown}) == Some(i)
      modifies t`job, t`proposals, t`run, t`events
      ensures Did(old(t.Snapshot()), t.Snapshot(),
                  ReclaimOne(old(t.Snapshot()), recoveryMax, now, retryDelay(old(t.job).attempt)), r)
    {
      hide Converge, FirstWith, MarkRunFailed, ReclaimIdle, MarkUnknown;
      var invocation := t.proposals[i].invocation;
      if invocation.None? || invocation.value.status != InvExecuting {
        return Err(Broken(TerminalInvocationInconsistent));
      }
      t.AppendEvent(JobLeaseExpired(t.job.attempt));
      if t.proposals[i].intent.recoveryAttempts < recoveryMax {
        RequeueReclaimed(t, ActionRecoveryRequired, now);
        return Ok(Requeued);
      }
      t.ClearLease(JobDone);
      t.job := t.job.(errorSummary := Some(ExternalOutcomeUnknown));
      GiveUp(t, i, now);
      return Ok(FinishedJob);
    }

    /** The tail of the iteration; the expiry event is already part of the transaction when
        the resume request turns out to be missing. */
    method ReclaimIdleJob(t: RunTables, now: Time) returns (r: Result<Reclaimed>)
      modifies t`job, t`run, t`events
      ensures
        var s := old(t.Snapshot());
        Did(s, t.Snapshot(),
            ReclaimIdle(Append(s, JobLeaseExpired(s.job.attempt)), now, retryDelay(s.job.attempt)), r)
    {
      hide MarkRunFailed, FindRequest;
      var savedRun, savedEvents := t.run, t.events;
      t.AppendEvent(JobLeaseExpired(t.job.attempt));
      var waitingResume := t.run.status == RunWaiting && t.job.resumeRequest.Some?;
      if t.job.attempt < t.job.maxAttempts && (t.run.status in {RunQueued, RunRunning} || waitingResume) {
        if waitingResume && FindRequest(t.proposals, t.job.resumeRequest.value).None? {
          t.run, t.events := savedRun, savedEvents;
          return Err(Broken(ResumeRequestMissing));
        }
        RequeueReclaimed(t, LeaseExpired, now);
        return Ok(Requeued);
      }
      var category := if t.run.status == RunWaiting then UnexpectedWaitingApproval else JobAttemptsExhausted;
      t.MarkDead(category);
      t.MarkFailed(category, now);
      return Ok(DeadJob);
    }

    /** One iteration on a job of the batch: under the invariant it cannot raise. */
    method ReclaimAt(database: seq<RunTables>, i: nat, now: Time) returns (o: Reclaimed)
      requires Distinct(database) && i < |database|
      requires Inv(database[i].Snapshot(), recoveryMax) && Stale(database[i].Snapshot(), executable, now)
      modifies database[i]
      ensures Snapshots(database) == old(Snapshots(database))[
                i := ReclaimedRows(old(Snapshots(database))[i], recoveryMax, now, retryDelay)]
      ensures ReclaimAnswer(old(Snapshots(database))[i], recoveryMax, now, retryDelay) == Some(o)
      ensures Inv(Snapshots(database)[i], recoveryMax)
    {
      hide Inv, ReclaimOne, Stale;
      var t := database[i];
      ReclaimOneKeeps(t.Snapshot(), executable, now, retryDelay(t.job.attempt), recoveryMax);
      var r := ReclaimJob(t, now);
      assert Snapshots(database)[i] == t.Snapshot();
      return r.value;
    }

    /** The reclaim transaction over the jobs of many runs, given in the order of its query.
        At most `limit` stale jobs are taken; each ends up queued, done or dead. */
    method ReclaimStaleLeases(database: seq<RunTables>, now: Time, limit: int) returns (r: Result<ReclaimSummary>)
      requires Distinct(database) && AllGood(Snapshots(database), recoveryMax)
      modifies database
      ensures
        var before := old(Snapshots(database));
        var taken := StaleJobs(before, executable, now, Max(limit, 0));
        && r == (if limit < 1 then Err(BadValue) else Ok(Tally(before, taken, recoveryMax, now, retryDelay)))
        && Reclaims(before, Snapshots(database), taken, recoveryMax, now, retryDelay)
      ensures AllGood(Snapshots(database), recoveryMax)
    {
      if limit < 1 {
        assert StaleJobs(Snapshots(database), executable, now, 0) == [];
        return Err(BadValue);
      }
      var jobs := StaleJobs(Snapshots(database), executable, now, limit);
      var summary := ReclaimJobs(database, jobs, now);
      return Ok(summary);
    }

    /** The loop over the selected jobs. */
    method ReclaimJobs(database: seq<RunTables>, jobs: seq<nat>, now: Time) returns (summary: ReclaimSummary)
      requires Distinct(database) && AllGood(Snapshots(database), recoveryMax)
      requires forall k :: 0 <= k < |jobs| ==>
                 jobs[k] < |database| && Stale(Snapshots(database)[jobs[k]], executable, now)
      requires forall j, k :: 0 <= j < k < |jobs| ==> jobs[j] < jobs[k]
      modifies database
      ensures summary == Tally(old(Snapshots(database)), jobs, recoveryMax, now, retryDelay)
      ensures Reclaims(old(Snapshots(database)), Snapshots(database), jobs, recoveryMax, now, retryDelay)
      ensures AllGood(Snapshots(database), recoveryMax)
    {
      hide Inv, Stale, Tally, ReclaimedRows, ReclaimAnswer, Reclaims, AllGood, Snapshots;
      ghost var before := Snapshots(database);
      var requeued, finished, dead := 0, 0, 0;
      var k := 0;
      NothingReclaimed(before, recoveryMax, now, retryDelay);
      while k < |jobs|
        invariant 0 <= k <= |jobs|
        invariant ReclaimSummary(k, requeued, finished, dead) == Tally(before, jobs[..k], recoveryMax, now, retryDelay)
        invariant Reclaims(before, Snapshots(database), jobs[..k], recoveryMax, now, retryDelay)
        invariant AllGood(Snapshots(database), recoveryMax)
      {
        ghost var mid := Snapshots(database);
        assert jobs[..k + 1] == jobs[..k] + [jobs[k]];
        StillThere(before, mid, jobs[..k], jobs[k], recoveryMax, now, retryDelay);
        var o := ReclaimAt(database, jobs[k], now);
        ReclaimsNext(before, mid, Snapshots(database), jobs[..k], jobs[k], recoveryMax, now, retryDelay);
        TallyNext(before, jobs[..k], jobs[k], recoveryMax, now, retryDelay);
        match o {
          case Requeued => requeued := requeued + 1;
          case FinishedJob => finished := finished + 1;
          case DeadJob => dead := dead + 1;
        }
        k := k + 1;
      }
      assert jobs[..k] == jobs;
      return ReclaimSummary(|jobs|, requeued, finished, dead);
    }

    method Release(t: RunTables, h: ClaimedJob, category: Category, now: Time) returns (r: Result<bool>)
      modifies t`job
      ensures Did(old(t.Snapshot()), t.Snapshot(),
                  Jobs.Release(old(t.Snapshot()), h, category, now, retryDelay(h.attempt)), r)
    {
      if !ActiveLease(t.job, h, now) || t.job.attempt >= t.job.maxAttempts { return Ok(false); }
      var _ := ConsumeLease(t, h, now, JobQueued, Some(category), Some(now + retryDelay(h.attempt)));
      return Ok(true);
    }
  }

  /** Convergence overwrites the job row, so it does not matter how it was given up before. */
  lemma ConvergeIgnoresLease(s: Rows, t: Rows, i: nat, now: Time)
    requires i < |s.proposals| && t == s.(job := t.job)
    requires exists status, summary :: t.job == LeaveJob(s.job, status, summary)
    ensures
      var a, b := Converge(s, i, now), Converge(t, i, now);
      if a.Committed? then b == a else b.Raised? && b.fault == a.fault
  {
    hide MarkRunFailed, MarkRunCancelled;
    var status, summary :| t.job == LeaveJob(s.job, status, summary);
  }

  lemma MissingResume(s: Rows, h: ClaimedJob)
    requires h.resumeRequest.None?
    ensures ResumeFault(s, h, false).Some?
  {
  }

  // ---- The reclaim batch ----------------------------------------------------

  datatype ReclaimSummary = ReclaimSummary(scanned: nat, requeued: nat, finished: nat, dead: nat)

  /** The first `limit` stale jobs in the order of the query. */
  function StaleJobs(rows: seq<Rows>, executable: set<int>, now: Time, limit: nat): (r: seq<nat>)
    ensures |r| <= limit && forall k :: 0 <= k < |r| ==> r[k] < |rows| && Stale(rows[r[k]], executable, now)
    ensures forall j, k :: 0 <= j < k < |r| ==> r[j] < r[k]
    ensures |r| < limit ==> forall i :: 0 <= i < |rows| && Stale(rows[i], executable, now) ==> i in r
  {
    if rows == [] then [] else
    var n := |rows| - 1;
    var r := StaleJobs(rows[..n], executable, now, limit);
    if Stale(rows[n], executable, now) && |r| < limit then r + [n] else r
  }

  function ReclaimedRows(s: Rows, recoveryMax: int, now: Time, retryDelay: int -> Time): Rows
  {
    After(s, ReclaimOne(s, recoveryMax, now, retryDelay(s.job.attempt)))
  }

  function ReclaimAnswer(s: Rows, recoveryMax: int, now: Time, retryDelay: int -> Time): Option<Reclaimed>
  {
    var o := ReclaimOne(s, recoveryMax, now, retryDelay(s.job.attempt));
    if o.Committed? then Some(o.value) else None
  }

  function Count(r: ReclaimSummary, o: Option<Reclaimed>): ReclaimSummary
  {
    ReclaimSummary(r.scanned + 1,
                   if o == Some(Requeued) then r.requeued + 1 else r.requeued,
                   if o == Some(FinishedJob) then r.finished + 1 else r.finished,
                   if o == Some(DeadJob) then r.dead + 1 else r.dead)
  }

  /** What the summary of a batch must be. */
  function Tally(rows: seq<Rows>, taken: seq<nat>, recoveryMax: int, now: Time, retryDelay: int -> Time)
    : (r: ReclaimSummary)
    requires forall k :: 0 <= k < |taken| ==> taken[k] < |rows|
    ensures r.scanned == |taken|
  {
    if taken == [] then ReclaimSummary(0, 0, 0, 0) else
    var n := |taken| - 1;
    Count(Tally(rows, taken[..n], recoveryMax, now, retryDelay),
          ReclaimAnswer(rows[taken[n]], recoveryMax, now, retryDelay))
  }

  /** Exactly the rows at `taken` were reclaimed, all others are untouched. */
  predicate Reclaims(before: seq<Rows>, after: seq<Rows>, taken: seq<nat>, recoveryMax: int, now: Time,
                     retryDelay: int -> Time)
  {
    |after| == |before| &&
    forall i :: 0 <= i < |before| ==>
      after[i] == if i in taken then ReclaimedRows(before[i], recoveryMax, now, retryDelay) else before[i]
  }

  lemma NothingReclaimed(rows: seq<Rows>, recoveryMax: int, now: Time, retryDelay: int -> Time)
    ensures Reclaims(rows, rows, [], recoveryMax, now, retryDelay)
    ensures Tally(rows, [], recoveryMax, now, retryDelay) == ReclaimSummary(0, 0, 0, 0)
  {
  }

  lemma StillThere(before: seq<Rows>, mid: seq<Rows>, taken: seq<nat>, i: nat, recoveryMax: int, now: Time,
                   retryDelay: int -> Time)
    requires Reclaims(before, mid, taken, recoveryMax, now, retryDelay) && i < |before| && i !in taken
    requires AllGood(mid, recoveryMax)
    ensures |mid| == |before| && mid[i] == before[i] && Inv(mid[i], recoveryMax)
  {
  }

  lemma ReclaimsNext(before: seq<Rows>, mid: seq<Rows>, after: seq<Rows>, taken: seq<nat>, i: nat, recoveryMax: int,
                     now: Time, retryDelay: int -> Time)
    requires Reclaims(before, mid, taken, recoveryMax, now, retryDelay) && i < |before| == |mid|
    requires AllGood(mid, recoveryMax) && mid[i] == before[i]
    requires after == mid[i := ReclaimedRows(mid[i], recoveryMax, now, retryDelay)] && Inv(after[i], recoveryMax)
    ensures Reclaims(before, after, taken + [i], recoveryMax, now, retryDelay) && AllGood(after, recoveryMax)
  {
    hide Inv, ReclaimedRows;
  }

  lemma TallyNext(rows: seq<Rows>, taken: seq<nat>, i: nat, recoveryMax: int, now: Time, retryDelay: int -> Time)
    requires i < |rows| && forall k :: 0 <= k < |taken| ==> taken[k] < |rows|
    ensures
      Tally(rows, taken + [i], recoveryMax, now, retryDelay) ==
        Count(Tally(rows, taken, recoveryMax, now, retryDelay), ReclaimAnswer(rows[i], recoveryMax, now, retryDelay))
  {
    hide ReclaimAnswer;
    assert (taken + [i])[..|taken|] == taken;
  }

  /** Conservation: every job taken is requeued, finished or dead, and none stays leased. */
  lemma {:induction false} ReclaimConserves(rows: seq<Rows>, taken: seq<nat>, executable: set<int>, recoveryMax: int,
                                            now: Time, retryDelay: int -> Time)
    requires forall k :: 0 <= k < |taken| ==>
               taken[k] < |rows| && Inv(rows[taken[k]], recoveryMax) && Stale(rows[taken[k]], executable, now)
    ensures
      var r := Tally(rows, taken, recoveryMax, now, retryDelay); r.scanned == r.requeued + r.finished + r.dead
    ensures forall i :: i in taken ==> ReclaimedRows(rows[i], recoveryMax, now, retryDelay).job.status != JobLeased
  {
    hide Inv, ReclaimOne, Stale;
    if taken != [] {
      var n := |taken| - 1;
      assert Tally(rows, taken, recoveryMax, now, retryDelay) ==
        Count(Tally(rows, taken[..n], recoveryMax, now, retryDelay),
              ReclaimAnswer(rows[taken[n]], recoveryMax, now, retryDelay));
      ReclaimConserves(rows, taken[..n], executable, recoveryMax, now, retryDelay);
      var s := rows[taken[n]];
      ReclaimOneKeeps(s, executable, now, retryDelay(s.job.attempt), recoveryMax);
      var o := ReclaimAnswer(s, recoveryMax, now, retryDelay).value;
      assert o.Requeued? || o.FinishedJob? || o.DeadJob?;
      assert forall i :: i in taken ==> i in taken[..n] || i == taken[n];
    }
  }
}

module ActionStores {
  import opened Options
  import opened Rows
  import opened Actions
  import opened Tables

  /** `SqlAlchemyActionStore`. */
  class ActionStore {

    constructor () {}

    /** `_insert_proposal`: insert where no row conflicts, read the winner back, compare. */
    method InsertProposal(t: RunTables, c: Propose, allowCreate: bool) returns (r: Result<RequestId>)
      modifies t`proposals, t`run, t`events
      ensures Did(old(t.Snapshot()), t.Snapshot(), Actions.InsertProposal(old(t.Snapshot()), c, allowCreate), r)
    {
      hide FindIntent, FindRevision, EventsAbout;
      var saved := t.proposals;
      var created := allowCreate && ProposalIsNew(t.Snapshot(), c);
      if created {
        if EventsAbout(t.events, c.id, AboutProposal) != [] { return Err(Broken(ProposalEventInconsistent)); }
        t.proposals := t.proposals + [ProposalOf(c)];
        t.AppendEvent(ActionProposed(c.id, FactsOf(c)));
        return Ok(c.request);
      }
      var byId, byRevision := FindIntent(t.proposals, c.id), FindRevision(t.proposals, c.revision);
      if c.idElsewhere || (byId.None? && byRevision.None?) { return Err(Broken(ProposalFactsConflict)); }
      if byId.Some? && byRevision.Some? && byId != byRevision { return Err(Broken(ProposalIdentityConflict)); }
      var i := if byId.Some? then byId.value else byRevision.value;
      if !IntentMatches(t.proposals[i].intent, c) { return Err(Broken(ProposalFactsConflict)); }
      if allowCreate && t.proposals[i].request.None? { t.SetRequest(i, ProposalOf(c).request.value); }
      if t.proposals[i].request.None? { return Err(Broken(ProposalRequestMissing)); }
      var request := t.proposals[i].request.value;
      assert t.proposals == saved[i := saved[i].(request := Some(request))];
      if !RequestMatches(request, c) {
        t.proposals := saved;
        return Err(Broken(ProposalFactsConflict));
      }
      if EventsAbout(t.events, c.id, AboutProposal) != [ActionProposed(c.id, FactsOf(c))] {
        t.proposals := saved;
        return Err(Broken(ProposalEventInconsistent));
      }
      return Ok(request.id);
    }

    method PrepareAction(t: RunTables, c: Propose) returns (r: Result<RequestId>)
      modifies t`proposals, t`run, t`events
      ensures Did(old(t.Snapshot()), t.Snapshot(), Actions.PrepareAction(old(t.Snapshot()), c), r)
    {
      hide Actions.InsertProposal;
      if !c.keyMatches || c.revision != INITIAL_ACTION_REVISION { return Err(Conflict); }
      if !CurrentTenant(t.Snapshot(), c.tenant) { return Err(NotFound); }
      var fault := LockApplicationRun(t.Snapshot(), c);
      if fault.Some? { return Err(fault.value); }
      r := InsertProposal(t, c, true);
    }

    /** Cancel the old proposal and expire its open approval. */
    method Retire(t: RunTables, i: nat)
      requires i < |t.proposals| && t.proposals[i].request.Some?
      modifies t`proposals, t`run, t`events
      ensures t.Snapshot() == Actions.Retire(old(t.Snapshot()), i)
    {
      var p := t.proposals[i];
      var r := p.request.value;
      t.SetIntent(i, p.intent.(status := Cancelled));
      if r.status in {Pending, Approved} {
        t.SetRequest(i, r.(status := Expired, version := r.version + 1, consumedAt := None));
        t.AppendEvent(SupersededPayload(p));
      }
    }

    method SupersedeAction(t: RunTables, old_: IntentId, c: Propose) returns (r: Result<RequestId>)
      modifies t`proposals, t`run, t`events
      ensures Did(old(t.Snapshot()), t.Snapshot(), Actions.SupersedeAction(old(t.Snapshot()), old_, c), r)
    {
      hide Actions.InsertProposal, Actions.Retire, FindIntent, EventsAbout, LockApplicationRun, CurrentTenant;
      if old_ == c.id { return Err(Conflict); }
      if !CurrentTenant(t.Snapshot(), c.tenant) { return Err(NotFound); }
      var fault := LockApplicationRun(t.Snapshot(), c);
      if fault.Some? { return Err(fault.value); }
      var found := FindIntent(t.proposals, old_);
      if found.None? { return Err(NotFound); }
      var p := t.proposals[found.value];
      if p.request.None? { return Err(Broken(ProposalRequestMissing)); }
      if !c.keyMatches || c.revision != p.intent.revision + 1 { return Err(Conflict); }
      if p.request.value.status == Consumed { return Err(Conflict); }
      if p.intent.status == Cancelled {
        if p.request.value.status !in {Rejected, Expired} { return Err(Conflict); }
        var seen := EventsAbout(t.events, old_, AboutSupersession);
        if |seen| > 1 || (p.request.value.status == Rejected && seen != [])
           || (seen != [] && seen[0] != SupersededPayload(p)) {
          return Err(Broken(SupersededEventInconsistent));
        }
        r := InsertProposal(t, c, false);
        return;
      }
      if p.intent.status !in {Proposed, Authorized} { return Err(Conflict); }
      var saved := t.Snapshot();
      Retire(t, found.value);
      r := InsertProposal(t, c, true);
      if r.Err? { t.proposals, t.run, t.events := saved.proposals, saved.run, saved.events; }
    }

    method CancelAction(t: RunTables, tenant: Tenant, id: IntentId, request: RequestId, rejected: bool)
      returns (r: Result<bool>)
      modifies t`proposals, t`run, t`events
      ensures Did(old(t.Snapshot()), t.Snapshot(),
                  Actions.CancelAction(old(t.Snapshot()), tenant, id, request, rejected), r)
    {
      hide FindIntent, EventsAbout;
      if !CurrentTenant(t.Snapshot(), tenant) { return Err(NotFound); }
      var found := FindIntent(t.proposals, id);
      if found.None? || !HasRequest(t.proposals[found.value], request) { return Err(NotFound); }
      var p := t.proposals[found.value];
      if !ExactBinding(p) { return Err(Broken(BindingConflict)); }
      if p.request.value.status != (if rejected then Rejected else Expired) { return Err(Conflict); }
      var payload := ActionCancelledEvent(id, request, if rejected then ApprovalRejected else ApprovalExpired);
      if p.intent.status == Cancelled {
        if EventsAbout(t.events, id, AboutCancellation) != [payload] {
          return Err(Broken(CancelledEventInconsistent));
        }
        return Ok(false);
      }
      if p.intent.status !in {Proposed, Authorized} { return Err(Conflict); }
      t.SetIntent(found.value, p.intent.(status := Cancelled));
      t.AppendEvent(payload);
      return Ok(true);
    }
  }
}

module ApprovalStores {
  import opened Options
  import opened Rows
  import opened Approvals
  import opened Jobs
  import opened Invariant
  import opened ActionProofs
  import opened Tables

  /** `SqlAlchemyApprovalStore`. */
  class ApprovalStore {

    constructor () {}

    method Decide(t: RunTables, c: Approvals.Decide) returns (r: Result<Decision>)
      modifies t`proposals, t`job, t`run, t`events
      ensures Did(old(t.Snapshot()), t.Snapshot(), DecideApproval(old(t.Snapshot()), c), r)
    {
      hide FindIntent;
      if !c.memberCurrent { return Err(NotFound); }
      var found := FindIntent(t.proposals, c.intent);
      if found.None? || t.proposals[found.value].request.None? { return Err(NotFound); }
      var i := found.value;
      var request := t.proposals[i].request.value;
      var own := OwnDecision(t.proposals[i].decisions, c.actor);
      if own.Some? {
        if own.value.verdict != c.verdict { return Err(Conflict); }
        return Ok(own.value);
      }
      if !c.mayReview { return Err(Conflict); }
      if t.proposals[i].decisions != [] { return Err(Conflict); }
      if request.status != Pending || c.now >= request.expiresAt { return Err(Conflict); }
      if request.version != c.expectedVersion { return Err(Conflict); }
      if t.run.status != RunWaiting || t.job.status != JobDone { return Err(Conflict); }
      if !ExactBinding(t.proposals[i]) { return Err(Broken(BindingConflict)); }
      var decision := Decision(c.actor, c.verdict, c.now);
      t.proposals := t.proposals[i := t.proposals[i].(decisions := [decision])];
      t.SetRequest(i, request.(status := TargetOf(c.verdict), version := request.version + 1));
      t.job := t.job.(status := JobQueued, attempt := 0, availableAt := c.now);
      t.job := t.job.(lease := None, errorSummary := None);
      t.job := t.job.(resumeRequest := Some(request.id));
      t.AppendEvent(ApprovalDecided(c.intent, request.id, c.verdict, request.version + 1));
      return Ok(decision);
    }

    /** One iteration of the expiry sweeper's loop. */
    method ExpireRequest(t: RunTables, i: nat, now: Time) returns (r: Result<Swept>)
      requires i < |t.proposals| && Due(t.proposals[i], now)
      modifies t`proposals, t`job, t`run, t`events
      ensures Did(old(t.Snapshot()), t.Snapshot(), SweepRequest(old(t.Snapshot()), i, now), r)
    {
      if t.run.status != RunWaiting { return Ok(Skipped); }
      var saved := t.Snapshot();
      var intent, request := t.proposals[i].intent, t.proposals[i].request.value;
      t.SetRequest(i, request.(status := Expired, version := request.version + 1));
      t.AppendEvent(ApprovalExpiredEvent(intent.id, request.id, intent.revision, NaturalExpiry));
      match t.job.status {
        case JobDone =>
          t.job := t.job.(status := JobQueued, attempt := 0, availableAt := now);
          t.job := t.job.(errorSummary := None, resumeRequest := Some(request.id));
          return Ok(ExpiredAndRequeued);
        case JobQueued =>
          if t.job.resumeRequest !in {None, Some(request.id)} {
            t.Rollback(saved);
            return Err(Broken(QueuedResumeConflict));
          }
          t.job := t.job.(resumeRequest := Some(request.id));
          return Ok(ExpiredOnly);
        case JobLeased =>
          if t.job.resumeRequest != Some(request.id) {
            t.Rollback(saved);
            return Err(Broken(LeasedResumeConflict));
          }
          return Ok(ExpiredOnly);
        case JobDead =>
          t.Rollback(saved);
          return Err(Broken(SweptJobStatusInvalid));
      }
    }

    /** One request of the batch: under the invariant it cannot raise. */
    method SweepAt(database: seq<RunTables>, i: nat, now: Time, ghost recoveryMax: int) returns (o: Swept)
      requires Distinct(database) && i < |database|
      requires Inv(database[i].Snapshot(), recoveryMax) && IsDue(database[i].Snapshot(), now)
      modifies database[i]
      ensures Snapshots(database) == old(Snapshots(database))[i := SweptRows(old(Snapshots(database))[i], now)]
      ensures SweptAnswer(old(Snapshots(database))[i], now) == Some(o)
      ensures Inv(Snapshots(database)[i], recoveryMax)
    {
      hide Inv, SweepRequest, Due;
      var t := database[i];
      SweepRequestKeeps(t.Snapshot(), |t.proposals| - 1, now, recoveryMax);
      var r := ExpireRequest(t, |t.proposals| - 1, now);
      assert Snapshots(database)[i] == t.Snapshot();
      return r.value;
    }

    /** The sweep over the runs of many requests, given in the order of its query: by expiry
        time.  Requests of runs that do not wait are skipped but use up the limit. */
    method SweepDueRequests(database: seq<RunTables>, now: Time, limit: int, ghost recoveryMax: int)
      returns (r: Result<SweepSummary>)
      requires Distinct(database) && AllGood(Snapshots(database), recoveryMax)
      modifies database
      ensures
        var before := old(Snapshots(database));
        var taken := DueRuns(before, now, Max(limit, 0));
        && r == (if limit < 1 then Err(BadValue) else Ok(SweepTally(before, taken, now)))
        && Sweeps(before, Snapshots(database), taken, now)
      ensures AllGood(Snapshots(database), recoveryMax)
    {
      if limit < 1 {
        assert DueRuns(Snapshots(database), now, 0) == [];
        return Err(BadValue);
      }
      var due := DueRuns(Snapshots(database), now, limit);
      var summary := SweepRuns(database, due, now, recoveryMax);
      return Ok(summary);
    }

    /** The loop over the selected requests. */
    method SweepRuns(database: seq<RunTables>, due: seq<nat>, now: Time, ghost recoveryMax: int)
      returns (summary: SweepSummary)
      requires Distinct(database) && AllGood(Snapshots(database), recoveryMax)
      requires forall k :: 0 <= k < |due| ==> due[k] < |database| && IsDue(Snapshots(database)[due[k]], now)
      requires forall j, k :: 0 <= j < k < |due| ==> due[j] < due[k]
      modifies database
      ensures summary == SweepTally(old(Snapshots(database)), due, now)
      ensures Sweeps(old(Snapshots(database)), Snapshots(database), due, now)
      ensures AllGood(Snapshots(database), recoveryMax)
    {
      hide Inv, IsDue, SweepTally, SweptRows, SweptAnswer, Sweeps, AllGood, Snapshots;
      ghost var before := Snapshots(database);
      var expired, requeued := 0, 0;
      var k := 0;
      NothingSwept(before, now);
      while k < |due|
        invariant 0 <= k <= |due|
        invariant SweepSummary(k, expired, requeued) == SweepTally(before, due[..k], now)
        invariant Sweeps(before, Snapshots(database), due[..k], now)
        invariant AllGood(Snapshots(database), recoveryMax)
      {
        ghost var mid := Snapshots(database);
        assert due[..k + 1] == due[..k] + [due[k]];
        StillDue(before, mid, due[..k], due[k], now, recoveryMax);
        var o := SweepAt(database, due[k], now, recoveryMax);
        SweepsNext(before, mid, Snapshots(database), due[..k], due[k], now, recoveryMax);
        SweepTallyNext(before, due[..k], due[k], now);
        if o != Skipped { expired := expired + 1; }
        if o == ExpiredAndRequeued { requeued := requeued + 1; }
        k := k + 1;
      }
      assert due[..k] == due;
      return SweepSummary(|due|, expired, requeued);
    }
  }

  // ---- The expiry batch -----------------------------------------------------

  datatype SweepSummary = SweepSummary(scanned: nat, expired: nat, requeued: nat)

  /** Only the newest request of a run can be open, so a run has at most one due request. */
  predicate IsDue(s: Rows, now: Time) { s.proposals != [] && Due(Newest(s.proposals), now) }

  function DueRuns(rows: seq<Rows>, now: Time, limit: nat): (r: seq<nat>)
    ensures |r| <= limit && forall k :: 0 <= k < |r| ==> r[k] < |rows| && IsDue(rows[r[k]], now)
    ensures forall j, k :: 0 <= j < k < |r| ==> r[j] < r[k]
    ensures |r| < limit ==> forall i :: 0 <= i < |rows| && IsDue(rows[i], now) ==> i in r
  {
    if rows == [] then [] else
    var n := |rows| - 1;
    var r := DueRuns(rows[..n], now, limit);
    if IsDue(rows[n], now) && |r| < limit then r + [n] else r
  }

  /** The limit cuts the selection off: a due request is taken exactly if fewer come before it. */
  lemma {:induction false} TakenIffWithinLimit(rows: seq<Rows>, now: Time, limit: nat, i: nat)
    requires i < |rows|
    ensures i in DueRuns(rows, now, limit) <==> IsDue(rows[i], now) && |DueRuns(rows[..i], now, limit)| < limit
  {
    hide IsDue;
    var n := |rows| - 1;
    if i < n {
      TakenIffWithinLimit(rows[..n], now, limit, i);
      assert rows[..n][..i] == rows[..i];
    }
  }

  function SweptRows(s: Rows, now: Time): Rows
  {
    if s.proposals == [] then s else After(s, SweepRequest(s, |s.proposals| - 1, now))
  }

  function SweptAnswer(s: Rows, now: Time): Option<Swept>
  {
    if s.proposals == [] then None else
    var o := SweepRequest(s, |s.proposals| - 1, now);
    if o.Committed? then Some(o.value) else None
  }

  function SweepTally(rows: seq<Rows>, taken: seq<nat>, now: Time): (r: SweepSummary)
    requires forall k :: 0 <= k < |taken| ==> taken[k] < |rows|
    ensures r.scanned == |taken| && r.requeued <= r.expired <= r.scanned
  {
    if taken == [] then SweepSummary(0, 0, 0) else
    var n := |taken| - 1;
    var r, o := SweepTally(rows, taken[..n], now), SweptAnswer(rows[taken[n]], now);
    SweepSummary(r.scanned + 1,
                 if o.Some? && o.value != Skipped then r.expired + 1 else r.expired,
                 if o == Some(ExpiredAndRequeued) then r.requeued + 1 else r.requeued)
  }

  predicate Sweeps(before: seq<Rows>, after: seq<Rows>, taken: seq<nat>, now: Time)
  {
    |after| == |before| &&
    forall i :: 0 <= i < |before| ==> after[i] == if i in taken then SweptRows(before[i], now) else before[i]
  }

  lemma NothingSwept(rows: seq<Rows>, now: Time)
    ensures Sweeps(rows, rows, [], now) && SweepTally(rows, [], now) == SweepSummary(0, 0, 0)
  {
  }

  lemma StillDue(before: seq<Rows>, mid: seq<Rows>, taken: seq<nat>, i: nat, now: Time, recoveryMax: int)
    requires Sweeps(before, mid, taken, now) && i < |before| && i !in taken && AllGood(mid, recoveryMax)
    ensures |mid| == |before| && mid[i] == before[i] && Inv(mid[i], recoveryMax)
  {
  }

  lemma SweepsNext(before: seq<Rows>, mid: seq<Rows>, after: seq<Rows>, taken: seq<nat>, i: nat, now: Time,
                   recoveryMax: int)
    requires Sweeps(before, mid, taken, now) && i < |before| == |mid| && AllGood(mid, recoveryMax)
    requires mid[i] == before[i] && after == mid[i := SweptRows(mid[i], now)] && Inv(after[i], recoveryMax)
    ensures Sweeps(before, after, taken + [i], now) && AllGood(after, recoveryMax)
  {
    hide Inv, SweptRows;
  }

  lemma SweepTallyNext(rows: seq<Rows>, taken: seq<nat>, i: nat, now: Time)
    requires i < |rows| && forall k :: 0 <= k < |taken| ==> taken[k] < |rows|
    ensures
      var r, o := SweepTally(rows, taken, now), SweptAnswer(rows[i], now);
      SweepTally(rows, taken + [i], now) ==
        SweepSummary(r.scanned + 1,
                     if o.Some? && o.value != Skipped then r.expired + 1 else r.expired,
                     if o == Some(ExpiredAndRequeued) then r.requeued + 1 else r.requeued)
  {
    hide SweptAnswer;
    assert (taken + [i])[..|taken|] == taken;
  }

  // ---- Starvation -----------------------------------------------------------

  /** A sweep expires something exactly if one of the requests it takes belongs to a waiting
      run; the requests of other runs use up the limit and are left as they are. */
  lemma {:induction false} SweepProgress(rows: seq<Rows>, taken: seq<nat>, now: Time, recoveryMax: int)
    requires AllGood(rows, recoveryMax)
    requires forall k :: 0 <= k < |taken| ==> taken[k] < |rows| && IsDue(rows[taken[k]], now)
    ensures SweepTally(rows, taken, now).expired > 0 <==>
              exists k :: 0 <= k < |taken| && rows[taken[k]].run.status == RunWaiting
    ensures forall k :: 0 <= k < |taken| && rows[taken[k]].run.status != RunWaiting ==>
              SweptRows(rows[taken[k]], now) == rows[taken[k]]
  {
    hide Inv, SweepRequest;
    if taken != [] {
      var n := |taken| - 1;
      var s := rows[taken[n]];
      SweepProgress(rows, taken[..n], now, recoveryMax);
      SweepRequestKeeps(s, |s.proposals| - 1, now, recoveryMax);
      SweepOfOne(s, now);
      if exists k :: 0 <= k < n && rows[taken[..n][k]].run.status == RunWaiting {
        var k :| 0 <= k < n && rows[taken[..n][k]].run.status == RunWaiting;
        assert rows[taken[k]].run.status == RunWaiting;
      }
      assert forall k :: 0 <= k < n ==> taken[..n][k] == taken[k];
    }
  }

  lemma SweepOfOne(s: Rows, now: Time)
    requires IsDue(s, now)
    ensures
      var o := SweepRequest(s, |s.proposals| - 1, now);
      o.Committed? ==> (o.value == Skipped <==> s.run.status != RunWaiting) && (o.value == Skipped ==> o.rows == s)
  {
  }

  /** The order of the query: requests that expire earlier come first. */
  predicate ByExpiry(rows: seq<Rows>)
  {
    forall i, j :: 0 <= i < j < |rows| && Open(rows[i]) && Open(rows[j]) ==>
      Newest(rows[i].proposals).request.value.expiresAt <= Newest(rows[j].proposals).request.value.expiresAt
  }

  predicate Open(s: Rows)
  {
    s.proposals != [] && Newest(s.proposals).request.Some?
    && Newest(s.proposals).request.value.status in {Pending, Approved}
  }

  /** A full batch that is left as it is comes first in every later selection. */
  lemma {:induction false} FullBatchReturns(rows: seq<Rows>, now: Time, later: Time, limit: nat)
    requires ByExpiry(rows) && now <= later && |DueRuns(rows, now, limit)| == limit
    ensures DueRuns(rows, later, limit) == DueRuns(rows, now, limit)
  {
    if rows != [] {
      var n := |rows| - 1;
      if |DueRuns(rows[..n], now, limit)| == limit {
        FullBatchReturns(rows[..n], now, later, limit);
      } else {
        DueBefore(rows, n, now, later, limit);
      }
    }
  }

  /** If the last request is due now, all earlier open ones are, so both sweeps agree on them. */
  lemma {:induction false} DueBefore(rows: seq<Rows>, n: nat, now: Time, later: Time, limit: nat)
    requires n < |rows| && IsDue(rows[|rows| - 1], now) && ByExpiry(rows) && now <= later
    ensures DueRuns(rows[..n], later, limit) == DueRuns(rows[..n], now, limit)
  {
    if n > 0 {
      DueBefore(rows, n - 1, now, later, limit);
      assert rows[..n][..n - 1] == rows[..n - 1];
      assert IsDue(rows[n - 1], later) ==> Open(rows[n - 1]);
    }
  }
}

module RunStores {
  import opened Options
  import opened Rows
  import opened Jobs
  import opened Tables

  /** `cancel_run` of the run store. */
  class RunStore {

    constructor () {}

    method CancelRun(t: RunTables, authorized: bool, now: Time) returns (r: Result<RunStatus>)
      modifies t`proposals, t`job, t`run, t`events
      ensures Did(old(t.Snapshot()), t.Snapshot(), CancelRunByUser(old(t.Snapshot()), authorized, now), r)
    {
      hide FirstWith;
      var active := FirstWith(t.proposals, {Proposed, Authorized});
      if active.Some? && FirstWith(t.proposals, {Proposed, Authorized}, active.value + 1).Some? {
        return Err(Broken(SeveralActiveRequests));
      }
      if !authorized { return Err(NotFound); }
      if t.run.status == RunWaiting {
        r := CancelWaitingRun(t, now);
        return;
      }
      if t.run.status == RunQueued {
        if t.job.status !in {JobQueued, JobLeased} { return Err(Broken(CancelJobStatusInvalid)); }
        t.ClearLease(JobDone);
        t.job := t.job.(errorSummary := None);
        t.run := t.run.(status := RunCancelled);
        t.run := t.run.(finishedAt := Some(now));
        t.AppendEvent(RunCancelledEvent(RunQueued, UserRequested));
        return Ok(RunCancelled);
      }
      if t.run.status == RunRunning && t.run.cancelRequestedAt.None? {
        t.run := t.run.(cancelRequestedAt := Some(now));
      }
      return Ok(t.run.status);
    }

    method CancelWaitingRun(t: RunTables, now: Time) returns (r: Result<RunStatus>)
      modifies t`proposals, t`job, t`run, t`events
      ensures Did(old(t.Snapshot()), t.Snapshot(), CancelWaiting(old(t.Snapshot()), now), r)
    {
      hide FirstWith;
      var active := FirstWith(t.proposals, {Proposed, Authorized});
      if active.None? || t.proposals[active.value].request.None? { return Err(Broken(WaitingRunWithoutRequest)); }
      var i := active.value;
      var intent, request := t.proposals[i].intent, t.proposals[i].request.value;
      if request.status == Consumed { return Err(Conflict); }
      var saved := t.Snapshot();
      CloseAction(t, i);
      if t.job.status !in {JobDone, JobQueued, JobLeased} {
        t.Rollback(saved);
        return Err(Broken(CancelJobStatusInvalid));
      }
      EndWaiting(t, if t.run.startedAt.Some? then Max(now, t.run.startedAt.value) else now);
      return Ok(RunCancelled);
    }

    method EndWaiting(t: RunTables, finished: Time)
      modifies t`job, t`run, t`events
      ensures
        var s := old(t.Snapshot());
        t.Snapshot() == Append(SetJob(s, JobDone, None).(
                                 run := s.run.(status := RunCancelled, finishedAt := Some(finished))),
                               RunCancelledEvent(RunWaiting, UserRequested))
    {
      t.ClearLease(JobDone);
      t.job := t.job.(errorSummary := None);
      t.run := t.run.(status := RunCancelled);
      t.run := t.run.(finishedAt := Some(finished));
      t.AppendEvent(RunCancelledEvent(RunWaiting, UserRequested));
    }

    /** Expire the open request, cancel the action, each with its event. */
    method CloseAction(t: RunTables, i: nat)
      requires i < |t.proposals| && t.proposals[i].request.Some?
      modifies t`proposals, t`run, t`events
      ensures
        var s := old(t.Snapshot());
        var p := s.proposals[i];
        var r := p.request.value;
        var open := r.status in {Pending, Approved};
        var s1 := if open then Append(s, ApprovalExpiredEvent(p.intent.id, r.id, p.intent.revision, ExpiredByUser))
                  else s;
        t.Snapshot() == Append(
          SetProposal(s1, i, p.(request := Some(if open then r.(status := Expired, version := r.version + 1) else r),
                                intent := p.intent.(status := Cancelled))),
          ActionCancelledEvent(p.intent.id, r.id, CancelledByUser))
    {
      var intent, request := t.proposals[i].intent, t.proposals[i].request.value;
      if request.status in {Pending, Approved} {
        t.SetRequest(i, request.(status := Expired, version := request.version + 1));
        t.AppendEvent(ApprovalExpiredEvent(intent.id, request.id, intent.revision, ExpiredByUser));
      }
      t.SetIntent(i, intent.(status := Cancelled));
      t.AppendEvent(ActionCancelledEvent(intent.id, request.id, CancelledByUser));
    }
  }
}
