/** What each transaction on actions and approvals does to the rows: when it commits, what it
    answers, and the new value of every field and event, with the conditions written out. */
module Effects {
  import opened Options
  import opened Rows
  import opened Actions
  import opened Approvals
  import opened ActionExecution
  import opened Jobs
  import opened Invariant
  import opened ExecutionProofs
  import opened JobProofs

  /** The first row with this identity is the one at `i`. */
  predicate Named(ps: seq<Proposal>, id: IntentId, i: nat)
  {
    i < |ps| && ps[i].intent.id == id && forall j :: 0 <= j < i ==> ps[j].intent.id != id
  }

  lemma {:induction false} NamedIsFound(ps: seq<Proposal>, id: IntentId, i: nat, from: nat := 0)
    requires Named(ps, id, i) && from <= i
    ensures FindIntent(ps, id, from) == Some(i)
    decreases i - from
  {
    if from < i { NamedIsFound(ps, id, i, from + 1); }
  }

  /** The log gained exactly these events, numbered on from where it was. */
  predicate Logs(s: Rows, t: Rows, kinds: seq<EventKind>)
  {
    && t.run.nextEventSeq == s.run.nextEventSeq + |kinds|
    && |t.events| == |s.events| + |kinds| && t.events[..|s.events|] == s.events
    && forall j :: 0 <= j < |kinds| ==> t.events[|s.events| + j] == Event(s.run.nextEventSeq + j, kinds[j])
  }

  /** `t` has the log and the counter of a later state, and otherwise the given rows. */
  function WithLog(rows: Rows, t: Rows): Rows
  {
    rows.(run := rows.run.(nextEventSeq := t.run.nextEventSeq), events := t.events)
  }

  /** `t` is `rows` with these events appended to the log of `s`. */
  predicate Becomes(s: Rows, t: Rows, rows: Rows, kinds: seq<EventKind>)
  {
    Logs(s, t, kinds) && t == WithLog(rows, t)
  }

  // ---- decide_approval ------------------------------------------------------

  /** A first decision commits exactly when its actor may review the request, the request is still open
      in the version that was seen, and the run sleeps on it. */
  lemma FirstDecision(s: Rows, c: Decide, i: nat)
    requires Named(s.proposals, c.intent, i) && forall d :: d in s.proposals[i].decisions ==> d.actor != c.actor
    ensures
      var p, o := s.proposals[i], DecideApproval(s, c);
      o.Committed? <==>
        && c.memberCurrent && c.mayReview && p.request.Some? && p.decisions == []
        && p.request.value.status == Pending && c.now < p.request.value.expiresAt
        && p.request.value.version == c.expectedVersion
        && s.run.status == RunWaiting && s.job.status == JobDone
        && p.request.value.binding == Binding(p.intent.id, p.intent.revision, p.intent.args)
    ensures
      var p, o := s.proposals[i], DecideApproval(s, c);
      o.Committed? ==>
        var r, d := p.request.value, Decision(c.actor, c.verdict, c.now);
        var status := match c.verdict case Approve => Approved case Reject => Rejected;
        && o.value == d
        && Becomes(s, o.rows,
             s.(proposals := s.proposals[i := p.(
                  decisions := [d],
                  request := Some(Request(r.id, status, r.binding, r.version + 1, r.expiresAt, r.consumedAt)))],
                job := Job(JobQueued, 0, s.job.maxAttempts, c.now, None, Some(r.id), None)),
             [ApprovalDecided(c.intent, r.id, c.verdict, r.version + 1)])
    ensures
      var p, o := s.proposals[i], DecideApproval(s, c);
      (o == Raised(NotFound) <==> !c.memberCurrent || p.request.None?)
      && (o.Raised? && o.fault.Broken? ==> !ExactBinding(p))
  {
    NamedIsFound(s.proposals, c.intent, i);
    assert OwnDecision(s.proposals[i].decisions, c.actor).None?;
  }

  /** A reviewer who decided before is answered with that decision, or refused if it was another;
      the rest of the command is not looked at. */
  lemma RepeatedDecision(s: Rows, c: Decide, i: nat, k: nat)
    requires Named(s.proposals, c.intent, i) && c.memberCurrent && s.proposals[i].request.Some?
    requires k < |s.proposals[i].decisions| && s.proposals[i].decisions[k].actor == c.actor
    requires forall j :: 0 <= j < k ==> s.proposals[i].decisions[j].actor != c.actor
    ensures
      var d := s.proposals[i].decisions[k];
      DecideApproval(s, c) == if d.verdict == c.verdict then Committed(s, d) else Raised(Conflict)
  {
    NamedIsFound(s.proposals, c.intent, i);
    FirstOwn(s.proposals[i].decisions, c.actor, k);
  }

  lemma {:induction false} FirstOwn(ds: seq<Decision>, actor: Actor, k: nat)
    requires k < |ds| && ds[k].actor == actor && forall j :: 0 <= j < k ==> ds[j].actor != actor
    ensures OwnDecision(ds, actor) == Some(ds[k])
  {
    if k > 0 {
      assert ds[0].actor != actor;
      FirstOwn(ds[1..], actor, k - 1);
    }
  }

  lemma NobodyDecides(s: Rows, c: Decide)
    requires forall i :: 0 <= i < |s.proposals| ==> s.proposals[i].intent.id != c.intent
    ensures DecideApproval(s, c) == Raised(NotFound)
  {
  }

  // ---- resolve_approval_resume ----------------------------------------------

  /** A current member who names the intent and its request is told its status and the verdict on record,
      and the two fit: a graph never resumes on an approval that nobody gave. */
  lemma ResumeIsRead(s: Rows, memberCurrent: bool, intent: IntentId, request: RequestId, i: nat, recoveryMax: int)
    requires Inv(s, recoveryMax) && i < |s.proposals| && s.proposals[i].intent.id == intent
    ensures
      var p, o := s.proposals[i], ResolveResume(s, memberCurrent, intent, request);
      var r := p.request;
      if !memberCurrent then o == Raised(NotFound)
      else if r.Some? && r.value.id != request then o == Raised(Broken(BindingConflict))
      else
        && r.Some? && o.Committed? && o.rows == s && o.value.0 == r.value.status
        && o.value.1 == (if p.decisions == [] then None else Some(p.decisions[0].verdict))
        && (o.value.0 == Approved || o.value.0 == Consumed ==> o.value.1 == Some(Approve))
        && (o.value.0 == Rejected <==> o.value.1 == Some(Reject))
        && (o.value.0 == Pending ==> o.value.1 == None)
  {
    hide OutsideOk, LogOk, ResumeOk, LeaseOk, RunOk, QueueOk, Progress, WaitOk, FindIntent;
    FoundIsUnique(s.proposals, intent, i);
    assert ProposalOk(s.proposals[i], recoveryMax);
  }

  lemma NothingToRead(s: Rows, memberCurrent: bool, intent: IntentId, request: RequestId)
    requires forall i :: 0 <= i < |s.proposals| ==> s.proposals[i].intent.id != intent
    ensures ResolveResume(s, memberCurrent, intent, request) == Raised(NotFound)
  {
  }

  // ---- sweep_expired_approvals ----------------------------------------------

  /** A due request of a waiting run is expired at its deadline and not before; a sleeping job wakes
      with it, any other job stays as it is. */
  lemma ExpiryHappens(s: Rows, i: nat, now: Time, recoveryMax: int)
    requires Inv(s, recoveryMax) && i < |s.proposals| && s.proposals[i].request.Some?
    ensures
      var p, o := s.proposals[i], SweepRequest(s, i, now);
      var r := p.request.value;
      var due := s.run.status == RunWaiting && (r.status == Pending || r.status == Approved) && r.expiresAt <= now;
      && o.Committed?
      && (o.value == Skipped <==> !due) && (!due ==> o.rows == s)
      && (o.value == ExpiredAndRequeued <==> due && s.job.status == JobDone)
      && (due ==>
            Becomes(s, o.rows,
              s.(proposals := s.proposals[i := p.(
                   request := Some(Request(r.id, Expired, r.binding, r.version + 1, r.expiresAt, r.consumedAt)))],
                 job := if s.job.status == JobDone
                        then Job(JobQueued, 0, s.job.maxAttempts, now, None, Some(r.id), None) else s.job),
              [ApprovalExpiredEvent(p.intent.id, r.id, p.intent.revision, NaturalExpiry)]))
  {
    hide OutsideOk, LogOk, ResumeOk, LeaseOk, RunOk, QueueOk, Progress;
  }

  // ---- prepare_execution ----------------------------------------------------

  /** The proposal and its request are the ones that the identity names. */
  predicate Names(s: Rows, id: Identity, i: nat)
  {
    i < |s.proposals| && s.proposals[i].intent.id == id.intent
    && s.proposals[i].request.Some? && s.proposals[i].request.value.id == id.request
  }

  lemma NamesIsBound(s: Rows, id: Identity, i: nat, recoveryMax: int)
    requires Inv(s, recoveryMax) && Names(s, id, i)
    ensures LockBoundRows(s, id) == Bound(i) && ProposalOk(s.proposals[i], recoveryMax)
  {
    FoundIsUnique(s.proposals, id.intent, i);
  }

  /** In any rows, a call binds to an action exactly if it is the first with its identity, the request is its
      own, the run is an application of the current version, and the request was made for exactly this
      action in this revision with these arguments. */
  lemma RowsAreBound(s: Rows, id: Identity, i: nat)
    ensures
      LockBoundRows(s, id) == Bound(i) <==>
        && Named(s.proposals, id.intent, i)
        && s.proposals[i].request.Some? && s.proposals[i].request.value.id == id.request
        && s.run.mode == Application && s.run.graphVersion == CURRENT_GRAPH_VERSION
        && var p := s.proposals[i];
           p.request.value.binding == Binding(p.intent.id, p.intent.revision, p.intent.args)
  {
    if Named(s.proposals, id.intent, i) { NamedIsFound(s.proposals, id.intent, i); }
    if FindIntent(s.proposals, id.intent) == Some(i) { FoundIsNamed(s.proposals, id.intent, i); }
  }

  lemma {:induction false} FoundIsNamed(ps: seq<Proposal>, id: IntentId, i: nat, from: nat := 0)
    requires from <= |ps| && FindIntent(ps, id, from) == Some(i)
    ensures i < |ps| && ps[i].intent.id == id && forall j :: from <= j < i ==> ps[j].intent.id != id
    decreases |ps| - from
  {
    if ps[from].intent.id != id { FoundIsNamed(ps, id, i, from + 1); }
  }

  /** An identity that names no row is not found by any call. */
  lemma UnnamedIsNotFound(s: Rows, id: Identity, maxAttempts: int, expected: int, category: Category,
                          evidence: Evidence, now: Time, recoveryMax: int)
    requires Inv(s, recoveryMax) && forall i :: 0 <= i < |s.proposals| ==> !Names(s, id, i)
    ensures PrepareExecution(s, id, now) == Raised(NotFound) && BeginSend(s, id, now) == Raised(NotFound)
    ensures BeginReconciliation(s, id, maxAttempts, now) == Raised(NotFound)
    ensures AuthorizeResend(s, id, expected, now) == Raised(NotFound)
    ensures ConfirmSuccess(s, id, now) == Raised(NotFound)
    ensures ConfirmFailure(s, id, category, evidence, now) == Raised(NotFound)
    ensures ConfirmOutcomeUnknown(s, id, evidence, now) == Raised(NotFound)
  {
    var found := FindIntent(s.proposals, id.intent);
    if found.Some? { assert !Names(s, id, found.value); }
    assert LockBoundRows(s, id) == Unbound(NotFound);
  }

  /** The approval is consumed exactly when the creator is still a member, the run is running without
      a pending cancellation and the deadline has not passed; what else a preparation answers. */
  lemma ConsumptionHappens(s: Rows, id: Identity, i: nat, now: Time, recoveryMax: int)
    requires Inv(s, recoveryMax) && Names(s, id, i)
    ensures
      var p, o := s.proposals[i], PrepareExecution(s, id, now);
      var r, v := p.request.value, p.invocation;
      var acted := p.intent.status in {Executing, Succeeded, Failed, OutcomeUnknown};
      var live := s.memberActive && s.run.status == RunRunning && s.run.cancelRequestedAt.None?;
      if acted then o == Committed(s, Ready(p.intent.status))
      else if !s.memberActive then
        if v.Some? && v.value.status != InvPrepared then o == Raised(Broken(RevokedActionMayBeSent))
        else o == Committed(s.(proposals := s.proposals[i := Aborted(p, now)]), MembershipRevoked)
      else if live && p.intent.status == Authorized then o == Committed(s, Ready(Authorized))
      else if live && p.intent.status == Proposed && r.status == Approved then
        if now < r.expiresAt then
          o == Committed(s.(proposals := s.proposals[i := Proposal(
                           p.intent.(status := Authorized),
                           Some(Request(r.id, Consumed, r.binding, r.version + 1, r.expiresAt, Some(now))),
                           p.decisions,
                           Some(Invocation(p.intent.args, InvPrepared, 0, None, false, None, None, 0)))]),
                         Ready(Authorized))
        else
          o == Committed(s.(proposals := s.proposals[i := p.(
                           request := Some(Request(r.id, Expired, r.binding, r.version + 1, r.expiresAt, None)))]),
                         ApprovalHasExpired)
      else o == Raised(Conflict)
  {
    hide OutsideOk, LogOk, ResumeOk, LeaseOk, RunOk, QueueOk, Progress, WaitOk, FindIntent;
    NamesIsBound(s, id, i, recoveryMax);
    if s.proposals[i].request.value.status == Approved { ApproveCountOfOne(s.proposals[i].decisions); }
  }

  /** What a revoked creator's unsent action looks like afterwards. */
  function Aborted(p: Proposal, now: Time): Proposal
    requires p.request.Some?
  {
    var r, v := p.request.value, p.invocation;
    Proposal(
      if p.intent.status in {Proposed, Authorized} then p.intent.(status := Cancelled) else p.intent,
      Some(if r.status in {Pending, Approved}
           then Request(r.id, Expired, r.binding, r.version + 1, r.expiresAt, None) else r),
      p.decisions,
      if v.None? then None
      else Some(v.value.(status := InvFailed, errorCategory := Some(AbortedBeforeSend), finishedAt := Some(now))))
  }

  // ---- begin_send -----------------------------------------------------------

  /** A send is answered exactly for an authorized action.  It is refused exactly if the creator was
      removed, a cancellation is pending or the run does not run, and the category names the
      removal if there was one; otherwise the call goes out, with the approved payload. */
  lemma SendIsAnswered(s: Rows, id: Identity, i: nat, now: Time, recoveryMax: int)
    requires Inv(s, recoveryMax) && Names(s, id, i)
    ensures
      var p, o := s.proposals[i], BeginSend(s, id, now);
      var barred := !s.memberActive || s.run.cancelRequestedAt.Some? || s.run.status != RunRunning;
      var category := if s.memberActive then CancelledBeforeSend else AbortedBeforeSend;
      && (o.Committed? <==> p.intent.status == Authorized)
      && (o.Raised? ==> o.fault == if p.invocation.None? then Broken(InvocationMissing) else Conflict)
      && (o.Committed? ==>
            var v := p.invocation.value;
            if barred then
              && o.value == SendRefused(category)
              && o.rows == s.(proposals := s.proposals[i := p.(
                                intent := p.intent.(status := Cancelled),
                                invocation := Some(Invocation(v.args, InvFailed, 0, Some(category), false,
                                                              None, Some(now), v.resentFor)))])
            else
              && o.value == SendAllowed
              && Becomes(s, o.rows,
                   s.(proposals := s.proposals[i := p.(
                        intent := p.intent.(status := Executing),
                        invocation := Some(Invocation(v.args, InvExecuting, 1, None, false,
                                                      Some(now), None, v.resentFor)))],
                      wire := s.wire + {Message(p.intent.id, p.intent.args, 1)}),
                   [ActionStarted(p.intent.id)]))
  {
    hide OutsideOk, LogOk, ResumeOk, LeaseOk, RunOk, QueueOk, Progress, WaitOk, FindIntent;
    NamesIsBound(s, id, i, recoveryMax);
  }

  // ---- Recovery -------------------------------------------------------------

  /** The group after its outcome was recorded. */
  function WithOutcome(p: Proposal, status: IntentStatus, invocation: InvocationStatus, category: Option<Category>,
                    evidence: Evidence, now: Time): Proposal
    requires p.invocation.Some?
  {
    var i, v := p.intent, p.invocation.value;
    Proposal(Intent(i.id, i.revision, i.args, status, i.recoveryAttempts, status == Succeeded, Some(evidence)),
             p.request, p.decisions,
             Some(Invocation(v.args, invocation, v.attempt, category, status == Succeeded,
                             v.startedAt, Some(now), v.resentFor)))
  }

  /** What a call is told that finds its action in another state. */
  function NotExecuting(p: Proposal): Fault { if p.invocation.None? then Broken(InvocationMissing) else Conflict }

  /** The call of the action is out: its approval is consumed and its invocation is executing, as approved. */
  predicate CallIsOut(p: Proposal)
  {
    && p.request.Some? && p.request.value.status == Consumed && p.intent.status == Executing
    && p.invocation.Some? && p.invocation.value.args == p.intent.args && p.invocation.value.status == InvExecuting
  }

  /** In any rows, recovery and confirmation go through exactly while the call is out; a reconciliation and
      a confirmed success ask for an attempt on record as well, the others do not look. */
  lemma RecoveryIsOpen(s: Rows, id: Identity, i: nat, maxAttempts: int, expected: int, category: Category,
                       evidence: Evidence, now: Time)
    requires LockBoundRows(s, id) == Bound(i)
    ensures
      var p := s.proposals[i];
      && (BeginReconciliation(s, id, maxAttempts, now).Committed? <==>
            CallIsOut(p) && p.invocation.value.attempt >= 1)
      && (ConfirmSuccess(s, id, now).Committed? <==> CallIsOut(p) && p.invocation.value.attempt >= 1)
      && (AuthorizeResend(s, id, expected, now).Committed? <==>
            CallIsOut(p) && p.intent.recoveryAttempts == expected)
      && (ConfirmFailure(s, id, category, evidence, now).Committed? <==> CallIsOut(p))
      && (ConfirmOutcomeUnknown(s, id, evidence, now).Committed? <==> CallIsOut(p))
  {
    hide LockBoundRows, MarkUnknown, MarkFailed;
  }

  /** A reconciliation is counted, and allowed while the count is below the bound; the first one beyond
      records that the outcome is unknown. */
  lemma ReconciliationIsCounted(s: Rows, id: Identity, i: nat, maxAttempts: int, now: Time, recoveryMax: int)
    requires Inv(s, recoveryMax) && Names(s, id, i)
    ensures
      var p, o := s.proposals[i], BeginReconciliation(s, id, maxAttempts, now);
      var n := p.intent.recoveryAttempts;
      if p.intent.status != Executing then o == Raised(NotExecuting(p))
      else if n < maxAttempts then
        o == Committed(s.(proposals := s.proposals[i := p.(intent := p.intent.(recoveryAttempts := n + 1))]),
                       NetworkAllowed(n + 1))
      else
        && o.Committed? && o.value == Exhausted
        && Becomes(s, o.rows,
             s.(proposals := s.proposals[i := WithOutcome(p, OutcomeUnknown, InvUnknown, Some(ExternalOutcomeUnknown),
                                                       Evidence(RecoveryExhausted, None), now)]),
             [ActionOutcomeUnknown(p.intent.id)])
  {
    hide OutsideOk, LogOk, ResumeOk, LeaseOk, RunOk, QueueOk, Progress, WaitOk, FindIntent;
    NamesIsBound(s, id, i, recoveryMax);
  }

  /** A resend is answered exactly for an executing action whose last reconciliation the caller knows.
      It is refused exactly if the creator was removed, a cancellation is pending or the run does not
      run; the category, the evidence and the event name the removal if there was one, and
      otherwise the cancellation. */
  lemma ResendIsAnswered(s: Rows, id: Identity, i: nat, expected: int, now: Time, recoveryMax: int)
    requires Inv(s, recoveryMax) && Names(s, id, i)
    ensures
      var p, o := s.proposals[i], AuthorizeResend(s, id, expected, now);
      var barred := !s.memberActive || s.run.cancelRequestedAt.Some? || s.run.status != RunRunning;
      var category := if s.memberActive then CancelledConfirmedAbsent else AuthorizationRevoked;
      && (o.Committed? <==> p.intent.status == Executing && p.intent.recoveryAttempts == expected)
      && (o.Raised? ==> o.fault == NotExecuting(p))
      && (o.Committed? ==>
            var v := p.invocation.value;
            if barred then
              && o.value == ResendRefused(category)
              && Becomes(s, o.rows,
                   s.(proposals := s.proposals[i := WithOutcome(p, Failed, InvFailed, Some(category),
                                                             Evidence(ConfirmedAbsent, Some(category)), now)]),
                   [ActionFailed(p.intent.id, category)])
            else
              && o.value == ResendAllowed
              && o.rows == s.(
                   proposals := s.proposals[i := p.(
                     invocation := Some(Invocation(v.args, InvExecuting, v.attempt + 1, None, false,
                                                   v.startedAt, None, expected)))],
                   wire := s.wire + {Message(p.intent.id, p.intent.args, v.attempt + 1)}))
  {
    hide OutsideOk, LogOk, ResumeOk, LeaseOk, RunOk, QueueOk, Progress, WaitOk, FindIntent;
    NamesIsBound(s, id, i, recoveryMax);
  }

  lemma SuccessIsRecorded(s: Rows, id: Identity, i: nat, now: Time, recoveryMax: int)
    requires Inv(s, recoveryMax) && Names(s, id, i)
    ensures
      var p, o := s.proposals[i], ConfirmSuccess(s, id, now);
      if p.intent.status != Executing then o == Raised(NotExecuting(p))
      else
        && o.Committed?
        && Becomes(s, o.rows,
             s.(proposals := s.proposals[i := WithOutcome(p, Succeeded, InvSucceeded, None,
                                                          Evidence(ConfirmedSuccess, None), now)]),
             [ActionCompleted(p.intent.id)])
  {
    hide OutsideOk, LogOk, ResumeOk, LeaseOk, RunOk, QueueOk, Progress, WaitOk, FindIntent;
    NamesIsBound(s, id, i, recoveryMax);
  }

  lemma FailureIsRecorded(s: Rows, id: Identity, i: nat, category: Category, evidence: Evidence, now: Time,
                          recoveryMax: int)
    requires Inv(s, recoveryMax) && Names(s, id, i)
    ensures
      var p, o := s.proposals[i], ConfirmFailure(s, id, category, evidence, now);
      if p.intent.status != Executing then o == Raised(NotExecuting(p))
      else
        && o.Committed?
        && Becomes(s, o.rows,
             s.(proposals := s.proposals[i := WithOutcome(p, Failed, InvFailed, Some(category), evidence, now)]),
             [ActionFailed(p.intent.id, category)])
  {
    hide OutsideOk, LogOk, ResumeOk, LeaseOk, RunOk, QueueOk, Progress, WaitOk, FindIntent;
    NamesIsBound(s, id, i, recoveryMax);
  }

  lemma UnknownIsRecorded(s: Rows, id: Identity, i: nat, evidence: Evidence, now: Time, recoveryMax: int)
    requires Inv(s, recoveryMax) && Names(s, id, i)
    ensures
      var p, o := s.proposals[i], ConfirmOutcomeUnknown(s, id, evidence, now);
      if p.intent.status != Executing then o == Raised(NotExecuting(p))
      else
        && o.Committed?
        && Becomes(s, o.rows,
             s.(proposals := s.proposals[i := WithOutcome(p, OutcomeUnknown, InvUnknown,
                                                          Some(ExternalOutcomeUnknown), evidence, now)]),
             [ActionOutcomeUnknown(p.intent.id)])
  {
    hide OutsideOk, LogOk, ResumeOk, LeaseOk, RunOk, QueueOk, Progress, WaitOk, FindIntent;
    NamesIsBound(s, id, i, recoveryMax);
  }
}
