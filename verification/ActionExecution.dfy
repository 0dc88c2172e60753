/** The transactions of `src/app/db/action_execution.py`: preparing, sending, reconciling,
    resending and confirming one irreversible call. */
module ActionExecution {
  import opened Options
  import opened Rows

  datatype Identity = Identity(intent: IntentId, request: RequestId)

  /** What `prepare_execution` reports after it commits. */
  datatype Preparation =
    | Ready(status: IntentStatus)
    | ApprovalHasExpired
    | MembershipRevoked

  datatype SendAuthorization = SendAllowed | SendRefused(category: Category)

  datatype Reconciliation = NetworkAllowed(recoveryAttempt: int) | Exhausted

  datatype ResendAuthorization = ResendAllowed | ResendRefused(category: Category)

  /** The index that `_lock_bound_rows` locks, or the error it raises. */
  datatype Bound = Bound(i: nat) | Unbound(fault: Fault)

  function LockBoundRows(s: Rows, id: Identity): (b: Bound)
    ensures b.Bound? ==>
      && b.i < |s.proposals| && s.proposals[b.i].intent.id == id.intent
      && HasRequest(s.proposals[b.i], id.request) && ExactBinding(s.proposals[b.i])
      && s.run.mode == Application && s.run.graphVersion == CURRENT_GRAPH_VERSION
  {
    var found := FindIntent(s.proposals, id.intent);
    if found.None? || !HasRequest(s.proposals[found.value], id.request) then Unbound(NotFound)
    else if s.run.mode != Application || s.run.graphVersion != CURRENT_GRAPH_VERSION then
      Unbound(Broken(RunFactsConflict))
    else if !ExactBinding(s.proposals[found.value]) then Unbound(Broken(BindingConflict))
    else Bound(found.value)
  }

  predicate ValidInvocation(p: Proposal) { p.invocation.Some? && p.invocation.value.args == p.intent.args }

  function InvocationOf(s: IntentStatus): Option<InvocationStatus>
  {
    match s
    case Executing => Some(InvExecuting)
    case Succeeded => Some(InvSucceeded)
    case Failed => Some(InvFailed)
    case OutcomeUnknown => Some(InvUnknown)
    case _ => None
  }

  function ApproveCount(ds: seq<Decision>): nat
  {
    if ds == [] then 0 else (if ds[0].verdict == Approve then 1 else 0) + ApproveCount(ds[1..])
  }

  function Expire(r: Request): Request
  {
    r.(status := Expired, version := r.version + 1, consumedAt := None)
  }

  /** A prepared call that is given up before it was sent. */
  function AbortInvocation(v: Invocation, category: Category, now: Time): Invocation
  {
    v.(status := InvFailed, errorCategory := Some(category), finishedAt := Some(now))
  }

  function FailInvocation(v: Invocation, category: Category, now: Time): Invocation
  {
    AbortInvocation(v, category, now).(hasResult := false)
  }

  function FreshInvocation(args: Args): Invocation
  {
    Invocation(args, InvPrepared, 0, None, false, None, None, 0)
  }

  // ---- prepare_execution ----------------------------------------------------

  /** The group after a preparation that finds the membership revoked. */
  function Revoked(p: Proposal, now: Time): Proposal
    requires p.request.Some?
  {
    var r := p.request.value;
    p.(request := Some(if r.status in {Pending, Approved} then Expire(r) else r),
       intent := if p.intent.status in {Proposed, Authorized}
                 then p.intent.(status := Cancelled) else p.intent,
       invocation := if p.invocation.Some?
                     then Some(AbortInvocation(p.invocation.value, AbortedBeforeSend, now)) else None)
  }

  /** The group after the approval is consumed. */
  function ConsumedBy(p: Proposal, now: Time): Proposal
    requires p.request.Some?
  {
    var r := p.request.value;
    p.(request := Some(r.(status := Consumed, consumedAt := Some(now), version := r.version + 1)),
       intent := p.intent.(status := Authorized),
       invocation := Some(FreshInvocation(p.intent.args)))
  }

  function PrepareExecution(s: Rows, id: Identity, now: Time): Outcome<Preparation>
  {
    var b := LockBoundRows(s, id);
    if b.Unbound? then Raised(b.fault) else
    var p := s.proposals[b.i];
    var r := p.request.value;
    if InvocationOf(p.intent.status).Some? then
      if p.invocation.None? then Raised(Broken(InvocationMissing))
      else if !ValidInvocation(p) then Raised(Broken(InvocationFactsConflict))
      else if r.status != Consumed || Some(p.invocation.value.status) != InvocationOf(p.intent.status)
           || p.invocation.value.attempt < 1 then Raised(Broken(RecoveryFactsConflict))
      else Committed(s, Ready(p.intent.status))
    else if !s.memberActive then
      if p.invocation.Some? && !ValidInvocation(p) then Raised(Broken(InvocationFactsConflict))
      else if p.invocation.Some? && p.invocation.value.status != InvPrepared then
        Raised(Broken(RevokedActionMayBeSent))
      else Committed(SetProposal(s, b.i, Revoked(p, now)), MembershipRevoked)
    else if s.run.status != RunRunning || s.run.cancelRequestedAt.Some? then Raised(Conflict)
    else if r.status == Approved && r.expiresAt <= now then
      Committed(SetProposal(s, b.i, p.(request := Some(Expire(r)))), ApprovalHasExpired)
    else if r.status == Consumed && p.intent.status == Authorized && p.invocation.Some? then
      if !ValidInvocation(p) then Raised(Broken(InvocationFactsConflict))
      else if p.invocation.value.status != InvPrepared || p.invocation.value.attempt != 0 then
        Raised(Broken(PreparedRetryConflict))
      else Committed(s, Ready(Authorized))
    else if r.status != Approved || p.intent.status != Proposed then Raised(Conflict)
    else if p.invocation.Some? then Raised(Broken(ConflictingInvocation))
    else if ApproveCount(p.decisions) != 1 then Raised(Broken(DecisionFactsConflict))
    else Committed(SetProposal(s, b.i, ConsumedBy(p, now)), Ready(Authorized))
  }

  // ---- begin_send -----------------------------------------------------------

  /** The call is on the wire from the commit on: it may arrive late or never. */
  function BeginSend(s: Rows, id: Identity, now: Time): Outcome<SendAuthorization>
  {
    var b := LockBoundRows(s, id);
    if b.Unbound? then Raised(b.fault) else
    var p := s.proposals[b.i];
    if p.invocation.None? then Raised(Broken(InvocationMissing))
    else if !ValidInvocation(p) then Raised(Broken(InvocationFactsConflict))
    else
      var v := p.invocation.value;
      if p.request.value.status != Consumed || p.intent.status != Authorized
         || v.status != InvPrepared || v.attempt != 0 then Raised(Conflict)
      else if !s.memberActive || s.run.status != RunRunning || s.run.cancelRequestedAt.Some? then
        var category := if !s.memberActive then AbortedBeforeSend else CancelledBeforeSend;
        Committed(SetProposal(s, b.i, p.(intent := p.intent.(status := Cancelled),
                                         invocation := Some(AbortInvocation(v, category, now)))),
                  SendRefused(category))
      else
        var sent := SetProposal(s, b.i, p.(
          intent := p.intent.(status := Executing),
          invocation := Some(v.(status := InvExecuting, attempt := 1, startedAt := Some(now)))));
        Committed(Append(sent.(wire := sent.wire + {Message(p.intent.id, p.intent.args, 1)}),
                         ActionStarted(p.intent.id)),
                  SendAllowed)
  }

  // ---- Recovery -------------------------------------------------------------

  function Finish(p: Proposal, status: IntentStatus, evidence: Evidence, v: Invocation): Proposal
  {
    p.(intent := p.intent.(status := status, hasResult := status == Succeeded, evidence := Some(evidence)),
       invocation := Some(v))
  }

  /** `_mark_failed` on the group at `i`. */
  function MarkFailed(s: Rows, i: nat, category: Category, evidence: Evidence, now: Time): Rows
    requires i < |s.proposals| && s.proposals[i].invocation.Some?
  {
    var p := s.proposals[i];
    Append(SetProposal(s, i, Finish(p, Failed, evidence, FailInvocation(p.invocation.value, category, now))),
           ActionFailed(p.intent.id, category))
  }

  /** `_mark_unknown`, and the same writes made by `fail` and `reclaim` in jobs.py. */
  function MarkUnknown(s: Rows, i: nat, evidence: Evidence, now: Time): Rows
    requires i < |s.proposals| && s.proposals[i].invocation.Some?
  {
    var p := s.proposals[i];
    var v := p.invocation.value.(status := InvUnknown, errorCategory := Some(ExternalOutcomeUnknown),
                                 hasResult := false, finishedAt := Some(now));
    Append(SetProposal(s, i, Finish(p, OutcomeUnknown, evidence, v)), ActionOutcomeUnknown(p.intent.id))
  }

  const EXHAUSTED: Evidence := Evidence(RecoveryExhausted, None)

  /** The bound group, its invocation checked; `requireAttempt` is false where the
      source does not look at the attempt number. */
  function LockExecuting(s: Rows, id: Identity, requireAttempt: bool): (b: Bound)
    ensures b.Bound? ==> LockBoundRows(s, id) == b
    ensures b.Bound? ==>
      && s.proposals[b.i].intent.status == Executing && s.proposals[b.i].invocation.Some?
      && s.proposals[b.i].request.value.status == Consumed
      && s.proposals[b.i].invocation.value.status == InvExecuting
  {
    var b := LockBoundRows(s, id);
    if b.Unbound? then b else
    var p := s.proposals[b.i];
    if p.invocation.None? then Unbound(Broken(InvocationMissing))
    else if !ValidInvocation(p) then Unbound(Broken(InvocationFactsConflict))
    else if p.request.value.status != Consumed || p.intent.status != Executing
         || p.invocation.value.status != InvExecuting
         || (requireAttempt && p.invocation.value.attempt < 1) then Unbound(Conflict)
    else b
  }

  function BeginReconciliation(s: Rows, id: Identity, maxAttempts: int, now: Time): Outcome<Reconciliation>
  {
    var b := LockExecuting(s, id, true);
    if b.Unbound? then Raised(b.fault) else
    var p := s.proposals[b.i];
    if p.intent.recoveryAttempts >= maxAttempts then Committed(MarkUnknown(s, b.i, EXHAUSTED, now), Exhausted)
    else
      var n := p.intent.recoveryAttempts + 1;
      Committed(SetProposal(s, b.i, p.(intent := p.intent.(recoveryAttempts := n))), NetworkAllowed(n))
  }

  function AuthorizeResend(s: Rows, id: Identity, expected: int, now: Time): Outcome<ResendAuthorization>
  {
    var b := LockExecuting(s, id, false);
    if b.Unbound? then Raised(b.fault) else
    var p := s.proposals[b.i];
    var v := p.invocation.value;
    if p.intent.recoveryAttempts != expected then Raised(Conflict)
    else if !s.memberActive || s.run.cancelRequestedAt.Some? || s.run.status != RunRunning then
      var category := if !s.memberActive then AuthorizationRevoked else CancelledConfirmedAbsent;
      Committed(MarkFailed(s, b.i, category, Evidence(ConfirmedAbsent, Some(category)), now),
                ResendRefused(category))
    else
      var resent := SetProposal(s, b.i, p.(
        invocation := Some(v.(attempt := v.attempt + 1, resentFor := expected))));
      Committed(resent.(wire := resent.wire + {Message(p.intent.id, p.intent.args, v.attempt + 1)}),
                ResendAllowed)
  }

  // ---- Confirmations --------------------------------------------------------

  function ConfirmSuccess(s: Rows, id: Identity, now: Time): Outcome<()>
  {
    var b := LockExecuting(s, id, true);
    if b.Unbound? then Raised(b.fault) else
    var p := s.proposals[b.i];
    var v := p.invocation.value.(status := InvSucceeded, hasResult := true, finishedAt := Some(now));
    Committed(Append(SetProposal(s, b.i, Finish(p, Succeeded, Evidence(ConfirmedSuccess, None), v)),
                     ActionCompleted(p.intent.id)), ())
  }

  function ConfirmFailure(s: Rows, id: Identity, category: Category, evidence: Evidence, now: Time): Outcome<()>
  {
    var b := LockExecuting(s, id, false);
    if b.Unbound? then Raised(b.fault) else Committed(MarkFailed(s, b.i, category, evidence, now), ())
  }

  function ConfirmOutcomeUnknown(s: Rows, id: Identity, evidence: Evidence, now: Time): Outcome<()>
  {
    var b := LockExecuting(s, id, false);
    if b.Unbound? then Raised(b.fault) else Committed(MarkUnknown(s, b.i, evidence, now), ())
  }

  // ---- The portal (src/app/db/mock_submissions.py) --------------------------

  predicate Stored(portal: seq<Submission>, key: IntentId) { exists i :: 0 <= i < |portal| && portal[i].key == key }

  /** `put_if_absent`: the first call with a key inserts, later ones read the winner. */
  function PutIfAbsent(portal: seq<Submission>, m: Message): (r: (seq<Submission>, bool))
    ensures r.1 <==> !Stored(portal, m.key)
    ensures Stored(r.0, m.key)
  {
    if Stored(portal, m.key) then (portal, false)
    else
      var grown := portal + [Submission(m.key, m.args)];
      assert grown[|portal|].key == m.key;
      (grown, true)
  }
}
