/** The transactions of action_execution.py keep the invariant and never find their
    "cannot happen" guards true. */
module ExecutionProofs {
  import opened Options
  import opened Rows
  import opened ActionExecution
  import opened Invariant

  // ---- Framing --------------------------------------------------------------

  lemma AppendKeepsLog(s: Rows, kind: EventKind, ended: bool)
    requires LogOk(s.run.nextEventSeq, s.events, ended) && !(ended && TerminalKind(kind))
    ensures var t := Append(s, kind); LogOk(t.run.nextEventSeq, t.events, ended || TerminalKind(kind))
  {
    assert Append(s, kind).events[..|s.events|] == s.events;
  }

  /** A row group may be rewritten in place as long as its identities stay. */
  predicate SameIdentity(p: Proposal, q: Proposal)
  {
    && q.intent.id == p.intent.id && q.intent.revision == p.intent.revision && q.intent.args == p.intent.args
    && p.request.Some? && q.request.Some? && q.request.value.id == p.request.value.id
  }

  lemma AppendKeeps(s: Rows, kind: EventKind, recoveryMax: int)
    requires Inv(s, recoveryMax) && !TerminalKind(kind)
    ensures Inv(Append(s, kind), recoveryMax)
  {
    hide ProposalsOk, OutsideOk, LogOk, ResumeOk, WaitOk, LeaseOk;
    AppendKeepsLog(s, kind, Terminal(s.run.status));
  }

  lemma UpdateKeepsProposals(ps: seq<Proposal>, i: nat, q: Proposal, recoveryMax: int)
    requires i < |ps| && ProposalsOk(ps, recoveryMax) && ProposalOk(q, recoveryMax)
    requires SameIdentity(ps[i], q)
    requires i < |ps| - 1 ==> Retired(q)
    ensures ProposalsOk(ps[i := q], recoveryMax)
  {
  }

  /** What a rewrite of the group at `i` must respect so that calls already on the wire,
      resume identities and the run's status stay justified. */
  predicate LegalRewrite(s: Rows, i: nat, q: Proposal, recoveryMax: int)
    requires i < |s.proposals|
  {
    var p := s.proposals[i];
    && SameIdentity(p, q) && ProposalOk(q, recoveryMax)
    && (i < |s.proposals| - 1 ==> Retired(q))
    && (p.request.value.status != Pending ==> q.request.value.status != Pending)
    && (p.request.value.status == Consumed ==>
          && q.request.value.status == Consumed && p.invocation.Some? && q.invocation.Some?
          && q.invocation.value.attempt >= p.invocation.value.attempt)
    && (p.intent.status in ACTED ==> q.intent.status in ACTED)
    && (q.intent.status == Executing ==> s.run.status == RunRunning)
    && (q.intent.status == Cancelled && q.request.value.status == Consumed ==>
          !s.memberActive || s.run.cancelRequestedAt.Some? || Terminal(s.run.status))
  }

  lemma RewriteKeepsResume(ps: seq<Proposal>, i: nat, q: Proposal, resumeRequest: Option<RequestId>)
    requires ResumeOk(ps, resumeRequest) && i < |ps| && SameIdentity(ps[i], q)
    requires ps[i].request.value.status != Pending ==> q.request.value.status != Pending
    ensures ResumeOk(ps[i := q], resumeRequest)
  {
    if resumeRequest.Some? {
      var k :| 0 <= k < |ps| && HasRequest(ps[k], resumeRequest.value) && ps[k].request.value.status != Pending;
      assert HasRequest(ps[i := q][k], resumeRequest.value);
    }
  }

  lemma RewriteKeeps(s: Rows, i: nat, q: Proposal, recoveryMax: int)
    requires Inv(s, recoveryMax) && s.run.status != RunWaiting
    requires i < |s.proposals| && LegalRewrite(s, i, q, recoveryMax)
    ensures Inv(SetProposal(s, i, q), recoveryMax)
  {
    UpdateKeepsProposals(s.proposals, i, q, recoveryMax);
    RewriteKeepsResume(s.proposals, i, q, s.job.resumeRequest);
    hide ProposalOk, ResumeOk, LogOk, LeaseOk, RunOk;
  }

  /** Only the newest proposal can be bound while it is proposed, or was ever consumed. */
  lemma BoundIsNewest(s: Rows, i: nat, recoveryMax: int)
    requires ProposalsOk(s.proposals, recoveryMax) && i < |s.proposals|
    requires s.proposals[i].intent.status != Cancelled || s.proposals[i].request.value.status == Consumed
    ensures i == |s.proposals| - 1
  {
  }

  lemma FoundIsUnique(ps: seq<Proposal>, id: IntentId, i: nat)
    requires Revisions(ps) && i < |ps| && ps[i].intent.id == id
    ensures FindIntent(ps, id) == Some(i)
  {
  }

  // ---- prepare_execution ----------------------------------------------------

  lemma ApproveCountOfOne(ds: seq<Decision>)
    requires |ds| == 1 && ds[0].verdict == Approve
    ensures ApproveCount(ds) == 1
  {
    assert ds[1..] == [];
  }

  lemma RevokedIsOk(p: Proposal, now: Time, recoveryMax: int)
    requires ProposalOk(p, recoveryMax) && p.intent.status !in ACTED
    requires p.invocation.Some? ==> p.invocation.value.status == InvPrepared
    ensures ProposalOk(Revoked(p, now), recoveryMax)
  {
  }

  lemma ExpiredIsOk(p: Proposal, recoveryMax: int)
    requires ProposalOk(p, recoveryMax) && p.request.value.status == Approved
    ensures ProposalOk(p.(request := Some(Expire(p.request.value))), recoveryMax)
  {
  }

  lemma ConsumedIsOk(p: Proposal, now: Time, recoveryMax: int)
    requires ProposalOk(p, recoveryMax) && p.intent.status == Proposed
    requires p.request.value.status == Approved && now < p.request.value.expiresAt
    ensures ProposalOk(ConsumedBy(p, now), recoveryMax)
  {
  }

  /** Every group that a preparation writes is a legal rewrite. */
  lemma PreparationIsLegal(s: Rows, id: Identity, now: Time, recoveryMax: int)
    requires Inv(s, recoveryMax)
    ensures
      var b, o := LockBoundRows(s, id), PrepareExecution(s, id, now);
      o.Committed? && o.rows != s ==>
        && b.Bound? && |o.rows.proposals| == |s.proposals|
        && LegalRewrite(s, b.i, o.rows.proposals[b.i], recoveryMax)
  {
    hide OutsideOk, LogOk, ResumeOk, LeaseOk, JobOk, Progress, RunOk, QueueOk, WaitOk, Recovery, ApproveCount;
    var b, o := LockBoundRows(s, id), PrepareExecution(s, id, now);
    if o.Committed? && o.rows != s {
      var p := s.proposals[b.i];
      if o.value.MembershipRevoked? { RevokedIsOk(p, now, recoveryMax); }
      else if o.value.ApprovalHasExpired? { ExpiredIsOk(p, recoveryMax); }
      else { ConsumedIsOk(p, now, recoveryMax); }
    }
  }

  lemma PrepareExecutionKeeps(s: Rows, id: Identity, now: Time, recoveryMax: int)
    requires Inv(s, recoveryMax) && (s.run.status == RunWaiting ==> s.memberActive)
    ensures Inv(After(s, PrepareExecution(s, id, now)), recoveryMax)
  {
    hide Inv, LegalRewrite;
    PreparationIsLegal(s, id, now, recoveryMax);
    var b, o := LockBoundRows(s, id), PrepareExecution(s, id, now);
    if o.Committed? && o.rows != s {
      assert s.run.status != RunWaiting;
      RewriteKeeps(s, b.i, o.rows.proposals[b.i], recoveryMax);
      assert o.rows == SetProposal(s, b.i, o.rows.proposals[b.i]);
    }
  }

  // ---- begin_send, reconciliation, resend -----------------------------------

  /** Authorizing a call puts exactly the approved payload on the wire. */
  lemma SendKeeps(s: Rows, m: Message, recoveryMax: int)
    requires Inv(s, recoveryMax) && Authorizes(s.proposals, m.key, m.args, m.attempt)
    ensures Inv(s.(wire := s.wire + {m}), recoveryMax)
  {
  }

  lemma BeginSendKeeps(s: Rows, id: Identity, now: Time, recoveryMax: int)
    requires Inv(s, recoveryMax)
    ensures Inv(After(s, BeginSend(s, id, now)), recoveryMax)
  {
    hide OutsideOk, LogOk, ResumeOk, LeaseOk, JobOk, Progress, RunOk, QueueOk;
    var b, o := LockBoundRows(s, id), BeginSend(s, id, now);
    if o.Committed? {
      BoundIsNewest(s, b.i, recoveryMax);
      var t := SetProposal(s, b.i, o.rows.proposals[b.i]);
      RewriteKeeps(s, b.i, o.rows.proposals[b.i], recoveryMax);
      if o.value.SendAllowed? {
        SendKeeps(t, Message(id.intent, s.proposals[b.i].intent.args, 1), recoveryMax);
        AppendKeeps(o.rows.(run := s.run, events := s.events), ActionStarted(id.intent), recoveryMax);
      }
    }
  }

  lemma MarkUnknownKeeps(s: Rows, i: nat, evidence: Evidence, now: Time, recoveryMax: int)
    requires Inv(s, recoveryMax) && i < |s.proposals| && s.proposals[i].intent.status == Executing
    ensures Inv(MarkUnknown(s, i, evidence, now), recoveryMax)
    ensures i == |s.proposals| - 1
  {
    hide OutsideOk, LogOk, ResumeOk, LeaseOk, JobOk, Progress, RunOk, QueueOk, WaitOk;
    var q := MarkUnknown(s, i, evidence, now).proposals[i];
    BoundIsNewest(s, i, recoveryMax);
    RewriteKeeps(s, i, q, recoveryMax);
    AppendKeeps(SetProposal(s, i, q), ActionOutcomeUnknown(q.intent.id), recoveryMax);
  }

  lemma MarkFailedKeeps(s: Rows, i: nat, category: Category, evidence: Evidence, now: Time, recoveryMax: int)
    requires Inv(s, recoveryMax) && i < |s.proposals| && s.proposals[i].intent.status == Executing
    ensures Inv(MarkFailed(s, i, category, evidence, now), recoveryMax)
  {
    hide OutsideOk, LogOk, ResumeOk, LeaseOk, JobOk, Progress, RunOk, QueueOk, WaitOk;
    var q := MarkFailed(s, i, category, evidence, now).proposals[i];
    BoundIsNewest(s, i, recoveryMax);
    RewriteKeeps(s, i, q, recoveryMax);
    AppendKeeps(SetProposal(s, i, q), ActionFailed(q.intent.id, category), recoveryMax);
  }

  lemma BeginReconciliationKeeps(s: Rows, id: Identity, now: Time, recoveryMax: int)
    requires Inv(s, recoveryMax)
    ensures Inv(After(s, BeginReconciliation(s, id, recoveryMax, now)), recoveryMax)
  {
    hide OutsideOk, LogOk, ResumeOk, LeaseOk, JobOk, Progress, RunOk, QueueOk, WaitOk;
    var b, o := LockExecuting(s, id, true), BeginReconciliation(s, id, recoveryMax, now);
    if o.Committed? {
      BoundIsNewest(s, b.i, recoveryMax);
      if o.value.Exhausted? {
        MarkUnknownKeeps(s, b.i, EXHAUSTED, now, recoveryMax);
      } else {
        RewriteKeeps(s, b.i, o.rows.proposals[b.i], recoveryMax);
      }
    }
  }

  /** The driver resends at most once for each reconciliation it was granted. */
  predicate ResendsOnce(s: Rows, id: Identity, expected: int)
  {
    var b := LockExecuting(s, id, false);
    b.Bound? ==> s.proposals[b.i].invocation.value.resentFor < expected
  }

  /** If the resend is allowed, every earlier attempt belongs to an earlier reconciliation. */
  predicate ResendFits(s: Rows, id: Identity, expected: int, now: Time)
  {
    var b, o := LockExecuting(s, id, false), AuthorizeResend(s, id, expected, now);
    o.Committed? && o.value.ResendAllowed? ==> s.proposals[b.i].invocation.value.attempt <= expected
  }

  lemma OneResendFits(s: Rows, id: Identity, expected: int, now: Time, recoveryMax: int)
    requires Inv(s, recoveryMax) && ResendsOnce(s, id, expected)
    ensures ResendFits(s, id, expected, now)
  {
    hide OutsideOk, LogOk, ResumeOk, LeaseOk, JobOk, Progress, RunOk, QueueOk, WaitOk;
  }

  lemma AuthorizeResendKeeps(s: Rows, id: Identity, expected: int, now: Time, recoveryMax: int)
    requires Inv(s, recoveryMax) && ResendFits(s, id, expected, now)
    ensures Inv(After(s, AuthorizeResend(s, id, expected, now)), recoveryMax)
  {
    hide OutsideOk, LogOk, ResumeOk, LeaseOk, JobOk, Progress, RunOk, QueueOk, WaitOk;
    var b, o := LockExecuting(s, id, false), AuthorizeResend(s, id, expected, now);
    if o.Committed? {
      BoundIsNewest(s, b.i, recoveryMax);
      if o.value.ResendRefused? {
        MarkFailedKeeps(s, b.i, o.value.category, Evidence(ConfirmedAbsent, Some(o.value.category)), now, recoveryMax);
      } else {
        var q := o.rows.proposals[b.i];
        RewriteKeeps(s, b.i, q, recoveryMax);
        SendKeeps(SetProposal(s, b.i, q), Message(id.intent, q.intent.args, q.invocation.value.attempt), recoveryMax);
      }
    }
  }

  // ---- Confirmations --------------------------------------------------------

  lemma ConfirmSuccessKeeps(s: Rows, id: Identity, now: Time, recoveryMax: int)
    requires Inv(s, recoveryMax)
    ensures Inv(After(s, ConfirmSuccess(s, id, now)), recoveryMax)
  {
    hide OutsideOk, LogOk, ResumeOk, LeaseOk, JobOk, Progress, RunOk, QueueOk, WaitOk;
    var b, o := LockExecuting(s, id, true), ConfirmSuccess(s, id, now);
    if o.Committed? {
      BoundIsNewest(s, b.i, recoveryMax);
      RewriteKeeps(s, b.i, o.rows.proposals[b.i], recoveryMax);
      AppendKeeps(SetProposal(s, b.i, o.rows.proposals[b.i]), ActionCompleted(id.intent), recoveryMax);
    }
  }

  lemma ConfirmFailureKeeps(s: Rows, id: Identity, category: Category, evidence: Evidence, now: Time, recoveryMax: int)
    requires Inv(s, recoveryMax)
    ensures Inv(After(s, ConfirmFailure(s, id, category, evidence, now)), recoveryMax)
  {
    var b := LockExecuting(s, id, false);
    if b.Bound? { MarkFailedKeeps(s, b.i, category, evidence, now, recoveryMax); }
  }

  lemma ConfirmOutcomeUnknownKeeps(s: Rows, id: Identity, evidence: Evidence, now: Time, recoveryMax: int)
    requires Inv(s, recoveryMax)
    ensures Inv(After(s, ConfirmOutcomeUnknown(s, id, evidence, now)), recoveryMax)
  {
    var b := LockExecuting(s, id, false);
    if b.Bound? { MarkUnknownKeeps(s, b.i, evidence, now, recoveryMax); }
  }

  // ---- The network and the portal -------------------------------------------

  lemma DeliverKeeps(s: Rows, m: Message, recoveryMax: int)
    requires Inv(s, recoveryMax) && m in s.wire
    ensures Inv(s.(portal := PutIfAbsent(s.portal, m).0), recoveryMax)
  {
    if s.portal != [] { assert s.portal[0].key == m.key; }
  }

  // ---- Which guards are dead ------------------------------------------------

  lemma BoundRowsAgree(s: Rows, id: Identity, recoveryMax: int)
    requires Inv(s, recoveryMax)
    ensures var b := LockBoundRows(s, id); b.Unbound? ==> b.fault == NotFound
  {
    hide OutsideOk, LogOk, ResumeOk, LeaseOk, JobOk, Progress, RunOk, QueueOk, WaitOk;
  }

  /** Every consistency error of `prepare_execution` is unreachable but one: the abort of a
      consumed action that a revocation already cancelled. */
  lemma PrepareExecutionGuards(s: Rows, id: Identity, now: Time, recoveryMax: int)
    requires Inv(s, recoveryMax)
    ensures
      var b, o := LockBoundRows(s, id), PrepareExecution(s, id, now);
      o.Raised? && o.fault.Broken? <==>
        && b.Bound? && !s.memberActive
        && s.proposals[b.i].intent.status == Cancelled && s.proposals[b.i].request.value.status == Consumed
    ensures
      var o := PrepareExecution(s, id, now);
      o.Raised? && o.fault.Broken? ==> o.fault.guard == RevokedActionMayBeSent
  {
    hide OutsideOk, LogOk, ResumeOk, LeaseOk, JobOk, Progress, RunOk, QueueOk, WaitOk;
    BoundRowsAgree(s, id, recoveryMax);
    var b := LockBoundRows(s, id);
    if b.Bound? {
      var p := s.proposals[b.i];
      if |p.decisions| == 1 && p.decisions[0].verdict == Approve { ApproveCountOfOne(p.decisions); }
    }
  }

  /** Sending, recovering and confirming raise a consistency error only for an action whose
      approval was never consumed. */
  lemma ExecutionGuards(s: Rows, id: Identity, expected: int, category: Category, evidence: Evidence, now: Time,
                        recoveryMax: int)
    requires Inv(s, recoveryMax)
    ensures
      var b := LockBoundRows(s, id);
      var unconsumed := b.Bound? && s.proposals[b.i].request.value.status != Consumed;
      && (Unbroken(BeginSend(s, id, now)) <==> !unconsumed)
      && (Unbroken(BeginReconciliation(s, id, recoveryMax, now)) <==> !unconsumed)
      && (Unbroken(AuthorizeResend(s, id, expected, now)) <==> !unconsumed)
      && (Unbroken(ConfirmSuccess(s, id, now)) <==> !unconsumed)
      && (Unbroken(ConfirmFailure(s, id, category, evidence, now)) <==> !unconsumed)
      && (Unbroken(ConfirmOutcomeUnknown(s, id, evidence, now)) <==> !unconsumed)
  {
    hide OutsideOk, LogOk, ResumeOk, LeaseOk, JobOk, Progress, RunOk, QueueOk, WaitOk;
    BoundRowsAgree(s, id, recoveryMax);
  }
}
