/** The transactions of actions.py, approvals.py and approval_expiry.py keep the invariant. */
module ActionProofs {
  import opened Options
  import opened Rows
  import opened Actions
  import opened Approvals
  import opened Invariant
  import opened ExecutionProofs

  // ---- Proposals ------------------------------------------------------------

  predicate FreshRequest(s: Rows, id: RequestId)
  {
    s.job.resumeRequest != Some(id) && forall i :: 0 <= i < |s.proposals| ==> !HasRequest(s.proposals[i], id)
  }

  lemma GrowKeepsProposals(ps: seq<Proposal>, q: Proposal, recoveryMax: int)
    requires ProposalsOk(ps, recoveryMax) && ProposalOk(q, recoveryMax)
    requires ps != [] ==> Retired(Newest(ps))
    requires q.intent.revision == |ps| + 1
    requires forall i :: 0 <= i < |ps| ==> ps[i].intent.id != q.intent.id
    requires forall i :: 0 <= i < |ps| ==> !HasRequest(ps[i], q.request.value.id)
    ensures ProposalsOk(ps + [q], recoveryMax)
  {
  }

  lemma GrowKeepsResume(ps: seq<Proposal>, q: Proposal, resumeRequest: Option<RequestId>)
    requires ResumeOk(ps, resumeRequest)
    ensures ResumeOk(ps + [q], resumeRequest)
  {
    if resumeRequest.Some? {
      var k :| 0 <= k < |ps| && HasRequest(ps[k], resumeRequest.value) && ps[k].request.value.status != Pending;
      assert HasRequest((ps + [q])[k], resumeRequest.value);
    }
  }

  /** Inserting the next revision after a retired one, in a running application run. */
  lemma GrowKeeps(s: Rows, c: Propose, recoveryMax: int)
    requires Inv(s, recoveryMax) && LockApplicationRun(s, c).None? && ProposalIsNew(s, c)
    requires s.proposals != [] ==> Retired(Newest(s.proposals))
    requires c.revision == |s.proposals| + 1 && FreshRequest(s, c.request) && 0 <= recoveryMax
    ensures Inv(s.(proposals := s.proposals + [ProposalOf(c)]), recoveryMax)
  {
    GrowKeepsProposals(s.proposals, ProposalOf(c), recoveryMax);
    GrowKeepsResume(s.proposals, ProposalOf(c), s.job.resumeRequest);
    hide ProposalsOk, ResumeOk, LogOk, LeaseOk;
  }

  /** Revision numbers name positions. */
  lemma RevisionIsPosition(s: Rows, revision: int, recoveryMax: int)
    requires Inv(s, recoveryMax)
    ensures FindRevision(s.proposals, revision) == if 1 <= revision <= |s.proposals| then Some(revision - 1) else None
  {
    if 1 <= revision <= |s.proposals| { assert s.proposals[revision - 1].intent.revision == revision; }
  }

  /** A replay reads rows back and writes nothing. */
  lemma ReplayChangesNothing(s: Rows, c: Propose, allowCreate: bool, recoveryMax: int)
    requires Inv(s, recoveryMax)
    ensures var o := ReplayProposal(s, c, allowCreate); o.Committed? ==> o.rows == s
  {
  }

  lemma PrepareActionKeeps(s: Rows, c: Propose, recoveryMax: int)
    requires Inv(s, recoveryMax) && FreshRequest(s, c.request) && 0 <= recoveryMax
    ensures Inv(After(s, PrepareAction(s, c)), recoveryMax)
  {
    hide Inv, EventsAbout, ReplayProposal;
    RevisionIsPosition(s, c.revision, recoveryMax);
    ReplayChangesNothing(s, c, true, recoveryMax);
    var o := PrepareAction(s, c);
    if o.Committed? && ProposalIsNew(s, c) {
      GrowKeeps(s, c, recoveryMax);
      AppendKeeps(s.(proposals := s.proposals + [ProposalOf(c)]), ActionProposed(c.id, FactsOf(c)), recoveryMax);
    }
  }

  // ---- supersede_action -----------------------------------------------------

  lemma RetireKeeps(s: Rows, i: nat, recoveryMax: int)
    requires Inv(s, recoveryMax) && s.run.status == RunRunning
    requires i < |s.proposals| && s.proposals[i].request.Some? && s.proposals[i].request.value.status != Consumed
    requires s.proposals[i].intent.status in {Proposed, Authorized}
    ensures Inv(Retire(s, i), recoveryMax)
    ensures i == |s.proposals| - 1 && |Retire(s, i).proposals| == |s.proposals|
    ensures Retired(Newest(Retire(s, i).proposals)) && s.proposals[i].intent.revision == |s.proposals|
    ensures forall id :: FreshRequest(s, id) ==> FreshRequest(Retire(s, i), id)
  {
    hide OutsideOk, LogOk, ResumeOk, LeaseOk, JobOk, Progress, RunOk;
    BoundIsNewest(s, i, recoveryMax);
    var q := Retire(s, i).proposals[i];
    RewriteKeeps(s, i, q, recoveryMax);
    AppendKeeps(SetProposal(s, i, q), SupersededPayload(s.proposals[i]), recoveryMax);
    forall id | FreshRequest(s, id) ensures FreshRequest(Retire(s, i), id) {
      assert !HasRequest(s.proposals[i], id);
    }
  }

  lemma SupersedeActionKeeps(s: Rows, old_: IntentId, c: Propose, recoveryMax: int)
    requires Inv(s, recoveryMax) && FreshRequest(s, c.request) && 0 <= recoveryMax
    ensures Inv(After(s, SupersedeAction(s, old_, c)), recoveryMax)
  {
    hide Inv, EventsAbout, ReplayProposal, Retire, FreshRequest, FindRevision, FindIntent;
    var o, found := SupersedeAction(s, old_, c), FindIntent(s.proposals, old_);
    if o.Committed? {
      if s.proposals[found.value].intent.status == Cancelled {
        ReplayChangesNothing(s, c, false, recoveryMax);
      } else {
        var t := Retire(s, found.value);
        RetireKeeps(s, found.value, recoveryMax);
        RetireLocks(s, found.value, c);
        ReplayChangesNothing(t, c, true, recoveryMax);
        if ProposalIsNew(t, c) {
          GrowKeeps(t, c, recoveryMax);
          AppendKeeps(t.(proposals := t.proposals + [ProposalOf(c)]), ActionProposed(c.id, FactsOf(c)), recoveryMax);
        }
      }
    }
  }

  lemma RetireLocks(s: Rows, i: nat, c: Propose)
    requires i < |s.proposals| && s.proposals[i].request.Some?
    ensures LockApplicationRun(Retire(s, i), c) == LockApplicationRun(s, c)
  {
  }

  lemma CancelActionKeeps(s: Rows, tenant: Tenant, id: IntentId, request: RequestId, rejected: bool, recoveryMax: int)
    requires Inv(s, recoveryMax) && s.run.status != RunWaiting
    ensures Inv(After(s, CancelAction(s, tenant, id, request, rejected)), recoveryMax)
  {
    hide EventsAbout, OutsideOk, LogOk, ResumeOk, LeaseOk, JobOk, Progress, RunOk;
    var o, found := CancelAction(s, tenant, id, request, rejected), FindIntent(s.proposals, id);
    if o.Committed? && o.value {
      var q := o.rows.proposals[found.value];
      RewriteKeeps(s, found.value, q, recoveryMax);
      AppendKeeps(SetProposal(s, found.value, q),
                  ActionCancelledEvent(id, request, if rejected then ApprovalRejected else ApprovalExpired), recoveryMax);
    }
  }

  // ---- Decisions and expiry -------------------------------------------------

  /** A dormant run wakes with its newest request decided or expired. */
  lemma WakeKeeps(s: Rows, q: Proposal, job: Job, recoveryMax: int)
    requires Inv(s, recoveryMax) && s.run.status == RunWaiting
    requires s.proposals != [] && SameIdentity(Newest(s.proposals), q) && ProposalOk(q, recoveryMax)
    requires q.intent == Newest(s.proposals).intent && q.request.value.status in {Approved, Rejected, Expired}
    requires JobOk(job) && job.resumeRequest == Some(q.request.value.id)
    requires if s.job.status == JobDone then job.status == JobQueued && job.attempt == 0 else job == s.job
    ensures Inv(SetProposal(s, |s.proposals| - 1, q).(job := job), recoveryMax)
  {
    hide DecisionsOk, Recovery, LogOk, RunOk;
    var n := |s.proposals| - 1;
    UpdateKeepsProposals(s.proposals, n, q, recoveryMax);
    assert HasRequest(s.proposals[n := q][n], q.request.value.id);
  }

  lemma DecideApprovalKeeps(s: Rows, c: Decide, recoveryMax: int)
    requires Inv(s, recoveryMax)
    ensures Inv(After(s, DecideApproval(s, c)), recoveryMax)
  {
    hide OutsideOk, LogOk, ResumeOk, LeaseOk, Progress, RunOk, ActionsOk;
    var o, found := DecideApproval(s, c), FindIntent(s.proposals, c.intent);
    if o.Committed? && o.rows != s {
      BoundIsNewest(s, found.value, recoveryMax);
      var q := o.rows.proposals[found.value];
      WakeKeeps(s, q, o.rows.job, recoveryMax);
      AppendKeeps(SetProposal(s, found.value, q).(job := o.rows.job),
                  ApprovalDecided(c.intent, q.request.value.id, c.verdict, q.request.value.version), recoveryMax);
    }
  }

  lemma SweepRequestKeeps(s: Rows, i: nat, now: Time, recoveryMax: int)
    requires Inv(s, recoveryMax) && i < |s.proposals|
    ensures SweepRequest(s, i, now).Committed?
    ensures Inv(SweepRequest(s, i, now).rows, recoveryMax)
  {
    hide OutsideOk, LogOk, ResumeOk, LeaseOk, Progress, RunOk, ActionsOk;
    var o := SweepRequest(s, i, now);
    if Due(s.proposals[i], now) && s.run.status == RunWaiting {
      BoundIsNewest(s, i, recoveryMax);
      var q := o.rows.proposals[i];
      WakeKeeps(s, q, o.rows.job, recoveryMax);
      AppendKeeps(SetProposal(s, i, q).(job := o.rows.job),
                  ApprovalExpiredEvent(q.intent.id, q.request.value.id, q.intent.revision, NaturalExpiry), recoveryMax);
    }
  }

  // ---- Which guards are dead ------------------------------------------------

  lemma ApprovalGuards(s: Rows, c: Decide, memberCurrent: bool, intent: IntentId, request: RequestId, recoveryMax: int)
    requires Inv(s, recoveryMax)
    ensures Unbroken(DecideApproval(s, c))
    ensures
      var found, o := FindIntent(s.proposals, intent), ResolveResume(s, memberCurrent, intent, request);
      Unbroken(o) <==> !memberCurrent || found.None? || HasRequest(s.proposals[found.value], request)
  {
  }
}
