/** What proposing, superseding and cancelling an action do to the rows of a reachable run: when each
    commits, which of them writes, and the rows and events it leaves. */
module ActionEffects {
  import opened Options
  import opened Rows
  import opened Actions
  import opened ActionExecution
  import opened Invariant
  import opened ExecutionProofs
  import opened ActionProofs
  import opened Replays
  import opened Effects

  /** The command comes from the run's creator, still a member in the right role, for a running run, and
      its identities are consistent with what the store can see of other runs. */
  predicate MayPropose(s: Rows, c: Propose)
  {
    && c.tenant == Creator(true) && s.memberActive && c.keyMatches && c.resumeMatches && !c.idElsewhere
    && s.run.mode == Application && s.run.status == RunRunning && s.run.graphVersion == CURRENT_GRAPH_VERSION
  }

  /** A proposal as it is inserted: open, undecided, never called. */
  function Opened(c: Propose): Proposal
  {
    Proposal(Intent(c.id, c.revision, c.args, IntentStatus.Proposed, 0, false, None),
             Some(Request(c.request, Pending, Binding(c.id, c.revision, c.args), 1, c.expiresAt, None)), [], None)
  }

  /** The proposal on record is the one that the command asks for. */
  predicate IsAskedFor(p: Proposal, c: Propose)
  {
    && p.intent.id == c.id && p.intent.args == c.args
    && p.request.Some? && p.request.value.expiresAt == c.expiresAt
  }

  /** The first proposal of a run is inserted, and the same command later finds it; nothing else commits. */
  lemma ProposalIsMade(s: Rows, c: Propose, recoveryMax: int)
    requires Inv(s, recoveryMax) && TopicsOk(s.proposals, s.events)
    ensures
      var o := PrepareAction(s, c);
      && (o.Committed? <==>
            && MayPropose(s, c) && c.revision == 1
            && (s.proposals == [] || IsAskedFor(s.proposals[0], c)))
      && (o.Committed? && s.proposals == [] ==>
            && o.value == c.request
            && Becomes(s, o.rows, s.(proposals := [Opened(c)]),
                       [ActionProposed(c.id, Binding(c.id, c.revision, c.args))]))
      && (o.Committed? && s.proposals != [] ==>
            o.rows == s && s.proposals[0].request.Some? && o.value == s.proposals[0].request.value.id)
  {
    hide Inv, EventsAbout;
    InvHasRevisions(s, recoveryMax);
    InvHasProposals(s, recoveryMax);
    RevisionIsPosition(s, c.revision, recoveryMax);
    if s.proposals != [] {
      assert TopicOk(s.proposals[0], s.events) && ProposalOk(s.proposals[0], recoveryMax);
      if s.proposals[0].intent.id == c.id { FoundIsUnique(s.proposals, c.id, 0); }
      assert SetProposal(s, 0, s.proposals[0]).proposals == s.proposals;
    }
  }

  /** The proposal after a newer one took its place: an open approval expires with it. */
  function Superseded(p: Proposal): Proposal
    requires p.request.Some?
  {
    var r := p.request.value;
    p.(intent := p.intent.(status := Cancelled),
       request := Some(if r.status == Pending || r.status == Approved
                       then Request(r.id, Expired, r.binding, r.version + 1, r.expiresAt, None) else r))
  }

  /** A supersession replaces the newest proposal while that is unconsumed and uncancelled, by a new one
      with the next revision; the same command later finds the successor; nothing else commits. */
  lemma ProposalIsReplaced(s: Rows, old_: IntentId, i: nat, c: Propose, recoveryMax: int)
    requires Inv(s, recoveryMax) && TopicsOk(s.proposals, s.events)
    requires i < |s.proposals| && s.proposals[i].intent.id == old_
    ensures
      var p, n, o := s.proposals[i], |s.proposals| - 1, SupersedeAction(s, old_, c);
      var last := i == n && p.intent.status == IntentStatus.Proposed;
      && p.request.Some?
      && (o.Committed? <==>
            && MayPropose(s, c) && c.revision == i + 2
            && if last then forall j :: 0 <= j <= n ==> s.proposals[j].intent.id != c.id
               else i < n && IsAskedFor(s.proposals[i + 1], c))
      && (o.Committed? && last ==>
            var r := p.request.value;
            && o.value == c.request
            && Becomes(s, o.rows, s.(proposals := s.proposals[n := Superseded(p)] + [Opened(c)]),
                 (if r.status == Pending || r.status == Approved
                  then [ApprovalExpiredEvent(old_, r.id, p.intent.revision, ExpiryReason.Superseded)] else [])
                 + [ActionProposed(c.id, Binding(c.id, c.revision, c.args))]))
      && (o.Committed? && !last ==>
            o.rows == s && s.proposals[i + 1].request.Some? && o.value == s.proposals[i + 1].request.value.id)
  {
    hide Inv, EventsAbout, InsertProposal, Retire, Becomes, TopicOk, ProposalOk, Retired;
    InvHasRevisions(s, recoveryMax);
    FoundIsUnique(s.proposals, old_, i);
    ReplacedIsOk(s, i, recoveryMax);
    if i < |s.proposals| - 1 {
      SuccessorIsFound(s, i, c, recoveryMax);
    } else if s.proposals[i].intent.status == Cancelled && c.revision == i + 2 {
      NothingToFind(s, c, recoveryMax);
    } else if s.run.status == RunRunning && s.proposals[i].intent.status == IntentStatus.Proposed
              && c.revision == i + 2 {
      ReplacementIsInserted(s, i, c, recoveryMax);
    }
  }

  lemma ReplacedIsOk(s: Rows, i: nat, recoveryMax: int)
    requires Inv(s, recoveryMax) && TopicsOk(s.proposals, s.events) && i < |s.proposals|
    ensures
      var p := s.proposals[i];
      var seen := EventsAbout(s.events, p.intent.id, AboutSupersession);
      && p.request.Some? && p.intent.revision == i + 1
      && (i < |s.proposals| - 1 ==>
            p.intent.status == Cancelled && p.request.value.status in {Rejected, Expired})
      && (p.intent.status == Cancelled ==> p.request.value.status in {Rejected, Expired, Consumed})
      && (p.intent.status == Authorized ==> p.request.value.status == Consumed)
      && (p.intent.status == IntentStatus.Proposed ==> p.request.value.status != Consumed)
      && (seen != [] ==> seen == [SupersededPayload(p)] && p.request.value.status == Expired)
  {
    InvHasProposals(s, recoveryMax);
    hide Inv, EventsAbout;
    assert ProposalOk(s.proposals[i], recoveryMax) && TopicOk(s.proposals[i], s.events);
    assert i < |s.proposals| - 1 ==> Retired(s.proposals[i]);
  }

  lemma SuccessorIsFound(s: Rows, i: nat, c: Propose, recoveryMax: int)
    requires Inv(s, recoveryMax) && TopicsOk(s.proposals, s.events) && i + 1 < |s.proposals|
    ensures
      var q, o := s.proposals[i + 1], InsertProposal(s, c, false);
      && q.request.Some?
      && (c.revision == i + 2 ==>
            if !c.idElsewhere && IsAskedFor(q, c) then o == Committed(s, q.request.value.id) else o.Raised?)
  {
    hide Inv, EventsAbout;
    InvHasRevisions(s, recoveryMax);
    InvHasProposals(s, recoveryMax);
    RevisionIsPosition(s, c.revision, recoveryMax);
    var q := s.proposals[i + 1];
    assert TopicOk(q, s.events) && ProposalOk(q, recoveryMax);
    if q.intent.id == c.id { FoundIsUnique(s.proposals, c.id, i + 1); }
    assert SetProposal(s, i + 1, q).proposals == s.proposals;
  }

  lemma NothingToFind(s: Rows, c: Propose, recoveryMax: int)
    requires Inv(s, recoveryMax) && c.revision == |s.proposals| + 1
    ensures InsertProposal(s, c, false).Raised?
  {
    hide Inv, EventsAbout;
    InvHasRevisions(s, recoveryMax);
    RevisionIsPosition(s, c.revision, recoveryMax);
  }

  lemma ReplacementIsInserted(s: Rows, i: nat, c: Propose, recoveryMax: int)
    requires Inv(s, recoveryMax) && TopicsOk(s.proposals, s.events) && s.run.status == RunRunning
    requires i == |s.proposals| - 1 && s.proposals[i].intent.status == IntentStatus.Proposed
    requires s.proposals[i].request.Some? && c.revision == i + 2
    ensures
      var p, o := s.proposals[i], InsertProposal(Retire(s, i), c, true);
      var r := p.request.value;
      && (o.Committed? <==>
            !c.idElsewhere && forall j :: 0 <= j < |s.proposals| ==> s.proposals[j].intent.id != c.id)
      && (o.Committed? ==>
            && o.value == c.request
            && Becomes(s, o.rows, s.(proposals := s.proposals[i := Superseded(p)] + [Opened(c)]),
                 (if r.status == Pending || r.status == Approved
                  then [ApprovalExpiredEvent(p.intent.id, r.id, p.intent.revision, ExpiryReason.Superseded)] else [])
                 + [ActionProposed(c.id, Binding(c.id, c.revision, c.args))]))
  {
    hide Inv, EventsAbout, TopicOk, TopicsOk, ProposalsOk, InsertProposal, Retire, Becomes;
    var t := Retire(s, i);
    InvHasRevisions(s, recoveryMax);
    ReplacedIsOk(s, i, recoveryMax);
    RetireKeeps(s, i, recoveryMax);
    RetireKeepsTopics(s, i);
    RetireWrites(s, i);
    InsertWrites(t, c, recoveryMax);
    assert forall j :: 0 <= j < |s.proposals| ==> t.proposals[j].intent.id == s.proposals[j].intent.id;
    var o := InsertProposal(t, c, true);
    if o.Committed? {
      var r := s.proposals[i].request.value;
      BecomesThen(s, t, o.rows, t.proposals, t.proposals + [Opened(c)],
        if r.status == Pending || r.status == Approved
        then [ApprovalExpiredEvent(s.proposals[i].intent.id, r.id, s.proposals[i].intent.revision,
                                   ExpiryReason.Superseded)] else [],
        [ActionProposed(c.id, Binding(c.id, c.revision, c.args))]);
    }
  }

  lemma RetireWrites(s: Rows, i: nat)
    requires i < |s.proposals| && s.proposals[i].request.Some?
    ensures Retire(s, i).proposals == s.proposals[i := Superseded(s.proposals[i])]
    ensures
      var p, t := s.proposals[i], Retire(s, i);
      var r := p.request.value;
      Becomes(s, t, s.(proposals := s.proposals[i := Superseded(p)]),
              if r.status == Pending || r.status == Approved
              then [ApprovalExpiredEvent(p.intent.id, r.id, p.intent.revision, ExpiryReason.Superseded)] else [])
  {
  }

  lemma InsertWrites(s: Rows, c: Propose, recoveryMax: int)
    requires Inv(s, recoveryMax) && TopicsOk(s.proposals, s.events) && c.revision == |s.proposals| + 1
    ensures
      var o := InsertProposal(s, c, true);
      && (o.Committed? <==>
            !c.idElsewhere && forall j :: 0 <= j < |s.proposals| ==> s.proposals[j].intent.id != c.id)
      && (o.Committed? ==>
            && o.value == c.request
            && Becomes(s, o.rows, s.(proposals := s.proposals + [Opened(c)]),
                       [ActionProposed(c.id, Binding(c.id, c.revision, c.args))]))
  {
    hide Inv, EventsAbout, TopicOk;
    InvHasRevisions(s, recoveryMax);
    RevisionIsPosition(s, c.revision, recoveryMax);
  }

  lemma BecomesThen(s: Rows, t: Rows, u: Rows, ps: seq<Proposal>, qs: seq<Proposal>, xs: seq<EventKind>,
                    ys: seq<EventKind>)
    requires Becomes(s, t, s.(proposals := ps), xs) && Becomes(t, u, t.(proposals := qs), ys)
    ensures Becomes(s, u, s.(proposals := qs), xs + ys)
  {
    assert u.events[..|s.events|] == u.events[..|t.events|][..|s.events|];
    forall j | 0 <= j < |xs + ys|
      ensures u.events[|s.events| + j] == Event(s.run.nextEventSeq + j, (xs + ys)[j])
    {
      if j < |xs| {
        assert u.events[..|t.events|][|s.events| + j] == t.events[|s.events| + j];
      } else {
        assert u.events[|t.events| + (j - |xs|)] == Event(t.run.nextEventSeq + (j - |xs|), ys[j - |xs|]);
      }
    }
  }

  /** An action is cancelled for a rejected or expired approval while it is open; the repetition is told
      that nothing changed exactly if this cancellation is in the log; nothing else commits. */
  lemma ActionIsCancelled(s: Rows, tenant: Tenant, id: Identity, i: nat, rejected: bool, recoveryMax: int)
    requires Inv(s, recoveryMax) && TopicsOk(s.proposals, s.events) && Names(s, id, i)
    ensures
      var p, o := s.proposals[i], CancelAction(s, tenant, id.intent, id.request, rejected);
      var why := if rejected then ApprovalRejected else ApprovalExpired;
      var payload := ActionCancelledEvent(id.intent, id.request, why);
      var current := if tenant.Other? then tenant.current else tenant.roleMatches && s.memberActive;
      var settled := p.request.value.status == if rejected then Rejected else Expired;
      && (o.Raised? && !o.fault.Broken? ==> o.fault == if current then Conflict else NotFound)
      && (o.Committed? <==>
            current && settled
            && (p.intent.status == IntentStatus.Proposed
                || (p.intent.status == Cancelled && Logged(s.events, payload))))
      && (o.Committed? && p.intent.status == IntentStatus.Proposed ==>
            && o.value
            && Becomes(s, o.rows, s.(proposals := s.proposals[i := p.(intent := p.intent.(status := Cancelled))]),
                       [payload]))
      && (o.Committed? && p.intent.status == Cancelled ==> !o.value && o.rows == s)
  {
    hide Inv, EventsAbout, FindIntent, Replays.Logged;
    var payload := ActionCancelledEvent(id.intent, id.request, if rejected then ApprovalRejected else ApprovalExpired);
    NamesIsBound(s, id, i, recoveryMax);
    LoggedIsListed(s.events, payload, id.intent, AboutCancellation);
    assert TopicOk(s.proposals[i], s.events);
  }

  // ---- Which refusal is given -----------------------------------------------

  /** The caller is the run's creator, still a member in the right role. */
  predicate IsCreator(s: Rows, t: Tenant) { t == Creator(true) && s.memberActive }

  predicate IsRunning(s: Rows)
  {
    s.run.mode == Application && s.run.status == RunRunning && s.run.graphVersion == CURRENT_GRAPH_VERSION
  }

  /** A command that is not a first proposal is a conflict whoever sends it; then nobody but the creator finds
      the run; then the run must be running.  Every other refusal is a consistency error. */
  lemma ProposalIsRefused(s: Rows, c: Propose, recoveryMax: int)
    requires Inv(s, recoveryMax)
    ensures
      var o := PrepareAction(s, c);
      && (o == Raised(Conflict) <==> !c.keyMatches || c.revision != 1 || (IsCreator(s, c.tenant) && !IsRunning(s)))
      && (o == Raised(NotFound) <==> c.keyMatches && c.revision == 1 && !IsCreator(s, c.tenant))
  {
    hide Inv, EventsAbout, FindIntent, FindRevision;
  }

  /** The same for a supersession: replacing a proposal by itself is a conflict; then nobody but the creator
      finds the run; then it must be running, the old proposal must exist, and the command must carry the
      next revision of one that was not consumed. */
  lemma ReplacementIsRefused(s: Rows, old_: IntentId, i: nat, c: Propose, recoveryMax: int)
    requires Inv(s, recoveryMax) && TopicsOk(s.proposals, s.events)
    requires i < |s.proposals| && s.proposals[i].intent.id == old_ && s.proposals[i].request.Some?
    ensures
      var r, o := s.proposals[i].request.value, SupersedeAction(s, old_, c);
      && (o == Raised(NotFound) <==> old_ != c.id && !IsCreator(s, c.tenant))
      && (o == Raised(Conflict) <==>
            || old_ == c.id
            || (IsCreator(s, c.tenant)
                && (!IsRunning(s)
                    || (c.resumeMatches && (!c.keyMatches || c.revision != i + 2 || r.status == Consumed)))))
  {
    hide Inv, EventsAbout, InsertProposal, Retire, TopicOk, ProposalOk, Retired;
    InvHasRevisions(s, recoveryMax);
    FoundIsUnique(s.proposals, old_, i);
    ReplacedIsOk(s, i, recoveryMax);
    ActedIsConsumed(s, i, recoveryMax);
    InsertNeverConflicts(s, c, false);
    InsertNeverConflicts(Retire(s, i), c, true);
  }

  lemma InsertNeverConflicts(s: Rows, c: Propose, allowCreate: bool)
    ensures var o := InsertProposal(s, c, allowCreate); o.Raised? ==> o.fault.Broken?
  {
    hide EventsAbout, FindIntent, FindRevision;
  }

  lemma ActedIsConsumed(s: Rows, i: nat, recoveryMax: int)
    requires Inv(s, recoveryMax) && i < |s.proposals|
    ensures s.proposals[i].request.Some?
    ensures
      s.proposals[i].intent.status !in {IntentStatus.Proposed, Cancelled} ==>
        s.proposals[i].request.value.status == Consumed
  {
    assert ProposalOk(s.proposals[i], recoveryMax);
  }

  lemma NothingToReplace(s: Rows, old_: IntentId, c: Propose)
    requires forall i :: 0 <= i < |s.proposals| ==> s.proposals[i].intent.id != old_
    ensures
      var o := SupersedeAction(s, old_, c);
      && (o == Raised(NotFound) <==>
            old_ != c.id && (!IsCreator(s, c.tenant) || (IsRunning(s) && c.resumeMatches)))
      && (o == Raised(Conflict) <==> old_ == c.id || (IsCreator(s, c.tenant) && !IsRunning(s)))
  {
    hide EventsAbout, InsertProposal;
  }

  lemma NothingToCancel(s: Rows, tenant: Tenant, id: Identity, rejected: bool)
    requires forall i: nat :: !Names(s, id, i)
    ensures CancelAction(s, tenant, id.intent, id.request, rejected) == Raised(NotFound)
  {
    hide EventsAbout;
    var found := FindIntent(s.proposals, id.intent);
    if found.Some? { assert !Names(s, id, found.value); }
  }
}
