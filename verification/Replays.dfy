/** Replayed commands of actions.py: the event log records each proposal, supersession and
    cancellation once, so a repeated command answers as before and writes nothing. */
module Replays {
  import opened Options
  import opened Rows
  import opened Actions
  import opened ActionExecution
  import opened Jobs
  import opened Invariant
  import opened ExecutionProofs
  import opened JobProofs
  import opened ActionProofs
  import opened Protocol
  import opened Evolution

  /** What the log says about one proposal. */
  predicate TopicOk(p: Proposal, events: seq<Event>)
  {
    && p.request.Some?
    && EventsAbout(events, p.intent.id, AboutProposal) == [ActionProposed(p.intent.id, BindingOf(p.intent))]
    && (var superseded := EventsAbout(events, p.intent.id, AboutSupersession);
        superseded != [] ==>
          superseded == [SupersededPayload(p)] && p.intent.status == Cancelled && p.request.value.status == Expired)
    && (var cancelled := EventsAbout(events, p.intent.id, AboutCancellation);
        cancelled != [] ==> |cancelled| == 1 && p.intent.status == Cancelled)
  }

  ghost predicate TopicsOk(ps: seq<Proposal>, events: seq<Event>)
  {
    && (forall i :: 0 <= i < |ps| ==> TopicOk(ps[i], events))
    && (forall id, t :: FindIntent(ps, id).None? ==> EventsAbout(events, id, t) == [])
  }

  // ---- The log under appends ------------------------------------------------

  lemma {:induction false} EventsAboutSuffix(events: seq<Event>, more: seq<Event>, id: IntentId, t: Topic)
    ensures EventsAbout(events, id, t) <= EventsAbout(events + more, id, t)
    ensures (forall e :: e in more ==> !Concerns(e.kind, id, t)) ==>
              EventsAbout(events + more, id, t) == EventsAbout(events, id, t)
  {
    if more == [] {
      assert events + more == events;
    } else {
      EventsAboutSuffix(events, more[..|more| - 1], id, t);
      assert (events + more)[..|events + more| - 1] == events + more[..|more| - 1];
      assert more[|more| - 1] in more;
    }
  }

  lemma EventsAboutNext(events: seq<Event>, e: Event, id: IntentId, t: Topic)
    ensures EventsAbout(events + [e], id, t) ==
              EventsAbout(events, id, t) + (if Concerns(e.kind, id, t) then [e.kind] else [])
  {
    assert (events + [e])[..|events|] == events;
  }

  lemma QuietLog(events: seq<Event>, later: seq<Event>, id: IntentId, t: Topic)
    requires events <= later && forall j :: |events| <= j < |later| ==> !Topical(later[j].kind)
    ensures EventsAbout(later, id, t) == EventsAbout(events, id, t)
  {
    assert later == events + later[|events|..];
    EventsAboutSuffix(events, later[|events|..], id, t);
  }

  lemma StillUnknown(ps: seq<Proposal>, qs: seq<Proposal>, id: IntentId)
    requires |ps| <= |qs| && forall i :: 0 <= i < |ps| ==> qs[i].intent.id == ps[i].intent.id
    requires FindIntent(qs, id).None?
    ensures FindIntent(ps, id).None?
  {
  }

  lemma QuietKeepsTopics(s: Rows, t: Rows)
    requires TopicsOk(s.proposals, s.events) && Later(s, t) && Quiet(s, t)
    ensures TopicsOk(t.proposals, t.events)
  {
    forall id, about ensures EventsAbout(t.events, id, about) == EventsAbout(s.events, id, about) {
      QuietLog(s.events, t.events, id, about);
    }
    hide EventsAbout, Concerns;
    forall i | 0 <= i < |t.proposals| ensures TopicOk(t.proposals[i], t.events) {
      assert Evolves(s.proposals[i], t.proposals[i]) && TopicOk(s.proposals[i], s.events);
    }
    forall id, about | FindIntent(t.proposals, id).None? ensures EventsAbout(t.events, id, about) == [] {
      StillUnknown(s.proposals, t.proposals, id);
    }
  }

  /** An event about the group at `i` next to the rewrite of that group. */
  lemma TopicalKeeps(ps: seq<Proposal>, events: seq<Event>, i: nat, q: Proposal, e: Event)
    requires TopicsOk(ps, events) && i < |ps| && Revisions(ps)
    requires q.intent.id == ps[i].intent.id && forall id, t :: id != q.intent.id ==> !Concerns(e.kind, id, t)
    requires TopicOk(q, events + [e])
    ensures TopicsOk(ps[i := q], events + [e])
  {
    var qs := ps[i := q];
    forall id, t | id != q.intent.id ensures EventsAbout(events + [e], id, t) == EventsAbout(events, id, t) {
      EventsAboutNext(events, e, id, t);
    }
    hide EventsAbout, Concerns;
    forall j | 0 <= j < |qs| ensures TopicOk(qs[j], events + [e]) {
      assert j != i ==> qs[j].intent.id != q.intent.id && TopicOk(ps[j], events);
    }
    forall id, t | FindIntent(qs, id).None? ensures EventsAbout(events + [e], id, t) == [] {
      assert qs[i].intent.id == q.intent.id;
      StillUnknown(ps, qs, id);
    }
  }

  lemma GrowKeepsTopics(ps: seq<Proposal>, events: seq<Event>, c: Propose, seqno: int)
    requires TopicsOk(ps, events) && FindIntent(ps, c.id).None?
    ensures TopicsOk(ps + [ProposalOf(c)], events + [Event(seqno, ActionProposed(c.id, FactsOf(c)))])
  {
    var e := Event(seqno, ActionProposed(c.id, FactsOf(c)));
    var qs := ps + [ProposalOf(c)];
    forall id, t ensures EventsAbout(events + [e], id, t) ==
      EventsAbout(events, id, t) + (if id == c.id && t == AboutProposal then [e.kind] else []) {
      EventsAboutNext(events, e, id, t);
    }
    hide EventsAbout, Concerns;
    forall i | 0 <= i < |qs| ensures TopicOk(qs[i], events + [e]) {
      assert i < |ps| ==> qs[i].intent.id != c.id && TopicOk(ps[i], events);
    }
    forall id, t | FindIntent(qs, id).None? ensures EventsAbout(events + [e], id, t) == [] {
      assert qs[|ps|].intent.id == c.id;
      StillUnknown(ps, qs, id);
    }
  }

  lemma RewriteKeepsTopics(ps: seq<Proposal>, events: seq<Event>, i: nat, q: Proposal)
    requires TopicsOk(ps, events) && i < |ps| && q.intent.id == ps[i].intent.id && TopicOk(q, events)
    ensures TopicsOk(ps[i := q], events)
  {
    hide TopicOk, EventsAbout;
    forall id, t | FindIntent(ps[i := q], id).None? ensures EventsAbout(events, id, t) == [] {
      StillUnknown(ps, ps[i := q], id);
    }
  }

  // ---- The steps that write topical events ----------------------------------

  lemma InsertKeepsTopics(s: Rows, c: Propose, allowCreate: bool, recoveryMax: int)
    requires Inv(s, recoveryMax) && TopicsOk(s.proposals, s.events)
    ensures
      var o := InsertProposal(s, c, allowCreate);
      o.Committed? ==> TopicsOk(o.rows.proposals, o.rows.events)
  {
    hide Inv, TopicsOk, EventsAbout, ReplayProposal;
    ReplayChangesNothing(s, c, allowCreate, recoveryMax);
    if ProposalIsNew(s, c) { GrowKeepsTopics(s.proposals, s.events, c, s.run.nextEventSeq); }
  }

  lemma RetireKeepsTopics(s: Rows, i: nat)
    requires TopicsOk(s.proposals, s.events) && i < |s.proposals| && Revisions(s.proposals)
    requires s.proposals[i].intent.status in {Proposed, Authorized}
    requires s.proposals[i].request.value.status != Consumed
    ensures TopicsOk(Retire(s, i).proposals, Retire(s, i).events)
  {
    var t, p := Retire(s, i), s.proposals[i];
    var e := Event(s.run.nextEventSeq, SupersededPayload(p));
    forall id, about ensures EventsAbout(s.events + [e], id, about) ==
      EventsAbout(s.events, id, about) + (if id == p.intent.id && about == AboutSupersession then [e.kind] else []) {
      EventsAboutNext(s.events, e, id, about);
    }
    hide EventsAbout;
    assert TopicOk(p, s.events);
    if p.request.value.status in {Pending, Approved} {
      TopicalKeeps(s.proposals, s.events, i, t.proposals[i], e);
    } else {
      RewriteKeepsTopics(s.proposals, s.events, i, t.proposals[i]);
    }
  }

  lemma SupersedeKeepsTopics(s: Rows, old_: IntentId, c: Propose, recoveryMax: int)
    requires Inv(s, recoveryMax) && TopicsOk(s.proposals, s.events)
    ensures var o := SupersedeAction(s, old_, c); o.Committed? ==> TopicsOk(o.rows.proposals, o.rows.events)
  {
    hide Inv, TopicsOk, EventsAbout, InsertProposal, Retire, FindIntent, ProposalOk;
    var o, found := SupersedeAction(s, old_, c), FindIntent(s.proposals, old_);
    if o.Committed? {
      if s.proposals[found.value].intent.status == Cancelled {
        InsertKeepsTopics(s, c, false, recoveryMax);
      } else {
        assert Revisions(s.proposals) by { InvHasRevisions(s, recoveryMax); }
        RetireKeeps(s, found.value, recoveryMax);
        RetireKeepsTopics(s, found.value);
        InsertKeepsTopics(Retire(s, found.value), c, true, recoveryMax);
      }
    }
  }

  lemma InvHasRevisions(s: Rows, recoveryMax: int)
    requires Inv(s, recoveryMax)
    ensures Revisions(s.proposals)
  {
  }

  /** A cancellation of the group at `i`, recorded by its own event. */
  lemma CancellationKeeps(s: Rows, i: nat, q: Proposal, payload: EventKind)
    requires TopicsOk(s.proposals, s.events) && Revisions(s.proposals) && i < |s.proposals|
    requires SameIdentity(s.proposals[i], q) && q.intent.status == Cancelled
    requires s.proposals[i].intent.status != Cancelled
    requires payload.ActionCancelledEvent? && payload.intent == q.intent.id
    ensures TopicsOk(s.proposals[i := q], s.events + [Event(s.run.nextEventSeq, payload)])
  {
    var p, e := s.proposals[i], Event(s.run.nextEventSeq, payload);
    forall id, about ensures EventsAbout(s.events + [e], id, about) ==
      EventsAbout(s.events, id, about) + (if id == p.intent.id && about == AboutCancellation then [e.kind] else []) {
      EventsAboutNext(s.events, e, id, about);
    }
    hide EventsAbout;
    assert TopicOk(p, s.events);
    TopicalKeeps(s.proposals, s.events, i, q, e);
  }

  lemma CancelActionKeepsTopics(s: Rows, tenant: Tenant, id: IntentId, request: RequestId, rejected: bool)
    requires TopicsOk(s.proposals, s.events) && Revisions(s.proposals)
    ensures
      var o := CancelAction(s, tenant, id, request, rejected);
      o.Committed? ==> TopicsOk(o.rows.proposals, o.rows.events)
  {
    hide TopicsOk, EventsAbout;
    var o, found := CancelAction(s, tenant, id, request, rejected), FindIntent(s.proposals, id);
    if o.Committed? && o.value {
      CancellationKeeps(s, found.value, o.rows.proposals[found.value],
                        ActionCancelledEvent(id, request, if rejected then ApprovalRejected else ApprovalExpired));
    }
  }

  lemma PlainEventKeepsTopics(ps: seq<Proposal>, events: seq<Event>, e: Event)
    requires TopicsOk(ps, events) && !Topical(e.kind)
    ensures TopicsOk(ps, events + [e])
  {
    forall id, about ensures EventsAbout(events + [e], id, about) == EventsAbout(events, id, about) {
      EventsAboutNext(events, e, id, about);
    }
    hide EventsAbout;
    forall i | 0 <= i < |ps| ensures TopicOk(ps[i], events + [e]) { assert TopicOk(ps[i], events); }
  }

  lemma CancelWaitingKeepsTopics(s: Rows, now: Time)
    requires TopicsOk(s.proposals, s.events) && Revisions(s.proposals)
    ensures var o := CancelWaiting(s, now); o.Committed? ==> TopicsOk(o.rows.proposals, o.rows.events)
  {
    hide TopicsOk, FirstWith;
    var o, active := CancelWaiting(s, now), FirstWith(s.proposals, {Proposed, Authorized});
    if o.Committed? {
      var i := active.value;
      var p, q := s.proposals[i], o.rows.proposals[i];
      var r := p.request.value;
      var s1 := if r.status in {Pending, Approved} then
        Append(s, ApprovalExpiredEvent(p.intent.id, r.id, p.intent.revision, ExpiredByUser)) else s;
      if s1 != s { PlainEventKeepsTopics(s.proposals, s.events, s1.events[|s.events|]); }
      CancellationKeeps(s1, i, q, ActionCancelledEvent(p.intent.id, r.id, CancelledByUser));
      var s2 := Append(SetProposal(s1, i, q), ActionCancelledEvent(p.intent.id, r.id, CancelledByUser));
      PlainEventKeepsTopics(s2.proposals, s2.events,
                            Event(s2.run.nextEventSeq, RunCancelledEvent(RunWaiting, UserRequested)));
    }
  }

  lemma CancelRunKeepsTopics(s: Rows, authorized: bool, now: Time)
    requires TopicsOk(s.proposals, s.events) && Revisions(s.proposals)
    ensures var o := CancelRunByUser(s, authorized, now); o.Committed? ==> TopicsOk(o.rows.proposals, o.rows.events)
  {
    hide TopicsOk, CancelWaiting;
    CancelWaitingKeepsTopics(s, now);
    if s.run.status == RunQueued {
      PlainEventKeepsTopics(s.proposals, s.events,
                            Event(s.run.nextEventSeq, RunCancelledEvent(RunQueued, UserRequested)));
    }
  }

  /** Every step keeps the log's record of each proposal exact. */
  lemma StepKeepsTopics(s: Rows, step: Step, recoveryMax: int)
    requires Inv(s, recoveryMax) && TopicsOk(s.proposals, s.events)
    ensures var t := Next(s, step, recoveryMax); TopicsOk(t.proposals, t.events)
  {
    hide Inv, TopicsOk, Later, Quiet, PrepareAction, SupersedeAction, CancelAction, CancelRunByUser;
    InvHasRevisions(s, recoveryMax);
    StepIsLater(s, step, recoveryMax);
    match step
    case DoPrepareAction(c) => PrepareKeepsTopics(s, c, recoveryMax);
    case DoSupersede(old_, c) => SupersedeKeepsTopics(s, old_, c, recoveryMax);
    case DoCancelAction(t, i, r, rejected) => CancelActionKeepsTopics(s, t, i, r, rejected);
    case DoCancelRun(authorized, now) => CancelRunKeepsTopics(s, authorized, now);
    case _ => QuietKeepsTopics(s, Next(s, step, recoveryMax));
  }

  lemma PrepareKeepsTopics(s: Rows, c: Propose, recoveryMax: int)
    requires Inv(s, recoveryMax) && TopicsOk(s.proposals, s.events)
    ensures var o := PrepareAction(s, c); o.Committed? ==> TopicsOk(o.rows.proposals, o.rows.events)
  {
    hide Inv, TopicsOk, InsertProposal;
    InsertKeepsTopics(s, c, true, recoveryMax);
  }

  lemma {:induction false} TraceKeepsTopics(states: seq<Rows>, steps: seq<Step>, recoveryMax: int, n: nat)
    requires Trace(states, steps, recoveryMax) && n < |states|
    ensures TopicsOk(states[n].proposals, states[n].events)
  {
    hide Inv, Driven, Next;
    if n == 0 {
      forall id, t ensures EventsAbout(states[0].events, id, t) == [] {
        EventsAboutNext([], Event(1, RunCreatedEvent), id, t);
        assert states[0].events == [] + [Event(1, RunCreatedEvent)];
      }
    } else {
      TraceKeepsTopics(states, steps, recoveryMax, n - 1);
      TraceIsGood(states, steps, recoveryMax, n - 1);
      assert states[n - 1 + 1] == Next(states[n - 1], steps[n - 1], recoveryMax);
      StepKeepsTopics(states[n - 1], steps[n - 1], recoveryMax);
    }
  }

  // ---- Replayed commands ----------------------------------------------------

  /** A later call of the same command: only its caller's membership, the fresh identity it
      draws and the moment may differ. */
  predicate Repeats(c: Propose, again: Propose)
  {
    again.id == c.id && again.revision == c.revision && again.args == c.args && again.expiresAt == c.expiresAt
    && again.keyMatches == c.keyMatches && !again.idElsewhere
  }

  /** The proposal of this command is on record with request `r`. */
  ghost predicate Recorded(ps: seq<Proposal>, c: Propose, r: RequestId)
  {
    exists i :: 0 <= i < |ps| && IntentMatches(ps[i].intent, c) && HasRequest(ps[i], r)
                && RequestMatches(ps[i].request.value, c)
  }

  lemma RecordStays(s: Rows, t: Rows, c: Propose, again: Propose, r: RequestId)
    requires Later(s, t) && Recorded(s.proposals, c, r) && Repeats(c, again)
    ensures Recorded(t.proposals, again, r)
  {
    var i :| 0 <= i < |s.proposals| && IntentMatches(s.proposals[i].intent, c) && HasRequest(s.proposals[i], r)
          && RequestMatches(s.proposals[i].request.value, c);
    assert Evolves(s.proposals[i], t.proposals[i]);
    assert IntentMatches(t.proposals[i].intent, again);
  }

  lemma InsertRecords(s: Rows, c: Propose, allowCreate: bool, recoveryMax: int)
    requires Inv(s, recoveryMax)
    ensures var o := InsertProposal(s, c, allowCreate); o.Committed? ==> Recorded(o.rows.proposals, c, o.value)
  {
    hide Inv, EventsAbout;
    InvHasRevisions(s, recoveryMax);
    var o := InsertProposal(s, c, allowCreate);
    if o.Committed? {
      if allowCreate && ProposalIsNew(s, c) {
        assert IntentMatches(o.rows.proposals[|s.proposals|].intent, c);
      } else {
        var i := FindIntent(s.proposals, c.id).value;
        assert IntentMatches(o.rows.proposals[i].intent, c);
      }
    }
  }

  /** A recorded proposal is read back unchanged. */
  lemma RecordAnswers(s: Rows, c: Propose, allowCreate: bool, r: RequestId, recoveryMax: int)
    requires Inv(s, recoveryMax) && TopicsOk(s.proposals, s.events)
    requires Recorded(s.proposals, c, r) && !c.idElsewhere
    ensures InsertProposal(s, c, allowCreate) == Committed(s, r)
  {
    hide Inv, EventsAbout;
    InvHasRevisions(s, recoveryMax);
    RevisionIsPosition(s, c.revision, recoveryMax);
    var i :| 0 <= i < |s.proposals| && IntentMatches(s.proposals[i].intent, c) && HasRequest(s.proposals[i], r)
          && RequestMatches(s.proposals[i].request.value, c);
    FoundIsUnique(s.proposals, c.id, i);
    assert TopicOk(s.proposals[i], s.events);
    assert SetProposal(s, i, s.proposals[i]).proposals == s.proposals;
  }

  /** `prepare_action` answers a repeated command, at any later time, with the request of
      the first call, and changes no row. */
  lemma PrepareReplays(s: Rows, t: Rows, c: Propose, again: Propose, recoveryMax: int)
    requires Inv(s, recoveryMax) && PrepareAction(s, c).Committed?
    requires Later(PrepareAction(s, c).rows, t) && Inv(t, recoveryMax) && TopicsOk(t.proposals, t.events)
    requires Repeats(c, again) && CurrentTenant(t, again.tenant) && LockApplicationRun(t, again).None?
    ensures PrepareAction(t, again) == Committed(t, PrepareAction(s, c).value)
  {
    hide Inv, TopicsOk, Later, InsertProposal, LockApplicationRun, Recorded;
    var o := PrepareAction(s, c);
    InsertRecords(s, c, true, recoveryMax);
    RecordStays(o.rows, t, c, again, o.value);
    RecordAnswers(t, again, true, o.value, recoveryMax);
  }

  /** The replaced proposal is cancelled for good without having been consumed. */
  predicate GaveWay(ps: seq<Proposal>, old_: IntentId, revision: int)
  {
    var found := FindIntent(ps, old_);
    found.Some? && ps[found.value].intent.revision + 1 == revision && Retired(ps[found.value])
  }

  lemma GivenWayStays(s: Rows, t: Rows, old_: IntentId, revision: int)
    requires Later(s, t) && Revisions(s.proposals) && Revisions(t.proposals) && GaveWay(s.proposals, old_, revision)
    requires forall i :: 0 <= i < |s.proposals| && Retired(s.proposals[i]) ==>
               s.proposals[i].request.value.status in {Rejected, Expired}
    ensures GaveWay(t.proposals, old_, revision)
  {
    var i := FindIntent(s.proposals, old_).value;
    assert Evolves(s.proposals[i], t.proposals[i]);
    FoundIsUnique(t.proposals, old_, i);
  }

  lemma RetiredIsClosed(s: Rows, recoveryMax: int)
    requires Inv(s, recoveryMax)
    ensures forall i :: 0 <= i < |s.proposals| && Retired(s.proposals[i]) ==>
              s.proposals[i].request.value.status in {Rejected, Expired}
  {
    forall i | 0 <= i < |s.proposals| && Retired(s.proposals[i])
      ensures s.proposals[i].request.value.status in {Rejected, Expired}
    {
      assert ProposalOk(s.proposals[i], recoveryMax);
    }
  }

  lemma InsertKeepsGivenWay(s: Rows, c: Propose, allowCreate: bool, old_: IntentId, recoveryMax: int)
    requires Inv(s, recoveryMax) && GaveWay(s.proposals, old_, c.revision)
    ensures
      var o := InsertProposal(s, c, allowCreate);
      o.Committed? ==> GaveWay(o.rows.proposals, old_, c.revision)
  {
    hide Inv, EventsAbout, ReplayProposal;
    ReplayChangesNothing(s, c, allowCreate, recoveryMax);
    var i := FindIntent(s.proposals, old_).value;
    FindPrefix(s.proposals, s.proposals + [ProposalOf(c)], old_);
  }

  lemma {:induction false} FindPrefix(ps: seq<Proposal>, qs: seq<Proposal>, id: IntentId, from: nat := 0)
    requires ps <= qs && from <= |ps| && FindIntent(ps, id, from).Some?
    ensures FindIntent(qs, id, from) == FindIntent(ps, id, from)
    decreases |ps| - from
  {
    if ps[from].intent.id != id { FindPrefix(ps, qs, id, from + 1); }
  }

  lemma SupersedeLeaves(s: Rows, old_: IntentId, c: Propose, recoveryMax: int)
    requires Inv(s, recoveryMax)
    ensures
      var o := SupersedeAction(s, old_, c);
      o.Committed? ==> Recorded(o.rows.proposals, c, o.value) && GaveWay(o.rows.proposals, old_, c.revision)
  {
    hide Inv, EventsAbout, InsertProposal, Recorded, Retire, LockApplicationRun;
    var o, found := SupersedeAction(s, old_, c), FindIntent(s.proposals, old_);
    if o.Committed? {
      if s.proposals[found.value].intent.status == Cancelled {
        InsertRecords(s, c, false, recoveryMax);
        InsertKeepsGivenWay(s, c, false, old_, recoveryMax);
      } else {
        var t := Retire(s, found.value);
        LockIsRunning(s, c);
        RetireKeeps(s, found.value, recoveryMax);
        InvHasRevisions(t, recoveryMax);
        RetiredInPlace(s, found.value);
        FoundIsUnique(t.proposals, old_, found.value);
        InsertRecords(t, c, true, recoveryMax);
        InsertKeepsGivenWay(t, c, true, old_, recoveryMax);
      }
    }
  }

  lemma LockIsRunning(s: Rows, c: Propose)
    requires LockApplicationRun(s, c).None?
    ensures s.run.status == RunRunning
  {
  }

  lemma RetiredInPlace(s: Rows, i: nat)
    requires i < |s.proposals| && s.proposals[i].request.Some? && s.proposals[i].request.value.status != Consumed
    ensures Retire(s, i).proposals[i].intent == s.proposals[i].intent.(status := Cancelled)
    ensures Retired(Retire(s, i).proposals[i])
  {
  }

  /** `supersede_action` answers a repeated command, at any later time, with the request of
      the first call, and changes no row. */
  lemma SupersedeReplays(s: Rows, t: Rows, old_: IntentId, c: Propose, again: Propose, recoveryMax: int)
    requires Inv(s, recoveryMax) && SupersedeAction(s, old_, c).Committed?
    requires Inv(SupersedeAction(s, old_, c).rows, recoveryMax)
    requires Later(SupersedeAction(s, old_, c).rows, t) && Inv(t, recoveryMax) && TopicsOk(t.proposals, t.events)
    requires Repeats(c, again) && CurrentTenant(t, again.tenant) && LockApplicationRun(t, again).None?
    ensures SupersedeAction(t, old_, again) == Committed(t, SupersedeAction(s, old_, c).value)
  {
    hide Inv, Later, InsertProposal, LockApplicationRun, Recorded, FindIntent, EventsAbout, Retire;
    var o := SupersedeAction(s, old_, c);
    SupersedeLeaves(s, old_, c, recoveryMax);
    RecordStays(o.rows, t, c, again, o.value);
    InvHasRevisions(o.rows, recoveryMax);
    InvHasRevisions(t, recoveryMax);
    RetiredIsClosed(o.rows, recoveryMax);
    RetiredIsClosed(t, recoveryMax);
    GivenWayStays(o.rows, t, old_, c.revision);
    RecordAnswers(t, again, false, o.value, recoveryMax);
    assert TopicOk(t.proposals[FindIntent(t.proposals, old_).value], t.events);
  }

  /** `cancel_action`, once it has cancelled, reports every repetition as already done. */
  lemma CancelReplays(s: Rows, t: Rows, tenant: Tenant, again: Tenant, id: IntentId, request: RequestId, rejected: bool,
                      recoveryMax: int)
    requires Inv(s, recoveryMax) && TopicsOk(s.proposals, s.events)
    requires CancelAction(s, tenant, id, request, rejected).Committed?
    requires Later(CancelAction(s, tenant, id, request, rejected).rows, t)
    requires Inv(t, recoveryMax) && TopicsOk(t.proposals, t.events) && CurrentTenant(t, again)
    ensures CancelAction(t, again, id, request, rejected) == Committed(t, false)
  {
    hide Inv, EventsAbout, ProposalOk;
    var u, found := CancelAction(s, tenant, id, request, rejected).rows, FindIntent(s.proposals, id);
    var i := found.value;
    var payload := ActionCancelledEvent(id, request, if rejected then ApprovalRejected else ApprovalExpired);
    InvHasRevisions(t, recoveryMax);
    assert TopicOk(s.proposals[i], s.events) && Evolves(u.proposals[i], t.proposals[i]);
    EventsAboutNext(s.events, Event(s.run.nextEventSeq, payload), id, AboutCancellation);
    assert EventsAbout(u.events, id, AboutCancellation) == [payload];
    EventsAboutSuffix(u.events, t.events[|u.events|..], id, AboutCancellation);
    assert u.events + t.events[|u.events|..] == t.events;
    FoundIsUnique(t.proposals, id, i);
    assert TopicOk(t.proposals[i], t.events);
  }

  // ---- Replays in whole runs ------------------------------------------------

  /** The step committed at `m`, and both invariants from then on. */
  lemma ReplayedLater(states: seq<Rows>, steps: seq<Step>, recoveryMax: int, m: nat, n: nat)
    requires Trace(states, steps, recoveryMax) && m < n < |states|
    ensures m < |steps| && Inv(states[m], recoveryMax) && TopicsOk(states[m].proposals, states[m].events)
    ensures Inv(states[m + 1], recoveryMax) && states[m + 1] == Next(states[m], steps[m], recoveryMax)
    ensures Later(states[m + 1], states[n])
    ensures Inv(states[n], recoveryMax) && TopicsOk(states[n].proposals, states[n].events)
  {
    hide Inv, TopicsOk, Later, Next, Driven, Initial;
    TraceIsGood(states, steps, recoveryMax, m);
    TraceIsGood(states, steps, recoveryMax, m + 1);
    TraceIsGood(states, steps, recoveryMax, n);
    TraceKeepsTopics(states, steps, recoveryMax, m);
    TraceKeepsTopics(states, steps, recoveryMax, n);
    TraceIsLater(states, steps, recoveryMax, m + 1, n);
    assert states[m + 1] == Next(states[m], steps[m], recoveryMax);
  }

  /** In every run, a proposal that was committed answers every repetition of a current caller, as long
      as the run runs, with the first request, and the repetition changes no row. */
  lemma ProposalsReplay(states: seq<Rows>, steps: seq<Step>, recoveryMax: int, m: nat, n: nat, again: Propose)
    requires Trace(states, steps, recoveryMax) && m < n < |states| && steps[m].DoPrepareAction?
    requires PrepareAction(states[m], steps[m].propose).Committed? && Repeats(steps[m].propose, again)
    requires CurrentTenant(states[n], again.tenant) && LockApplicationRun(states[n], again).None?
    ensures PrepareAction(states[n], again) == Committed(states[n], PrepareAction(states[m], steps[m].propose).value)
  {
    hide Inv, TopicsOk, Later, Trace, PrepareAction, Repeats, LockApplicationRun;
    ReplayedLater(states, steps, recoveryMax, m, n);
    PrepareReplays(states[m], states[n], steps[m].propose, again, recoveryMax);
  }

  /** The same for a supersession. */
  lemma SupersessionsReplay(states: seq<Rows>, steps: seq<Step>, recoveryMax: int, m: nat, n: nat, again: Propose)
    requires Trace(states, steps, recoveryMax) && m < n < |states| && steps[m].DoSupersede?
    requires SupersedeAction(states[m], steps[m].old_, steps[m].propose).Committed? && Repeats(steps[m].propose, again)
    requires CurrentTenant(states[n], again.tenant) && LockApplicationRun(states[n], again).None?
    ensures SupersedeAction(states[n], steps[m].old_, again) ==
              Committed(states[n], SupersedeAction(states[m], steps[m].old_, steps[m].propose).value)
  {
    hide Inv, TopicsOk, Later, Trace, SupersedeAction, Repeats, LockApplicationRun;
    ReplayedLater(states, steps, recoveryMax, m, n);
    SupersedeReplays(states[m], states[n], steps[m].old_, steps[m].propose, again, recoveryMax);
  }

  /** And a cancellation that was committed is reported as done to every current caller for good. */
  lemma CancellationsReplay(states: seq<Rows>, steps: seq<Step>, recoveryMax: int, m: nat, n: nat, again: Tenant)
    requires Trace(states, steps, recoveryMax) && m < n < |states| && steps[m].DoCancelAction?
    requires
      CancelAction(states[m], steps[m].tenant, steps[m].intent, steps[m].request, steps[m].rejected).Committed?
    requires CurrentTenant(states[n], again)
    ensures
      CancelAction(states[n], again, steps[m].intent, steps[m].request, steps[m].rejected) == Committed(states[n], false)
  {
    hide Inv, TopicsOk, Later, Trace, CancelAction;
    ReplayedLater(states, steps, recoveryMax, m, n);
    CancelReplays(states[m], states[n], steps[m].tenant, again, steps[m].intent, steps[m].request, steps[m].rejected,
                  recoveryMax);
  }

  // ---- The guards of actions.py ---------------------------------------------

  predicate Logged(events: seq<Event>, k: EventKind) { exists j :: 0 <= j < |events| && events[j].kind == k }

  lemma {:induction false} LoggedIsListed(events: seq<Event>, k: EventKind, id: IntentId, t: Topic)
    requires Concerns(k, id, t)
    ensures Logged(events, k) <==> k in EventsAbout(events, id, t)
  {
    if events != [] {
      var n := |events| - 1;
      LoggedIsListed(events[..n], k, id, t);
      if Logged(events, k) {
        var j :| 0 <= j < |events| && events[j].kind == k;
        assert j < n ==> events[..n][j].kind == k;
      }
      if Logged(events[..n], k) {
        var j :| 0 <= j < n && events[..n][j].kind == k;
        assert events[j].kind == k;
      }
      assert Concerns(events[n].kind, id, t) || events[n].kind != k;
    }
  }

  /** `cancel_action` raises its consistency error exactly when the action was cancelled by
      something else: the log lacks the cancellation that the caller asks for. */
  lemma CancelActionGuards(s: Rows, tenant: Tenant, id: IntentId, request: RequestId, rejected: bool, recoveryMax: int)
    requires Inv(s, recoveryMax) && TopicsOk(s.proposals, s.events)
    ensures
      var found, o := FindIntent(s.proposals, id), CancelAction(s, tenant, id, request, rejected);
      var payload := ActionCancelledEvent(id, request, if rejected then ApprovalRejected else ApprovalExpired);
      o.Raised? && o.fault.Broken? <==>
        && CurrentTenant(s, tenant) && found.Some? && HasRequest(s.proposals[found.value], request)
        && s.proposals[found.value].request.value.status == (if rejected then Rejected else Expired)
        && s.proposals[found.value].intent.status == Cancelled && !Logged(s.events, payload)
    ensures
      var o := CancelAction(s, tenant, id, request, rejected);
      o.Raised? && o.fault.Broken? ==> o.fault.guard == CancelledEventInconsistent
  {
    hide Inv, EventsAbout, Logged, FindIntent;
    var found := FindIntent(s.proposals, id);
    var payload := ActionCancelledEvent(id, request, if rejected then ApprovalRejected else ApprovalExpired);
    LoggedIsListed(s.events, payload, id, AboutCancellation);
    if found.Some? {
      assert TopicOk(s.proposals[found.value], s.events);
      InvHasProposals(s, recoveryMax);
      assert ProposalOk(s.proposals[found.value], recoveryMax);
    }
  }

  lemma InvHasProposals(s: Rows, recoveryMax: int)
    requires Inv(s, recoveryMax)
    ensures ProposalsOk(s.proposals, recoveryMax)
  {
  }

  lemma RetiredHasNoCancellation(s: Rows, i: nat, recoveryMax: int)
    requires Inv(s, recoveryMax) && TopicsOk(s.proposals, s.events) && s.run.status == RunRunning
    requires i < |s.proposals| && s.proposals[i].intent.status in {Proposed, Authorized}
    requires s.proposals[i].request.Some? && s.proposals[i].request.value.status in {Pending, Approved}
    ensures
      var p, t := s.proposals[i], Retire(s, i);
      && FindIntent(t.proposals, p.intent.id) == Some(i) && t.proposals[i].intent.status == Cancelled
      && HasRequest(t.proposals[i], p.request.value.id) && t.proposals[i].request.value.status == Expired
      && ExactBinding(t.proposals[i]) && EventsAbout(t.events, p.intent.id, AboutCancellation) == []
  {
    hide Inv, EventsAbout;
    var p, t := s.proposals[i], Retire(s, i);
    InvHasProposals(s, recoveryMax);
    RetireKeeps(s, i, recoveryMax);
    InvHasProposals(t, recoveryMax);
    assert ProposalOk(t.proposals[i], recoveryMax);
    FoundIsUnique(t.proposals, p.intent.id, i);
    assert TopicOk(p, s.events);
    EventsAboutNext(s.events, Event(s.run.nextEventSeq, SupersededPayload(p)), p.intent.id, AboutCancellation);
  }

  lemma InsertAddsNoCancellation(s: Rows, c: Propose, id: IntentId, recoveryMax: int)
    requires Inv(s, recoveryMax) && FindIntent(s.proposals, id).Some? && InsertProposal(s, c, true).Committed?
    ensures
      var t, i := InsertProposal(s, c, true).rows, FindIntent(s.proposals, id).value;
      && FindIntent(t.proposals, id) == Some(i) && t.proposals[i] == s.proposals[i] && t.memberActive == s.memberActive
      && EventsAbout(t.events, id, AboutCancellation) == EventsAbout(s.events, id, AboutCancellation)
  {
    hide Inv, EventsAbout, ReplayProposal;
    ReplayChangesNothing(s, c, true, recoveryMax);
    if ProposalIsNew(s, c) {
      FindPrefix(s.proposals, s.proposals + [ProposalOf(c)], id);
      EventsAboutNext(s.events, Event(s.run.nextEventSeq, ActionProposed(c.id, FactsOf(c))), id, AboutCancellation);
    }
  }

  /** Such rows are committed by `supersede_action`: after it has replaced an open proposal, cancelling
      that one as expired fails. */
  lemma SupersededCannotBeCancelled(s: Rows, i: nat, c: Propose, tenant: Tenant, recoveryMax: int)
    requires Inv(s, recoveryMax) && TopicsOk(s.proposals, s.events)
    requires i < |s.proposals| && s.proposals[i].request.Some?
    requires s.proposals[i].intent.status in {Proposed, Authorized}
    requires s.proposals[i].request.value.status in {Pending, Approved}
    requires var o := SupersedeAction(s, s.proposals[i].intent.id, c); o.Committed? && CurrentTenant(o.rows, tenant)
    ensures
      var p := s.proposals[i];
      CancelAction(SupersedeAction(s, p.intent.id, c).rows, tenant, p.intent.id, p.request.value.id, false) ==
        Raised(Broken(CancelledEventInconsistent))
  {
    hide Inv, EventsAbout, InsertProposal, Retire, LockApplicationRun, FindIntent, TopicsOk, ExactBinding;
    var p := s.proposals[i];
    InvHasRevisions(s, recoveryMax);
    FoundIsUnique(s.proposals, p.intent.id, i);
    LockIsRunning(s, c);
    RetireKeeps(s, i, recoveryMax);
    RetiredHasNoCancellation(s, i, recoveryMax);
    InsertAddsNoCancellation(Retire(s, i), c, p.intent.id, recoveryMax);
  }

  /** A proposal command names one proposal: its identity and its revision belong together. */
  predicate NamesOne(s: Rows, c: Propose)
  {
    var byId, byRevision := FindIntent(s.proposals, c.id), FindRevision(s.proposals, c.revision);
    !c.idElsewhere && c.resumeMatches && byId == byRevision
    && (byId.Some? ==> var p := s.proposals[byId.value];
          IntentMatches(p.intent, c) && p.request.Some? && RequestMatches(p.request.value, c))
  }

  lemma InsertGuards(s: Rows, c: Propose, recoveryMax: int)
    requires Inv(s, recoveryMax) && TopicsOk(s.proposals, s.events) && c.resumeMatches
    ensures Unbroken(InsertProposal(s, c, true)) <==> NamesOne(s, c)
    ensures Unbroken(InsertProposal(s, c, false)) <==> NamesOne(s, c) && FindIntent(s.proposals, c.id).Some?
  {
    hide Inv, EventsAbout;
    InvHasRevisions(s, recoveryMax);
    RevisionIsPosition(s, c.revision, recoveryMax);
    var found := FindIntent(s.proposals, c.id);
    if found.Some? { assert TopicOk(s.proposals[found.value], s.events); }
  }

  /** `prepare_action` raises a consistency error exactly for a command whose identity,
      revision and payload do not name one proposal. */
  lemma PrepareActionGuards(s: Rows, c: Propose, recoveryMax: int)
    requires Inv(s, recoveryMax) && TopicsOk(s.proposals, s.events)
    ensures
      !Unbroken(PrepareAction(s, c)) <==>
        && c.keyMatches && c.revision == INITIAL_ACTION_REVISION && CurrentTenant(s, c.tenant) && c.tenant.Creator?
        && s.run.mode == Application && s.run.status == RunRunning && s.run.graphVersion == CURRENT_GRAPH_VERSION
        && !NamesOne(s, c)
  {
    hide Inv, EventsAbout, InsertProposal, NamesOne;
    if c.resumeMatches { InsertGuards(s, c, recoveryMax); }
    else { assert !NamesOne(s, c) by { NamesOneNeedsResume(s, c); } }
  }

  lemma NamesOneNeedsResume(s: Rows, c: Propose)
    ensures NamesOne(s, c) ==> c.resumeMatches
  {
  }

  lemma {:induction false} FindIsStable(ps: seq<Proposal>, qs: seq<Proposal>, id: IntentId, revision: int, from: nat := 0)
    requires |ps| == |qs| && from <= |ps|
    requires forall i :: 0 <= i < |ps| ==>
               ps[i].intent.id == qs[i].intent.id && ps[i].intent.revision == qs[i].intent.revision
    ensures FindIntent(qs, id, from) == FindIntent(ps, id, from)
    ensures FindRevision(qs, revision, from) == FindRevision(ps, revision, from)
    decreases |ps| - from
  {
    if from < |ps| { FindIsStable(ps, qs, id, revision, from + 1); }
  }

  /** `supersede_action` never finds its own events inconsistent, and a command that names
      one proposal raises no consistency error unless it replays one that was never made. */
  lemma SupersedeActionGuards(s: Rows, old_: IntentId, c: Propose, recoveryMax: int)
    requires Inv(s, recoveryMax) && TopicsOk(s.proposals, s.events)
    ensures
      var o := SupersedeAction(s, old_, c);
      o.Raised? && o.fault.Broken? ==> o.fault.guard in {ProposalFactsConflict, ProposalIdentityConflict}
    ensures
      var found := FindIntent(s.proposals, old_);
      NamesOne(s, c)
      && (found.Some? && s.proposals[found.value].intent.status == Cancelled ==>
            FindIntent(s.proposals, c.id).Some?) ==>
        Unbroken(SupersedeAction(s, old_, c))
  {
    hide Inv, EventsAbout, InsertProposal, NamesOne, Retire, FindIntent, ProposalOk, TopicsOk;
    var found := FindIntent(s.proposals, old_);
    InvHasRevisions(s, recoveryMax);
    NamesOneNeedsResume(s, c);
    if found.Some? && LockApplicationRun(s, c).None? {
      var i := found.value;
      assert TopicOk(s.proposals[i], s.events) by { TopicOfOne(s, i); }
      InsertGuards(s, c, recoveryMax);
      InsertFaults(s, c, false, recoveryMax);
      if s.proposals[i].intent.status in {Proposed, Authorized} && s.proposals[i].request.value.status != Consumed {
        RetireKeeps(s, i, recoveryMax);
        RetireKeepsTopics(s, i);
        InsertGuards(Retire(s, i), c, recoveryMax);
        InsertFaults(Retire(s, i), c, true, recoveryMax);
        RetireKeepsNames(s, i, c);
      }
    }
  }

  lemma TopicOfOne(s: Rows, i: nat)
    requires TopicsOk(s.proposals, s.events) && i < |s.proposals|
    ensures TopicOk(s.proposals[i], s.events)
  {
  }

  lemma RetireKeepsNames(s: Rows, i: nat, c: Propose)
    requires i < |s.proposals| && s.proposals[i].request.Some?
    ensures NamesOne(Retire(s, i), c) <==> NamesOne(s, c)
  {
    hide FindIntent, FindRevision;
    FindIsStable(s.proposals, Retire(s, i).proposals, c.id, c.revision);
  }

  lemma InsertFaults(s: Rows, c: Propose, allowCreate: bool, recoveryMax: int)
    requires Inv(s, recoveryMax) && TopicsOk(s.proposals, s.events)
    ensures
      var o := InsertProposal(s, c, allowCreate);
      o.Raised? && o.fault.Broken? ==> o.fault.guard in {ProposalFactsConflict, ProposalIdentityConflict}
  {
    hide Inv, EventsAbout;
    InvHasRevisions(s, recoveryMax);
    var found := FindIntent(s.proposals, c.id);
    if found.Some? { assert TopicOk(s.proposals[found.value], s.events); }
  }
}
