/** The consistency errors that can occur do occur: for each of them a driven run from its creation and
    a driven call that raises it. */
module LiveGuards {
  import opened Options
  import opened Rows
  import opened Actions
  import opened ActionExecution
  import opened Jobs
  import opened Invariant
  import opened ExecutionProofs
  import opened JobProofs
  import opened ActionProofs
  import opened Protocol
  import opened Replays
  import opened Safety
  import opened Example

  const EDITED: Propose := Propose(Creator(true), 6, true, 2, 41, true, 100, 8, false)
  const REPLACING: seq<Step> := [DoSupersede(5, EDITED)]

  /** After the approval: the run has resumed and replaces its action. */
  function Replaced(s: Rows): Rows
    requires s.proposals == [ApprovedNow()]
  {
    var t := Retire(s, 0);
    Append(t.(proposals := t.proposals + [ProposalOf(EDITED)]), ActionProposed(6, FactsOf(EDITED)))
  }

  lemma ReplacesRows(s: Rows)
    requires Known(s, RunRunning, 7, [ApprovedNow()], {FIRST, SECOND})
    requires EventsAbout(s.events, 6, AboutProposal) == []
    ensures After(s, SupersedeAction(s, 5, EDITED)) == Replaced(s)
  {
    EventsAboutNext(s.events, Event(7, SupersededPayload(ApprovedNow())), 6, AboutProposal);
    hide EventsAbout;
  }

  lemma Replaces(s: Rows)
    requires Known(s, RunRunning, 7, [ApprovedNow()], {FIRST, SECOND}) && s.job.resumeRequest == Some(7)
    requires EventsAbout(s.events, 6, AboutProposal) == []
    ensures Leads(s, REPLACING[0], Replaced(s))
  {
    ReplacesRows(s);
    hide EventsAbout, SupersedeAction, Replaced;
  }

  /** Whose rows are found in the replaced run. */
  predicate TwoProposals(s: Rows)
  {
    && Known(s, RunRunning, 9, s.proposals, {FIRST, SECOND}) && |s.proposals| == 2
    && s.proposals[0].intent.id == 5 && s.proposals[0].intent.revision == 1 && s.proposals[0].intent.args == 40
    && HasRequest(s.proposals[0], 7)
    && s.proposals[1].intent.id == 6 && s.proposals[1].intent.revision == 2 && HasRequest(s.proposals[1], 8)
    && s.proposals[1].request.value.status == Pending
    && s.job == Job(JobLeased, 1, 1, 4, Some(Lease(1, 2, 55)), Some(7), None) && s.executing == Some(2)
  }

  lemma UntilTheReplacement() returns (states: seq<Rows>)
    ensures |states| == 9 && states[0] == START && Follows(states, PAUSING + SENDING[..3] + REPLACING)
    ensures Known(states[7], RunRunning, 7, [ApprovedNow()], {FIRST, SECOND}) && states[8] == Replaced(states[7])
    ensures TwoProposals(states[8])
  {
    hide Leads, Follows, TopicsOk, Trace;
    var a := UntilTheResume();
    var s := a[7];
    FollowingIsTrace(a, PAUSING + SENDING[..3]);
    TraceKeepsTopics(a, PAUSING + SENDING[..3], 1, 7);
    NothingAboutSix(s);
    Replaces(s);
    assert Follows([s, Replaced(s)], REPLACING) by { OneStepFollows(s, REPLACING[0], Replaced(s)); }
    Join(a, PAUSING + SENDING[..3], [s, Replaced(s)], REPLACING);
    states := a + [Replaced(s)];
  }

  lemma OneStepFollows(s: Rows, step: Step, t: Rows)
    requires Leads(s, step, t)
    ensures Follows([s, t], [step])
  {
  }

  lemma NothingAboutSix(s: Rows)
    requires s.proposals == [ApprovedNow()] && TopicsOk(s.proposals, s.events)
    ensures EventsAbout(s.events, 6, AboutProposal) == []
  {
    assert FindIntent(s.proposals, 6).None?;
  }

  /** A driven call on these rows raises the error. */
  predicate Breaks(s: Rows, step: Step, guard: Guard)
  {
    Driven(s, step) && Perform(s, step, 1) == Raised(Broken(guard))
  }

  const SECOND_PAUSE: Step := DoWait(SECOND, 8, 9)
  const CONFUSED: Step := DoPrepareAction(Propose(Creator(true), 6, true, 1, 41, true, 100, 9, false))
  const ALTERED: Step := DoPrepareAction(Propose(Creator(true), 5, true, 1, 99, true, 100, 9, false))
  const LATE_CANCEL: Step := DoCancelAction(Creator(true), 5, 7, false)

  lemma TwoProposalsBreak(s: Rows)
    requires TwoProposals(s)
    ensures Driven(s, SECOND_PAUSE) && Perform(s, SECOND_PAUSE, 1) == Raised(Broken(PauseIdentityInvalid))
    ensures Driven(s, CONFUSED) && Perform(s, CONFUSED, 1) == Raised(Broken(ProposalIdentityConflict))
    ensures Driven(s, ALTERED) && Perform(s, ALTERED, 1) == Raised(Broken(ProposalFactsConflict))
    ensures Driven(s, LATE_CANCEL)
  {
    hide EventsAbout;
    assert FindIntent(s.proposals, 5) == Some(0) && FindIntent(s.proposals, 6) == Some(1);
    assert FindRevision(s.proposals, 1) == Some(0) && FindRequest(s.proposals, 8) == Some(1);
  }

  const REVOKING: seq<Step> := [DoPrepareExecution(ACTION, 7), Revoke, DoBeginSend(ACTION, 8)]

  function Aborted(): Proposal
  {
    var p := ConsumedNow();
    p.(intent := p.intent.(status := Cancelled),
       invocation := Some(AbortInvocation(p.invocation.value, AbortedBeforeSend, 8)))
  }

  lemma Revokes(s: Rows)
    ensures Leads(s, REVOKING[1], s.(memberActive := false))
  {
  }

  lemma Aborts(s: Rows)
    requires s.run.mode == Application && s.run.graphVersion == CURRENT_GRAPH_VERSION && !s.memberActive
    requires s.proposals == [ConsumedNow()]
    ensures Leads(s, REVOKING[2], s.(proposals := [Aborted()]))
  {
  }

  lemma AbortedBreaks(s: Rows)
    requires s.run.mode == Application && s.run.graphVersion == CURRENT_GRAPH_VERSION && s.run.status == RunRunning
    requires !s.memberActive && s.proposals == [Aborted()]
    ensures Driven(s, DoPrepareExecution(ACTION, 9))
    ensures Perform(s, DoPrepareExecution(ACTION, 9), 1) == Raised(Broken(RevokedActionMayBeSent))
  {
  }

  lemma RevocationOccurs() returns (states: seq<Rows>, steps: seq<Step>, step: Step)
    ensures Trace(states, steps, 1) && Breaks(states[|steps|], step, RevokedActionMayBeSent)
  {
    hide Leads, Trace, Driven, Perform, ConsumedNow, ApprovedNow, Aborted;
    steps, step := PAUSING + SENDING[..3] + REVOKING, DoPrepareExecution(ACTION, 9);
    var a := UntilTheResume();
    var s := a[7];
    var s8 := s.(proposals := [ConsumedNow()]);
    var s9 := s8.(memberActive := false);
    var s10 := s9.(proposals := [Aborted()]);
    Prepares(s);
    Revokes(s8);
    Aborts(s9);
    AbortedBreaks(s10);
    Join(a, PAUSING + SENDING[..3], [s, s8, s9, s10], REVOKING);
    states := a + [s8, s9, s10];
    FollowingIsTrace(states, steps);
  }

  /** Replacing the approved action cannot be followed by its cancellation as expired. */
  lemma CancellationOccurs(states: seq<Rows>, steps: seq<Step>)
    requires Trace(states, steps, 1) && |steps| > 0 && |states| == |steps| + 1
    requires var s := states[|steps| - 1];
             Known(s, RunRunning, 7, [ApprovedNow()], {FIRST, SECOND}) && states[|steps|] == Replaced(s)
    ensures Perform(states[|steps|], LATE_CANCEL, 1) == Raised(Broken(CancelledEventInconsistent))
  {
    hide Inv, TopicsOk, Trace, CancelAction;
    var n := |steps| - 1;
    TraceIsGood(states, steps, 1, n);
    TraceKeepsTopics(states, steps, 1, n);
    var s := states[n];
    NothingAboutSix(s);
    ReplacementCommits(s);
    SupersededCannotBeCancelled(s, 0, EDITED, Creator(true), 1);
  }

  lemma ReplacementCommits(s: Rows)
    requires Known(s, RunRunning, 7, [ApprovedNow()], {FIRST, SECOND}) && EventsAbout(s.events, 6, AboutProposal) == []
    ensures var o := SupersedeAction(s, 5, EDITED); o.Committed? && o.rows == Replaced(s) && o.rows.memberActive
  {
    EventsAboutNext(s.events, Event(7, SupersededPayload(ApprovedNow())), 6, AboutProposal);
    hide EventsAbout;
  }

  const REPLACED: seq<Step> := PAUSING + SENDING[..3] + REPLACING

  lemma ReplacementOccurs() returns (states: seq<Rows>)
    ensures Trace(states, REPLACED, 1) && |REPLACED| == 8 && |states| == 9 && TwoProposals(states[8])
    ensures Perform(states[8], LATE_CANCEL, 1) == Raised(Broken(CancelledEventInconsistent))
  {
    hide Leads, Trace, Perform, TwoProposals, Follows, Known, Replaced;
    states := UntilTheReplacement();
    FollowingIsTrace(states, REPLACED);
    CancellationOccurs(states, REPLACED);
  }

  lemma ReplacedBreaks(s: Rows, guard: Guard) returns (step: Step)
    requires TwoProposals(s) && Perform(s, LATE_CANCEL, 1) == Raised(Broken(CancelledEventInconsistent))
    requires guard in LIVE_GUARDS && guard != RevokedActionMayBeSent
    ensures Breaks(s, step, guard)
  {
    hide TwoProposals, Driven, Perform;
    TwoProposalsBreak(s);
    step := if guard == PauseIdentityInvalid then SECOND_PAUSE
            else if guard == ProposalIdentityConflict then CONFUSED
            else if guard == ProposalFactsConflict then ALTERED
            else LATE_CANCEL;
  }

  /** Every consistency error that is not excluded occurs. */
  lemma LiveGuardsOccur(guard: Guard) returns (states: seq<Rows>, steps: seq<Step>, step: Step)
    requires guard in LIVE_GUARDS
    ensures Trace(states, steps, 1) && Breaks(states[|steps|], step, guard)
  {
    if guard == RevokedActionMayBeSent {
      states, steps, step := RevocationOccurs();
    } else {
      hide Trace, Breaks, TwoProposals;
      states := ReplacementOccurs();
      steps := REPLACED;
      step := ReplacedBreaks(states[8], guard);
    }
  }
}
