/** Whole runs, step by step: the assumptions about the drivers leave room for a run that is approved,
    resumed, sent, confirmed and completed, and for each of the bad endings that the proofs found. */
module Example {
  import opened Options
  import opened Rows
  import opened Actions
  import opened Approvals
  import opened ActionExecution
  import opened Jobs
  import opened Invariant
  import opened ExecutionProofs
  import opened JobProofs
  import opened ActionProofs
  import opened Protocol
  import opened Liveness
  import Rounds
  import opened Tables
  import opened ApprovalStores
  import Starvation

  const START: Rows := Rows(
    Run(Application, CURRENT_GRAPH_VERSION, RunQueued, None, None, None, None, false, 2),
    Job(JobQueued, 0, 1, 0, None, None, None), [], true, [Event(1, RunCreatedEvent)], {}, [], {}, None)

  const FIRST: ClaimedJob := ClaimedJob(1, 1, 1, CURRENT_GRAPH_VERSION, None)
  const SECOND: ClaimedJob := ClaimedJob(2, 1, 1, CURRENT_GRAPH_VERSION, Some(7))
  const ACTION: Identity := Identity(5, 7)
  const COMMAND: Propose := Propose(Creator(true), 5, true, 1, 40, true, 100, 7, false)
  const APPROVAL: Approvals.Decide := Decide(9, true, true, 5, Approve, 1, 4)

  /** From the creation of the run until it sleeps on its request. */
  const PAUSING: seq<Step> := [
    DoClaim({CURRENT_GRAPH_VERSION}, 1, 1, 1, 50),
    DoPrepareJob(FIRST, {CURRENT_GRAPH_VERSION}, 2),
    DoPrepareAction(COMMAND),
    DoWait(FIRST, 7, 3)]

  /** From the approval until the call is on the wire. */
  const SENDING: seq<Step> := [
    DoDecide(APPROVAL),
    DoClaim({CURRENT_GRAPH_VERSION}, 1, 2, 5, 50),
    DoPrepareJob(SECOND, {CURRENT_GRAPH_VERSION}, 6),
    DoPrepareExecution(ACTION, 7),
    DoBeginSend(ACTION, 8)]

  /** From the arrival of the call until the run is completed. */
  const FINISHING: seq<Step> := [
    Deliver(CALL),
    DoConfirmSuccess(ACTION, 9),
    DoComplete(SECOND, false, 10)]

  const LOSS: Evidence := Evidence(OtherClassification, None)
  const FAILURE: Step := DoConfirmFailure(ACTION, Text(0), LOSS, 70)

  /** The failure is recorded before the call arrives. */
  const LANDING_LATE: seq<Step> := [FAILURE, Deliver(CALL)]

  /** The only attempt dies, the sweep requeues the job for recovery, the old worker reports. */
  const STRANDING: seq<Step> := [DoReclaim({CURRENT_GRAPH_VERSION}, 60, 5), FAILURE]

  const CALL: Message := Message(5, 40, 1)

  function Proposed(): Proposal { ProposalOf(COMMAND) }

  function ApprovedNow(): Proposal
  {
    Proposed().(request := Some(Proposed().request.value.(status := Approved, version := 2)),
                decisions := [Decision(9, Approve, 4)])
  }

  function ConsumedNow(): Proposal { ConsumedBy(ApprovedNow(), 7) }

  function Sent(): Proposal
  {
    var p := ConsumedNow();
    p.(intent := p.intent.(status := Executing),
       invocation := Some(p.invocation.value.(status := InvExecuting, attempt := 1, startedAt := Some(8))))
  }

  function Confirmed(): Proposal
  {
    Finish(Sent(), Succeeded, Evidence(ConfirmedSuccess, None),
           Sent().invocation.value.(status := InvSucceeded, hasResult := true, finishedAt := Some(9)))
  }

  /** The step is one that its driver may take, and leads to these rows. */
  predicate Leads(s: Rows, step: Step, t: Rows) { Driven(s, step) && Next(s, step, 1) == t }

  predicate Known(s: Rows, status: RunStatus, seqno: int, proposals: seq<Proposal>, issued: set<ClaimedJob>)
  {
    && s.run.mode == Application && s.run.graphVersion == CURRENT_GRAPH_VERSION && s.run.status == status
    && s.run.nextEventSeq == seqno && s.run.cancelRequestedAt == None && s.memberActive
    && s.proposals == proposals && s.issued == issued
  }

  lemma FirstClaim()
    ensures Leads(START, PAUSING[0], START.(
              job := START.job.(status := JobLeased, attempt := 1, lease := Some(Lease(1, 1, 51))), issued := {FIRST}))
  {
  }

  lemma FirstStart(s: Rows)
    requires Known(s, RunQueued, 2, [], {FIRST}) && s.job == Job(JobLeased, 1, 1, 0, Some(Lease(1, 1, 51)), None, None)
    ensures Leads(s, PAUSING[1], Append(s.(run := s.run.(status := RunRunning, startedAt := Some(2)),
                                         executing := Some(1)), RunStatusChanged(RunQueued, RunRunning)))
  {
  }

  lemma Proposes(s: Rows)
    requires Known(s, RunRunning, 3, [], {FIRST}) && s.job.resumeRequest == None
    requires EventsAbout(s.events, 5, AboutProposal) == []
    ensures Leads(s, PAUSING[2], Append(s.(proposals := [Proposed()]), ActionProposed(5, FactsOf(COMMAND))))
  {
  }

  lemma Pauses(s: Rows)
    requires Known(s, RunRunning, 4, [Proposed()], {FIRST}) && s.executing == Some(1)
    requires s.job == Job(JobLeased, 1, 1, 0, Some(Lease(1, 1, 51)), None, None)
    ensures Leads(s, PAUSING[3], Append(s.(job := LeaveJob(s.job, JobDone, None),
                                         run := s.run.(status := RunWaiting)), RunStatusChanged(RunRunning, RunWaiting)))
  {
  }

  lemma Decides(s: Rows)
    requires Known(s, RunWaiting, 5, [Proposed()], {FIRST}) && s.job.status == JobDone
    ensures Leads(s, SENDING[0], Append(s.(proposals := [ApprovedNow()], job := WakeJob(s.job, 7, 4)),
                                      ApprovalDecided(5, 7, Approve, 2)))
  {
  }

  lemma SecondClaim(s: Rows)
    requires Known(s, RunWaiting, 6, [ApprovedNow()], {FIRST}) && s.executing == Some(1)
    requires s.job == Job(JobQueued, 0, 1, 4, None, Some(7), None)
    ensures Leads(s, SENDING[1], s.(job := s.job.(status := JobLeased, attempt := 1, lease := Some(Lease(1, 2, 55))),
                                  issued := {FIRST, SECOND}))
  {
  }

  lemma Resumes(s: Rows)
    requires Known(s, RunWaiting, 6, [ApprovedNow()], {FIRST, SECOND})
    requires s.job == Job(JobLeased, 1, 1, 4, Some(Lease(1, 2, 55)), Some(7), None)
    ensures Leads(s, SENDING[2], Append(s.(run := s.run.(status := RunRunning), executing := Some(2)),
                                      RunStatusChanged(RunWaiting, RunRunning)))
  {
  }

  lemma Prepares(s: Rows)
    requires Known(s, RunRunning, 7, [ApprovedNow()], {FIRST, SECOND})
    ensures Leads(s, SENDING[3], s.(proposals := [ConsumedNow()]))
  {
  }

  lemma Sends(s: Rows)
    requires Known(s, RunRunning, 7, [ConsumedNow()], {FIRST, SECOND}) && s.wire == {}
    ensures Leads(s, SENDING[4], Append(s.(proposals := [Sent()], wire := {CALL}), ActionStarted(5)))
  {
  }

  lemma Arrives(s: Rows)
    requires s.wire == {CALL} && s.portal == []
    ensures Leads(s, FINISHING[0], s.(portal := [Submission(5, 40)]))
  {
  }

  lemma Confirms(s: Rows)
    requires Known(s, RunRunning, 8, [Sent()], {FIRST, SECOND})
    ensures Leads(s, FINISHING[1], Append(s.(proposals := [Confirmed()]), ActionCompleted(5)))
  {
  }

  lemma Completes(s: Rows)
    requires Known(s, RunRunning, 9, [Confirmed()], {FIRST, SECOND}) && s.executing == Some(2)
    requires s.run.startedAt == Some(2) && s.run.errorCategory == None
    requires s.job == Job(JobLeased, 1, 1, 4, Some(Lease(1, 2, 55)), Some(7), None)
    ensures Leads(s, FINISHING[2], Append(s.(job := LeaveJob(s.job, JobDone, None),
                                          run := s.run.(status := RunCompleted, hasResult := true,
                                                        finishedAt := Some(10))), RunCompletedEvent))
  {
  }

  lemma NothingProposedYet(events: seq<Event>)
    requires events == [Event(1, RunCreatedEvent), Event(2, RunStatusChanged(RunQueued, RunRunning))]
    ensures EventsAbout(events, 5, AboutProposal) == []
  {
    assert events[..1] == [Event(1, RunCreatedEvent)];
    assert events[..1][..0] == [];
    assert EventsAbout(events[..1], 5, AboutProposal) == [];
  }

  // ---- Stretches of the runs ------------------------------------------------

  /** The states follow one another by these steps. */
  ghost predicate Follows(states: seq<Rows>, steps: seq<Step>)
  {
    |states| == |steps| + 1 && forall i :: 0 <= i < |steps| ==> Leads(states[i], steps[i], states[i + 1])
  }

  lemma Join(a: seq<Rows>, xs: seq<Step>, b: seq<Rows>, ys: seq<Step>)
    requires Follows(a, xs) && Follows(b, ys) && a[|xs|] == b[0]
    ensures Follows(a + b[1..], xs + ys)
  {
    hide Leads;
    var c, zs := a + b[1..], xs + ys;
    forall i | 0 <= i < |zs| ensures Leads(c[i], zs[i], c[i + 1]) {
      if i < |xs| { assert Leads(a[i], xs[i], a[i + 1]); }
      else { assert Leads(b[i - |xs|], ys[i - |xs|], b[i - |xs| + 1]); }
    }
  }

  lemma FollowingIsTrace(states: seq<Rows>, steps: seq<Step>)
    requires Follows(states, steps) && states[0] == START
    ensures Trace(states, steps, 1)
  {
    hide Driven, Next;
    forall i | 0 <= i < |steps| ensures Driven(states[i], steps[i]) && states[i + 1] == Next(states[i], steps[i], 1) {
      assert Leads(states[i], steps[i], states[i + 1]);
    }
    assert Initial(START);
  }

  lemma UntilTheProposal() returns (states: seq<Rows>)
    ensures |states| == 4 && states[0] == START && Follows(states, PAUSING[..3])
    ensures
      var t := states[3];
      && Known(t, RunRunning, 4, [Proposed()], {FIRST}) && t.executing == Some(1) && t.wire == {} && t.portal == []
      && t.job == Job(JobLeased, 1, 1, 0, Some(Lease(1, 1, 51)), None, None)
      && t.run.startedAt == Some(2) && t.run.errorCategory == None
  {
    hide Leads, Proposed;
    var s1 := START.(job := START.job.(status := JobLeased, attempt := 1, lease := Some(Lease(1, 1, 51))),
                     issued := {FIRST});
    var s2 := Append(s1.(run := s1.run.(status := RunRunning, startedAt := Some(2)), executing := Some(1)),
                     RunStatusChanged(RunQueued, RunRunning));
    var s3 := Append(s2.(proposals := [Proposed()]), ActionProposed(5, FactsOf(COMMAND)));
    FirstClaim();
    FirstStart(s1);
    NothingProposedYet(s2.events);
    Proposes(s2);
    states := [START, s1, s2, s3];
  }

  lemma UntilTheWait() returns (states: seq<Rows>)
    ensures |states| == 5 && states[0] == START && Follows(states, PAUSING)
    ensures
      var t := states[4];
      && Known(t, RunWaiting, 5, [Proposed()], {FIRST}) && t.job == Job(JobDone, 1, 1, 0, None, None, None)
      && t.executing == Some(1) && t.wire == {} && t.portal == []
      && t.run.startedAt == Some(2) && t.run.errorCategory == None
  {
    hide Leads, Proposed;
    var a := UntilTheProposal();
    var s3 := a[3];
    var s4 := Append(s3.(job := LeaveJob(s3.job, JobDone, None), run := s3.run.(status := RunWaiting)),
                     RunStatusChanged(RunRunning, RunWaiting));
    Pauses(s3);
    Join(a, PAUSING[..3], [s3, s4], [PAUSING[3]]);
    assert PAUSING[..3] + [PAUSING[3]] == PAUSING;
    states := a + [s4];
  }

  lemma UntilTheResume() returns (states: seq<Rows>)
    ensures |states| == 8 && states[0] == START && Follows(states, PAUSING + SENDING[..3])
    ensures
      var t := states[7];
      && Known(t, RunRunning, 7, [ApprovedNow()], {FIRST, SECOND}) && t.wire == {} && t.portal == []
      && t.job == Job(JobLeased, 1, 1, 4, Some(Lease(1, 2, 55)), Some(7), None) && t.executing == Some(2)
      && t.run.startedAt == Some(2) && t.run.errorCategory == None
  {
    hide Leads, Proposed, ApprovedNow;
    var a := UntilTheWait();
    var s := a[4];
    var s5 := Append(s.(proposals := [ApprovedNow()], job := WakeJob(s.job, 7, 4)), ApprovalDecided(5, 7, Approve, 2));
    var s6 := s5.(job := s5.job.(status := JobLeased, attempt := 1, lease := Some(Lease(1, 2, 55))),
                  issued := {FIRST, SECOND});
    var s7 := Append(s6.(run := s6.run.(status := RunRunning), executing := Some(2)),
                     RunStatusChanged(RunWaiting, RunRunning));
    Decides(s);
    SecondClaim(s5);
    Resumes(s6);
    Join(a, PAUSING, [s, s5, s6, s7], SENDING[..3]);
    states := a + [s5, s6, s7];
  }

  lemma UntilTheCall() returns (states: seq<Rows>)
    ensures |states| == 10 && states[0] == START && Follows(states, PAUSING + SENDING)
    ensures
      var t := states[9];
      && Known(t, RunRunning, 8, [Sent()], {FIRST, SECOND}) && t.wire == {CALL} && t.portal == []
      && t.job == Job(JobLeased, 1, 1, 4, Some(Lease(1, 2, 55)), Some(7), None) && t.executing == Some(2)
      && t.run.startedAt == Some(2) && t.run.errorCategory == None
  {
    hide Leads, ApprovedNow, ConsumedNow, Sent;
    var a := UntilTheResume();
    var s7 := a[7];
    var s8 := s7.(proposals := [ConsumedNow()]);
    var s9 := Append(s8.(proposals := [Sent()], wire := {CALL}), ActionStarted(5));
    Prepares(s7);
    Sends(s8);
    Join(a, PAUSING + SENDING[..3], [s7, s8, s9], SENDING[3..]);
    assert PAUSING + SENDING[..3] + SENDING[3..] == PAUSING + SENDING;
    states := a + [s8, s9];
  }

  // ---- Whole runs -----------------------------------------------------------

  /** The run exists: it starts as runs start, every step is driven, the portal has the one
      approved submission and the run is completed. */
  lemma ApprovedRunCompletes() returns (states: seq<Rows>)
    ensures Trace(states, PAUSING + SENDING + FINISHING, 1)
    ensures
      var t := states[|states| - 1];
      t.run.status == RunCompleted && t.portal == [Submission(5, 40)] && t.proposals == [Confirmed()]
  {
    hide Leads, Sent, Confirmed, Proposed, Trace;
    var a := UntilTheCall();
    var s := a[9];
    var s10 := s.(portal := [Submission(5, 40)]);
    var s11 := Append(s10.(proposals := [Confirmed()]), ActionCompleted(5));
    var s12 := Append(s11.(job := LeaveJob(s11.job, JobDone, None),
                           run := s11.run.(status := RunCompleted, hasResult := true, finishedAt := Some(10))),
                      RunCompletedEvent);
    Arrives(s);
    Confirms(s10);
    Completes(s11);
    Join(a, PAUSING + SENDING, [s, s10, s11, s12], FINISHING);
    states := a + [s10, s11, s12];
    FollowingIsTrace(states, PAUSING + SENDING + FINISHING);
  }

  function FailedCall(): Proposal
  {
    Finish(Sent(), Failed, LOSS, FailInvocation(Sent().invocation.value, Text(0), 70))
  }

  lemma Fails(s: Rows)
    requires s.proposals == [Sent()] && s.run.mode == Application && s.run.graphVersion == CURRENT_GRAPH_VERSION
    ensures Leads(s, FAILURE, Append(s.(proposals := [FailedCall()]), ActionFailed(5, Text(0))))
  {
  }

  /** A recorded failure does not exclude a submission: the call arrives after it. */
  lemma FailedCallLands() returns (states: seq<Rows>)
    ensures Trace(states, PAUSING + SENDING + LANDING_LATE, 1)
    ensures
      var t := states[|states| - 1];
      NewestIs(t.proposals, Failed) && t.portal == [Submission(5, 40)]
  {
    hide Leads, Sent, Trace;
    var a := UntilTheCall();
    var s := a[9];
    var s10 := Append(s.(proposals := [FailedCall()]), ActionFailed(5, Text(0)));
    var s11 := s10.(portal := [Submission(5, 40)]);
    Fails(s);
    Arrives(s10);
    Join(a, PAUSING + SENDING, [s, s10, s11], LANDING_LATE);
    states := a + [s10, s11];
    FollowingIsTrace(states, PAUSING + SENDING + LANDING_LATE);
  }

  lemma Dies(s: Rows)
    requires s.proposals == [Sent()] && s.run.graphVersion == CURRENT_GRAPH_VERSION
    requires s.job == Job(JobLeased, 1, 1, 4, Some(Lease(1, 2, 55)), Some(7), None)
    ensures Leads(s, STRANDING[0], RequeueJob(Append(s, JobLeaseExpired(1)), ActionRecoveryRequired, 65))
  {
  }

  /** A run can be stranded: with its one attempt dead, its loss is reported too late. */
  lemma RunIsStranded() returns (states: seq<Rows>)
    ensures Trace(states, PAUSING + SENDING + STRANDING, 1) && Stranded(states[|states| - 1])
  {
    hide Leads, Trace;
    var a := UntilTheCall();
    var s := a[9];
    var s10 := RequeueJob(Append(s, JobLeaseExpired(1)), ActionRecoveryRequired, 65);
    var s11 := Append(s10.(proposals := [FailedCall()]), ActionFailed(5, Text(0)));
    Dies(s);
    Fails(s10);
    Join(a, PAUSING + SENDING, [s, s10, s11], STRANDING);
    states := a + [s10, s11];
    FollowingIsTrace(states, PAUSING + SENDING + STRANDING);
  }

  /** A run can go round without end while its call is in doubt: its worker has died before it began a
      reconciliation. */
  lemma InDoubtCircles() returns (states: seq<Rows>)
    ensures Trace(states, PAUSING + SENDING, 1)
    ensures
      var t := states[|states| - 1];
      t.job.status == JobLeased && NewestIs(t.proposals, Executing)
      && forall count: nat :: Rounds.CanGo(t, count, 1)
  {
    hide Leads, Trace, Inv, Rounds.CanGo;
    states := UntilTheCall();
    FollowingIsTrace(states, PAUSING + SENDING);
    TraceIsGood(states, PAUSING + SENDING, 1, 9);
    Rounds.RoundsAreUnbounded(states[9], 1);
  }

  /** And after its call has succeeded: no worker lives to complete it. */
  lemma SucceededCircles() returns (states: seq<Rows>)
    ensures Trace(states, PAUSING + SENDING + FINISHING[..2], 1)
    ensures
      var t := states[|states| - 1];
      t.job.status == JobLeased && NewestIs(t.proposals, Succeeded)
      && forall count: nat :: Rounds.CanGo(t, count, 1)
  {
    hide Leads, Sent, Trace, Inv, Rounds.CanGo;
    var a := UntilTheCall();
    var s := a[9];
    var s10 := s.(portal := [Submission(5, 40)]);
    var s11 := Append(s10.(proposals := [Confirmed()]), ActionCompleted(5));
    Arrives(s);
    Confirms(s10);
    Join(a, PAUSING + SENDING, [s, s10, s11], FINISHING[..2]);
    states := a + [s10, s11];
    FollowingIsTrace(states, PAUSING + SENDING + FINISHING[..2]);
    TraceIsGood(states, PAUSING + SENDING + FINISHING[..2], 1, 11);
    Rounds.RoundsAreUnbounded(s11, 1);
  }

  const CRASH: Step := DoFail(FIRST, Text(0), 3, 0)

  lemma Crashes(s: Rows)
    requires Known(s, RunRunning, 4, [Proposed()], {FIRST}) && s.run.startedAt == Some(2)
    requires s.job == Job(JobLeased, 1, 1, 0, Some(Lease(1, 1, 51)), None, None)
    ensures Driven(s, CRASH)
    ensures var t := Next(s, CRASH, 1); t.run.status == RunFailed && t.proposals == s.proposals
  {
  }

  /** A run can end with an open request: it fails after it proposed and before it pauses.  Its request
      falls due like any other. */
  lemma EndedRunIsDue() returns (states: seq<Rows>)
    ensures Trace(states, PAUSING[..3] + [CRASH], 1)
    ensures |states| == 5
    ensures
      var t := states[|states| - 1];
      t.run.status == RunFailed && t.proposals == [Proposed()] && Due(Newest(t.proposals), 100)
  {
    hide Driven, Next, Trace;
    var a := UntilTheProposal();
    var t := Next(a[3], CRASH, 1);
    Crashes(a[3]);
    assert Leads(a[3], CRASH, t);
    Join(a, PAUSING[..3], [a[3], t], [CRASH]);
    states := a + [t];
    FollowingIsTrace(states, PAUSING[..3] + [CRASH]);
  }

  /** The ended run comes first, and the run that waits behind it. */
  predicate EndedThenWaiting(rows: seq<Rows>)
  {
    && |rows| == 2 && rows[0].run.status == RunFailed && rows[0].proposals == [Proposed()]
    && rows[1].run.status == RunWaiting && rows[1].proposals == [Proposed()]
    && Inv(rows[0], 1) && Inv(rows[1], 1)
  }

  lemma EndedBlocks(rows: seq<Rows>)
    requires EndedThenWaiting(rows)
    ensures Starvation.WaitsDue(rows[1], 100) && Starvation.Blocks(rows[0], 100) && ByExpiry(rows) && AllGood(rows, 1)
    ensures Starvation.Blockers(rows[..1], 100) == 1
  {
    hide Inv;
    assert rows[..1] == [rows[0]] && rows[..1][..0] == [];
    assert Starvation.Blockers(rows[..1][..0], 100) == 0;
  }

  /** A database that is reached in which the sweep starves: with a batch of one, the due request of an
      ended run comes first, and the due request of the run that waits behind it is never taken. */
  lemma WaitingRunStarves() returns (ended: seq<Rows>, waiting: seq<Rows>)
    ensures Trace(ended, PAUSING[..3] + [CRASH], 1) && Trace(waiting, PAUSING, 1)
    ensures
      var rows := [ended[|ended| - 1], waiting[|waiting| - 1]];
      Starvation.WaitsDue(rows[1], 100) && Starvation.Starves(rows, 1, 100, 1)
  {
    hide Trace, Starvation.Starves, DueRuns, Inv, Leads, Proposed;
    ended := EndedRunIsDue();
    waiting := UntilTheWait();
    FollowingIsTrace(waiting, PAUSING);
    TraceIsGood(ended, PAUSING[..3] + [CRASH], 1, 4);
    TraceIsGood(waiting, PAUSING, 1, 4);
    var rows := [ended[4], waiting[4]];
    EndedBlocks(rows);
    Starvation.StarvesExactly(rows, 1, 100, 1, 1);
  }
}
