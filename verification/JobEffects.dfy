/** What each transaction on a job and its run does to the rows: when a lease is held and for how long,
    what a worker is told, and how a run goes on or ends, with the conditions written out. */
module JobEffects {
  import opened Options
  import opened Rows
  import opened Actions
  import opened Approvals
  import opened ActionExecution
  import opened Jobs
  import opened Invariant
  import opened ExecutionProofs
  import opened JobProofs
  import opened Evolution
  import opened Liveness
  import opened Safety
  import opened Effects

  // ---- Leases ---------------------------------------------------------------

  /** A due job is claimed exactly if it has an attempt left, or its call is executing, or its call has
      succeeded and the attempts allowed for recovery are not used up either.  The claim is
      valid for exactly the duration that was asked for, for its token and attempt alone. */
  lemma ClaimIsTaken(s: Rows, executable: set<int>, worker: Actor, token: Token, now: Time, duration: Time,
                     recoveryMax: int)
    requires Inv(s, recoveryMax)
    ensures
      var o := Claim(s, executable, recoveryMax, worker, token, now, duration);
      && o.Committed? && (o.value.None? ==> o.rows == s)
      && (o.value.Some? <==>
            && s.job.status == JobQueued && s.job.availableAt <= now && s.run.graphVersion in executable
            && (s.job.attempt < s.job.maxAttempts || NewestIs(s.proposals, Executing)
                || (NewestIs(s.proposals, Succeeded) && s.job.attempt < s.job.maxAttempts + recoveryMax)))
      && (o.value.Some? ==>
            var attempt := if s.job.attempt < s.job.maxAttempts then s.job.attempt + 1 else s.job.maxAttempts;
            var h := ClaimedJob(token, attempt, s.job.maxAttempts, s.run.graphVersion, s.job.resumeRequest);
            && o.value == Some(h)
            && o.rows == s.(job := Job(JobLeased, attempt, s.job.maxAttempts, s.job.availableAt,
                                       Some(Lease(worker, token, now + duration)), s.job.resumeRequest,
                                       s.job.errorSummary),
                            issued := s.issued + {h})
            && (forall k, t :: ActiveLease(o.rows.job, k, t) <==>
                                 k.token == token && k.attempt == attempt && t < now + duration)
            && forall t :: Stale(o.rows, executable, t) <==> t >= now + duration)
  {
    hide OutsideOk, LogOk, ResumeOk, LeaseOk, RunOk, QueueOk, WaitOk, Progress;
    FirstExecutingIsNewest(s, {Succeeded}, recoveryMax);
    if NewestIs(s.proposals, Executing) {
      assert ProposalOk(s.proposals[|s.proposals| - 1], recoveryMax);
    } else {
      forall i | 0 <= i < |s.proposals| ensures s.proposals[i].intent.status != Executing {
        assert i < |s.proposals| - 1 ==> Retired(s.proposals[i]);
      }
    }
  }

  /** A heartbeat is answered with whether the lease was still held, and then the lease lasts exactly as
      long as asked for from this moment: it is held until then and stale from then on. */
  lemma HeartbeatExtends(s: Rows, h: ClaimedJob, now: Time, duration: Time)
    ensures
      var o := Heartbeat(s, h, now, duration);
      && o.Committed? && (o.value <==> ActiveLease(s.job, h, now)) && (!o.value ==> o.rows == s)
      && (o.value ==>
            && (forall k, t :: ActiveLease(o.rows.job, k, t) <==>
                                 k.token == h.token && k.attempt == h.attempt && t < now + duration)
            && (forall x, t :: Stale(o.rows, x, t) <==> t >= now + duration && s.run.graphVersion in x)
            && s.job.lease.Some?
            && o.rows == s.(job := s.job.(lease := Some(Lease(s.job.lease.value.worker, h.token, now + duration)))))
  {
  }

  /** Whoever does not hold the lease any more is told so by every call. */
  lemma LostLeaseIsTold(s: Rows, h: ClaimedJob, executable: set<int>, publishes: bool, request: RequestId,
                        category: Category, recoveryMax: int, now: Time, delay: Time)
    requires !ActiveLease(s.job, h, now)
    ensures PrepareClaimedJob(s, h, executable, now) == Committed(s, LeaseLost)
    ensures Complete(s, h, publishes, now) == Committed(s, false)
    ensures WaitForApproval(s, h, request, now) == Committed(s, false)
    ensures Requeue(s, h, category, now, delay) == Committed(s, false)
    ensures FailJob(s, h, category, recoveryMax, now, delay) == Committed(s, false)
    ensures CancelJob(s, h, category, now, delay) == Committed(s, false)
    ensures Release(s, h, category, now, delay) == Committed(s, false)
  {
    hide FirstWith, FindRequest, Converge, GiveUpInDoubt, StartRun;
  }

  // ---- How a run ends -------------------------------------------------------

  /** The job row given up, and when it may be claimed again. */
  function GivenUp(job: Job, status: JobStatus, summary: Option<Category>, availableAt: Time): Job
  {
    Job(status, job.attempt, job.maxAttempts, availableAt, None, job.resumeRequest, summary)
  }

  /** The run row of a run that has ended without a result. */
  function EndedRun(s: Rows, status: RunStatus, category: Option<Category>, now: Time): Run
  {
    Run(s.run.mode, s.run.graphVersion, status,
        if status == RunFailed && s.run.startedAt.None? then Some(now) else s.run.startedAt,
        Some(TerminalTime(s.run, now)), s.run.cancelRequestedAt, category, s.run.hasResult, s.run.nextEventSeq)
  }

  /** The run of `s` ended as cancelled for this reason, and nothing else but the job row changed. */
  predicate RunIsCancelled(s: Rows, t: Rows, job: Job, reason: Category, now: Time)
  {
    Becomes(s, t, s.(job := job, run := EndedRun(s, RunCancelled, s.run.errorCategory, now)),
            [RunCancelledEvent(s.run.status, reason)])
  }

  /** The run of `s` ended as failed with this category; `kinds` are the events before that. */
  predicate RunIsFailed(s: Rows, t: Rows, job: Job, category: Category, kinds: seq<EventKind>, now: Time)
  {
    Becomes(s, t, s.(job := job, run := EndedRun(s, RunFailed, Some(category), now)),
            kinds + [RunFailedEvent(category)])
  }

  lemma CancellingWrites(s: Rows, job: Job, reason: Category, now: Time)
    requires !Terminal(s.run.status)
    ensures RunIsCancelled(s, MarkRunCancelled(s.(job := job), reason, now), job, reason, now)
  {
  }

  lemma FailingWrites(s: Rows, job: Job, category: Category, now: Time)
    requires !Terminal(s.run.status)
    ensures RunIsFailed(s, MarkRunFailed(s.(job := job), category, now), job, category, [], now)
    ensures
      forall attempt ::
        var kind := JobDeadEvent(attempt, category);
        RunIsFailed(s, MarkRunFailed(Append(s.(job := job), kind), category, now), job, category, [kind], now)
  {
  }

  /** A settled call ends its run: cancelled with the removal or the user's request as reason exactly if
      the call is known not to have happened for that reason and the reason still stands, and
      otherwise failed, with the category that says whether the outcome is known. */
  lemma SettledCallEndsRun(s: Rows, now: Time, recoveryMax: int)
    requires Inv(s, recoveryMax) && s.run.status == RunRunning
    requires NewestIs(s.proposals, Failed) || NewestIs(s.proposals, OutcomeUnknown)
    ensures Newest(s.proposals).invocation.Some?
    ensures
      var p, t := Newest(s.proposals), Converged(s, now);
      if s.run.cancelRequestedAt.Some? && KnownAbsent(p, CancelledConfirmedAbsent) then
        RunIsCancelled(s, t, GivenUp(s.job, JobDone, None, s.job.availableAt), UserRequested, now)
      else if !s.memberActive && KnownAbsent(p, AuthorizationRevoked) then
        RunIsCancelled(s, t, GivenUp(s.job, JobDone, None, s.job.availableAt), AuthorizationRevoked, now)
      else
        var category := if p.intent.status == Failed then ExternalActionFailed else ExternalOutcomeUnknown;
        RunIsFailed(s, t, GivenUp(s.job, JobDone, Some(category), s.job.availableAt), category, [], now)
  {
    hide Inv, RunIsCancelled, RunIsFailed;
    ActedIsLinked(s, |s.proposals| - 1, recoveryMax);
    var p := Newest(s.proposals);
    var category := if p.intent.status == Failed then ExternalActionFailed else ExternalOutcomeUnknown;
    CancellingWrites(s, GivenUp(s.job, JobDone, None, s.job.availableAt), UserRequested, now);
    CancellingWrites(s, GivenUp(s.job, JobDone, None, s.job.availableAt), AuthorizationRevoked, now);
    FailingWrites(s, GivenUp(s.job, JobDone, Some(category), s.job.availableAt), category, now);
    hide MarkRunFailed, MarkRunCancelled;
  }

  /** In any rows, a job that is still leased although its run has ended is given up without touching the run:
      as done, and as dead only by a failing worker, whose category it then keeps. */
  lemma EndedRunIsLeftAlone(s: Rows, h: ClaimedJob, executable: set<int>, publishes: bool, category: Category,
                            recoveryMax: int, now: Time, delay: Time)
    requires ActiveLease(s.job, h, now) && Terminal(s.run.status)
    requires forall i :: 0 <= i < |s.proposals| ==> s.proposals[i].intent.status !in {Executing, Failed, OutcomeUnknown}
    ensures
      var done := s.(job := GivenUp(s.job, JobDone, None, s.job.availableAt));
      && PrepareClaimedJob(s, h, executable, now) == Committed(done, Finished)
      && Complete(s, h, publishes, now) == Committed(done, true)
      && CancelJob(s, h, category, now, delay) == Committed(done, true)
      && ReclaimOne(s, recoveryMax, now, delay) == Committed(done, FinishedJob)
    ensures
      FailJob(s, h, category, recoveryMax, now, delay) ==
        Committed(s.(job := GivenUp(s.job, JobDead, Some(category), s.job.availableAt)), true)
  {
    hide Converge, GiveUpInDoubt, StartRun, ReclaimIdle;
  }

  /** With a lost call in an ended run a failing worker leaves its job done, with its category. */
  lemma EndedLossIsDone(s: Rows, h: ClaimedJob, category: Category, recoveryMax: int, now: Time, delay: Time, i: nat)
    requires ActiveLease(s.job, h, now) && Terminal(s.run.status)
    requires i < |s.proposals| && s.proposals[i].intent.status in {Failed, OutcomeUnknown}
    requires forall j :: 0 <= j < i ==> s.proposals[j].intent.status !in ACTED
    ensures
      FailJob(s, h, category, recoveryMax, now, delay) ==
        Committed(s.(job := GivenUp(s.job, JobDone, Some(category), s.job.availableAt)), true)
  {
    hide Converge, GiveUpInDoubt, ActiveLease;
    ActedIsFirst(s.proposals, i);
  }

  lemma {:induction false} ActedIsFirst(ps: seq<Proposal>, i: nat, from: nat := 0)
    requires from <= i < |ps| && ps[i].intent.status in ACTED
    requires forall j :: from <= j < i ==> ps[j].intent.status !in ACTED
    ensures FirstWith(ps, ACTED, from) == Some(i)
    decreases i - from
  {
    if from < i { ActedIsFirst(ps, i, from + 1); }
  }

  /** In any rows, a claim may resume on its request exactly if the request exists and is not consumed, or its
      consumption is allowed for and the whole group agrees with it: the binding, the arguments, and an
      invocation that fits a prepared, executing or succeeded action. */
  lemma ResumeIsChecked(s: Rows, h: ClaimedJob, allowConsumed: bool, i: nat)
    requires h.resumeRequest.Some? && i < |s.proposals| && HasRequest(s.proposals[i], h.resumeRequest.value)
    requires forall j :: 0 <= j < i ==> !HasRequest(s.proposals[j], h.resumeRequest.value)
    ensures
      var p := s.proposals[i];
      var r, v := p.request.value, p.invocation;
      ResumeFault(s, h, allowConsumed).None? <==>
        || r.status != Consumed
        || (allowConsumed && r.consumedAt.Some?
            && r.binding == Binding(p.intent.id, p.intent.revision, p.intent.args)
            && v.Some? && v.value.args == p.intent.args
            && ((p.intent.status == Authorized && v.value.status == InvPrepared && v.value.attempt == 0)
                || (p.intent.status == Executing && v.value.status == InvExecuting && v.value.attempt >= 1)
                || (p.intent.status == Succeeded && v.value.status == InvSucceeded && v.value.attempt >= 1)))
  {
    RequestIsFirst(s.proposals, h.resumeRequest.value, i);
  }

  lemma {:induction false} RequestIsFirst(ps: seq<Proposal>, id: RequestId, i: nat, from: nat := 0)
    requires from <= i < |ps| && HasRequest(ps[i], id) && forall j :: from <= j < i ==> !HasRequest(ps[j], id)
    ensures FindRequest(ps, id, from) == Some(i)
    decreases i - from
  {
    if from < i { RequestIsFirst(ps, id, i, from + 1); }
  }

  // ---- prepare_claimed_job --------------------------------------------------

  /** What the holder of a lease is told, and what becomes of the run. */
  lemma HolderIsTold(s: Rows, h: ClaimedJob, executable: set<int>, now: Time, recoveryMax: int)
    requires Inv(s, recoveryMax) && h in s.issued && ActiveLease(s.job, h, now)
    ensures
      var o := PrepareClaimedJob(s, h, executable, now);
      var done := GivenUp(s.job, JobDone, None, s.job.availableAt);
      if NewestIs(s.proposals, Executing) && Barred(s) then
        var p := Newest(s.proposals);
        p.request.Some? && o == Committed(s, RecoverAction(Identity(p.intent.id, p.request.value.id)))
      else if NewestIs(s.proposals, Failed) || NewestIs(s.proposals, OutcomeUnknown) then
        Newest(s.proposals).invocation.Some? && o == Committed(Converged(s, now), Finished)
      else
        && o.Committed?
        && if !s.memberActive then
             o.value == Finished && RunIsCancelled(s, o.rows, done, AuthorizationRevoked, now)
           else if s.run.graphVersion !in executable then
             && o.value == Finished
             && RunIsFailed(s, o.rows, GivenUp(s.job, JobDead, Some(UnsupportedGraphVersion), s.job.availableAt),
                            UnsupportedGraphVersion, [JobDeadEvent(h.attempt, UnsupportedGraphVersion)], now)
           else if s.run.cancelRequestedAt.Some? then
             o.value == Finished && RunIsCancelled(s, o.rows, done, UserRequested, now)
           else
             && o.value == Execute
             && Becomes(s, o.rows,
                  s.(executing := Some(h.token),
                     run := s.run.(status := RunRunning,
                                   startedAt := if s.run.status == RunQueued then Some(now) else s.run.startedAt)),
                  if s.run.status == RunRunning then [] else [RunStatusChanged(s.run.status, RunRunning)])
  {
    hide Inv, FirstWith, StartRun, Converge, RunIsCancelled, RunIsFailed, Becomes, MarkRunCancelled, MarkRunFailed;
    LeasedIsLive(s, recoveryMax);
    GenuineHolder(s, h, now, recoveryMax);
    FirstExecutingIsNewest(s, {Executing}, recoveryMax);
    FirstExecutingIsNewest(s, {Failed, OutcomeUnknown}, recoveryMax);
    CancellingWrites(s, GivenUp(s.job, JobDone, None, s.job.availableAt), AuthorizationRevoked, now);
    CancellingWrites(s, GivenUp(s.job, JobDone, None, s.job.availableAt), UserRequested, now);
    FailingWrites(s, GivenUp(s.job, JobDead, Some(UnsupportedGraphVersion), s.job.availableAt),
                  UnsupportedGraphVersion, now);
    if s.proposals != [] && Newest(s.proposals).intent.status in ACTED {
      ActedIsLinked(s, |s.proposals| - 1, recoveryMax);
    }
    if CallLost(s.proposals) { SettledConverges(s, now, recoveryMax); }
    else { HolderStarts(s, h, now, recoveryMax); }
  }

  lemma SettledConverges(s: Rows, now: Time, recoveryMax: int)
    requires Inv(s, recoveryMax) && CallLost(s.proposals)
    ensures Newest(s.proposals).invocation.Some?
    ensures Converge(s, |s.proposals| - 1, now) == Committed(Converged(s, now), ())
  {
    hide Inv, ConvergedVerdict, MarkRunFailed, MarkRunCancelled;
    ActedIsLinked(s, |s.proposals| - 1, recoveryMax);
  }

  /** Nothing bars the run: the holder executes it, and a run that did not run yet or slept runs now. */
  lemma HolderStarts(s: Rows, h: ClaimedJob, now: Time, recoveryMax: int)
    requires Inv(s, recoveryMax) && h in s.issued && ActiveLease(s.job, h, now) && !CallLost(s.proposals)
    ensures
      !Barred(s) ==>
        var o := StartRun(s, h, now);
        && o.Committed? && o.value == Execute
        && Becomes(s, o.rows,
             s.(executing := Some(h.token),
                run := s.run.(status := RunRunning,
                              startedAt := if s.run.status == RunQueued then Some(now) else s.run.startedAt)),
             if s.run.status == RunRunning then [] else [RunStatusChanged(s.run.status, RunRunning)])
  {
    hide Inv, ResumeFault;
    if !Barred(s) { StartRunKeeps(s, h, now, recoveryMax); }
  }

  // ---- complete, wait_for_approval ------------------------------------------

  /** The executing holder completes the run unless a cancellation is pending or, for a publication, the
      creator was removed: then the run ends as cancelled for that reason. */
  lemma CompletionEndsRun(s: Rows, h: ClaimedJob, publishes: bool, now: Time, recoveryMax: int)
    requires Inv(s, recoveryMax) && h in s.issued && ActiveLease(s.job, h, now)
    ensures
      var o := Complete(s, h, publishes, now);
      var done := GivenUp(s.job, JobDone, None, s.job.availableAt);
      if s.run.cancelRequestedAt.Some? then
        o.Committed? && o.value && RunIsCancelled(s, o.rows, done, UserRequested, now)
      else if s.run.status != RunRunning then o == Raised(Broken(CompletedRunNotRunning))
      else if publishes && !s.memberActive then
        o.Committed? && o.value && RunIsCancelled(s, o.rows, done, AuthorizationRevoked, now)
      else
        && o.Committed? && o.value
        && Becomes(s, o.rows,
             s.(job := done,
                run := Run(s.run.mode, s.run.graphVersion, RunCompleted, s.run.startedAt,
                           Some(TerminalTime(s.run, now)), None, None, true, s.run.nextEventSeq)),
             [RunCompletedEvent])
  {
    hide ProposalsOk, OutsideOk, LogOk, ResumeOk, JobOk, QueueOk, WaitOk, TerminalTime;
    LeasedIsLive(s, recoveryMax);
  }

  /** The first pause of an executing application run puts job and run to rest. */
  lemma PauseRests(s: Rows, h: ClaimedJob, request: RequestId, now: Time, recoveryMax: int)
    requires Inv(s, recoveryMax) && h in s.issued && ActiveLease(s.job, h, now)
    ensures
      var o, found := WaitForApproval(s, h, request, now), FindRequest(s.proposals, request);
      && (o.Committed? <==>
            && found.Some? && s.run.status == RunRunning
            && if s.job.resumeRequest.None? then s.proposals[found.value].request.value.status == Pending
               else s.job.resumeRequest == Some(request) && s.proposals[found.value].request.value.status != Consumed)
      && (o.Committed? ==>
            && o.value
            && Becomes(s, o.rows, s.(job := GivenUp(s.job, JobDone, None, s.job.availableAt),
                                     run := s.run.(status := RunWaiting)),
                       [RunStatusChanged(RunRunning, RunWaiting)]))
  {
    hide ProposalsOk, OutsideOk, LogOk, ResumeOk, JobOk, QueueOk, WaitOk, FindRequest, RunOk;
    LeasedIsLive(s, recoveryMax);
    GenuineHolder(s, h, now, recoveryMax);
  }

  /** In any rows, a pause by the holder commits exactly if the run is running and not a resume, and either
      neither job nor claim carries a resume identity and the request is pending, or both carry this
      request and it is not consumed. */
  lemma PauseIsChecked(s: Rows, h: ClaimedJob, request: RequestId, now: Time, i: nat)
    requires ActiveLease(s.job, h, now) && i < |s.proposals| && HasRequest(s.proposals[i], request)
    requires forall j :: 0 <= j < i ==> !HasRequest(s.proposals[j], request)
    ensures
      var status := s.proposals[i].request.value.status;
      WaitForApproval(s, h, request, now).Committed? <==>
        && s.run.mode != RunMode.Resume && s.run.status == RunRunning
        && ((s.job.resumeRequest.None? && h.resumeRequest.None? && status == Pending)
            || (s.job.resumeRequest == Some(request) && h.resumeRequest == Some(request) && status != Consumed))
  {
    RequestIsFirst(s.proposals, request, i);
    hide FindRequest, HasRequest;
  }

  // ---- requeue, release, fail, cancel ---------------------------------------

  /** A retry or a release by the holder queues the job again after the delay, with the given summary; a
      retry ends the run instead if a cancellation is pending and no call is in doubt, and a
      release is refused to the last attempt. */
  lemma JobIsGivenBack(s: Rows, h: ClaimedJob, category: Category, now: Time, delay: Time, recoveryMax: int)
    requires Inv(s, recoveryMax) && ActiveLease(s.job, h, now)
    ensures
      var o := Requeue(s, h, category, now, delay);
      && o.Committed? && o.value
      && if s.run.cancelRequestedAt.Some? && s.run.status == RunRunning && !NewestIs(s.proposals, Executing)
         then RunIsCancelled(s, o.rows, GivenUp(s.job, JobDone, None, now + delay), UserRequested, now)
         else o.rows == s.(job := GivenUp(s.job, JobQueued, Some(category), now + delay))
    ensures
      Release(s, h, category, now, delay) ==
        if s.job.attempt == s.job.maxAttempts then Committed(s, false)
        else Committed(s.(job := GivenUp(s.job, JobQueued, Some(category), now + delay)), true)
  {
    hide Inv, FirstWith, RunIsCancelled, MarkRunCancelled;
    JobIsOk(s, recoveryMax);
    LeasedIsLive(s, recoveryMax);
    FirstExecutingIsNewest(s, {Executing}, recoveryMax);
    CancellingWrites(s, GivenUp(s.job, JobDone, None, now + delay), UserRequested, now);
  }

  /** The rows after a call in doubt is given up for good: its outcome is unknown, the run has failed. */
  predicate DoubtIsClosed(s: Rows, t: Rows, kinds: seq<EventKind>, now: Time)
    requires s.proposals != [] && Newest(s.proposals).invocation.Some?
  {
    var n, unknown := |s.proposals| - 1, Some(ExternalOutcomeUnknown);
    var p := s.proposals[n];
    Becomes(s, t,
      s.(proposals := s.proposals[n := WithOutcome(p, OutcomeUnknown, InvUnknown, unknown,
                                                Evidence(RecoveryExhausted, None), now)],
         job := GivenUp(s.job, JobDone, unknown, s.job.availableAt),
         run := EndedRun(s, RunFailed, unknown, now)),
      kinds + [ActionOutcomeUnknown(p.intent.id), RunFailedEvent(ExternalOutcomeUnknown)])
  }

  lemma ClosingWrites(s: Rows, kinds: seq<EventKind>, now: Time)
    requires s.proposals != [] && Newest(s.proposals).invocation.Some? && !Terminal(s.run.status) && |kinds| <= 1
    ensures
      var n, unknown := |s.proposals| - 1, ExternalOutcomeUnknown;
      var before := if kinds == [] then s else Append(s, kinds[0]);
      var closed := MarkUnknown(SetJob(before, JobDone, Some(unknown)), n, EXHAUSTED, now);
      DoubtIsClosed(s, MarkRunFailed(closed, unknown, now), kinds, now)
  {
  }

  /** A failing worker: a call in doubt is kept for recovery while the bound allows and closed after that,
      a settled call ends the run as it settled, a pending cancellation cancels it, and
      otherwise job and run fail with the worker's category. */
  lemma WorkerFails(s: Rows, h: ClaimedJob, category: Category, now: Time, delay: Time, recoveryMax: int)
    requires Inv(s, recoveryMax) && h in s.issued && ActiveLease(s.job, h, now)
    ensures
      var o := FailJob(s, h, category, recoveryMax, now, delay);
      && o.Committed? && o.value
      && if NewestIs(s.proposals, Executing) then
           if Newest(s.proposals).intent.recoveryAttempts < recoveryMax
           then o.rows == s.(job := GivenUp(s.job, JobQueued, Some(ActionRecoveryRequired), now + delay))
           else Newest(s.proposals).invocation.Some? && DoubtIsClosed(s, o.rows, [], now)
         else if NewestIs(s.proposals, Failed) || NewestIs(s.proposals, OutcomeUnknown) then
           Newest(s.proposals).invocation.Some? && o.rows == Converged(s, now)
         else if s.run.cancelRequestedAt.Some? then
           RunIsCancelled(s, o.rows, GivenUp(s.job, JobDone, None, s.job.availableAt), UserRequested, now)
         else
           RunIsFailed(s, o.rows, GivenUp(s.job, JobDead, Some(category), s.job.availableAt), category,
                       [JobDeadEvent(s.job.attempt, category)], now)
  {
    hide Inv, FirstWith, Converge, RunIsCancelled, RunIsFailed, DoubtIsClosed, MarkRunCancelled, MarkRunFailed,
      MarkUnknown;
    LeasedIsLive(s, recoveryMax);
    GenuineHolder(s, h, now, recoveryMax);
    FirstExecutingIsNewest(s, ACTED, recoveryMax);
    CancellingWrites(s, GivenUp(s.job, JobDone, None, s.job.availableAt), UserRequested, now);
    FailingWrites(s, GivenUp(s.job, JobDead, Some(category), s.job.availableAt), category, now);
    if s.proposals != [] && Newest(s.proposals).intent.status in ACTED {
      ActedIsLinked(s, |s.proposals| - 1, recoveryMax);
      ClosingWrites(s, [], now);
    }
    if CallLost(s.proposals) { SettledConverges(s, now, recoveryMax); }
  }

  /** A worker that gives up because its run is cancelled: a call in doubt is kept for recovery, a settled
      call ends the run as it settled, and otherwise the run is cancelled, for the user's
      request or the removal before the worker's own reason. */
  lemma WorkerCancels(s: Rows, h: ClaimedJob, reason: Category, now: Time, delay: Time, recoveryMax: int)
    requires Inv(s, recoveryMax) && h in s.issued && ActiveLease(s.job, h, now)
    ensures
      var o := CancelJob(s, h, reason, now, delay);
      && o.Committed? && o.value
      && if NewestIs(s.proposals, Executing) then
           o.rows == s.(job := GivenUp(s.job, JobQueued, Some(ActionRecoveryRequired), now + delay))
         else if NewestIs(s.proposals, Failed) || NewestIs(s.proposals, OutcomeUnknown) then
           Newest(s.proposals).invocation.Some? && o.rows == Converged(s, now)
         else
           RunIsCancelled(s, o.rows, GivenUp(s.job, JobDone, None, s.job.availableAt),
                          if s.run.cancelRequestedAt.Some? then UserRequested
                          else if s.memberActive then reason else AuthorizationRevoked, now)
  {
    hide Inv, FirstWith, Converge, RunIsCancelled, MarkRunCancelled;
    LeasedIsLive(s, recoveryMax);
    FirstExecutingIsNewest(s, {Executing, Failed, OutcomeUnknown}, recoveryMax);
    CancellingWrites(s, GivenUp(s.job, JobDone, None, s.job.availableAt), UserRequested, now);
    CancellingWrites(s, GivenUp(s.job, JobDone, None, s.job.availableAt), AuthorizationRevoked, now);
    CancellingWrites(s, GivenUp(s.job, JobDone, None, s.job.availableAt), reason, now);
    if CallLost(s.proposals) { SettledConverges(s, now, recoveryMax); }
  }

  // ---- reclaim_stale_leases -------------------------------------------------

  /** A stale job: as for a failing worker, except that a call that succeeded is retried beyond the
      ordinary attempts, and an idle run is retried while an attempt is left. */
  lemma StaleJobIsReclaimed(s: Rows, executable: set<int>, now: Time, delay: Time, recoveryMax: int)
    requires Inv(s, recoveryMax) && Stale(s, executable, now)
    ensures
      var o := ReclaimOne(s, recoveryMax, now, delay);
      var expired := [JobLeaseExpired(s.job.attempt)];
      && o.Committed?
      && if NewestIs(s.proposals, Executing) then
           if Newest(s.proposals).intent.recoveryAttempts < recoveryMax
           then o.value == Requeued && JobIsRetried(s, o.rows, ActionRecoveryRequired, now + delay)
           else
             && o.value == FinishedJob && Newest(s.proposals).invocation.Some?
             && DoubtIsClosed(s, o.rows, expired, now)
         else if NewestIs(s.proposals, Failed) || NewestIs(s.proposals, OutcomeUnknown) then
           o.value == FinishedJob && Newest(s.proposals).invocation.Some? && o.rows == Converged(s, now)
         else if NewestIs(s.proposals, Succeeded) && s.job.attempt < s.job.maxAttempts + recoveryMax then
           o.value == Requeued && JobIsRetried(s, o.rows, TerminalActionConvergence, now + delay)
         else if s.run.cancelRequestedAt.Some? then
           && o.value == FinishedJob
           && RunIsCancelled(s, o.rows, GivenUp(s.job, JobDone, None, s.job.availableAt), UserRequested, now)
         else if s.job.attempt < s.job.maxAttempts then
           o.value == Requeued && JobIsRetried(s, o.rows, LeaseExpired, now + delay)
         else
           var category := if s.run.status == RunWaiting then UnexpectedWaitingApproval else JobAttemptsExhausted;
           && o.value == DeadJob
           && RunIsFailed(s, o.rows, GivenUp(s.job, JobDead, Some(category), s.job.availableAt), category,
                          expired + [JobDeadEvent(s.job.attempt, category)], now)
  {
    hide Inv, FirstWith, Converge, ReclaimIdle, RunIsCancelled, RunIsFailed, DoubtIsClosed, MarkRunCancelled,
      MarkRunFailed, MarkUnknown;
    LeasedIsLive(s, recoveryMax);
    FirstExecutingIsNewest(s, ACTED, recoveryMax);
    CancellingWrites(s, GivenUp(s.job, JobDone, None, s.job.availableAt), UserRequested, now);
    IdleJobIsReclaimed(s, now, delay, recoveryMax);
    if s.proposals != [] && Newest(s.proposals).intent.status in ACTED {
      ActedIsLinked(s, |s.proposals| - 1, recoveryMax);
      ClosingWrites(s, [JobLeaseExpired(s.job.attempt)], now);
    }
    if CallLost(s.proposals) { SettledConverges(s, now, recoveryMax); }
  }

  lemma IdleJobIsReclaimed(s: Rows, now: Time, delay: Time, recoveryMax: int)
    requires Inv(s, recoveryMax) && s.job.status == JobLeased
    ensures
      var t, expired := Append(s, JobLeaseExpired(s.job.attempt)), [JobLeaseExpired(s.job.attempt)];
      var o := ReclaimIdle(t, now, delay);
      && o.Committed?
      && if s.job.attempt < s.job.maxAttempts
         then o.value == Requeued && JobIsRetried(s, o.rows, LeaseExpired, now + delay)
         else
           var category := if s.run.status == RunWaiting then UnexpectedWaitingApproval else JobAttemptsExhausted;
           && o.value == DeadJob
           && RunIsFailed(s, o.rows, GivenUp(s.job, JobDead, Some(category), s.job.availableAt), category,
                          expired + [JobDeadEvent(s.job.attempt, category)], now)
  {
    hide Inv, FindRequest, RunIsFailed, KillJob;
    JobIsOk(s, recoveryMax);
    LeasedIsLive(s, recoveryMax);
    ResumeRequestIsFound(s, recoveryMax);
    DyingWrites(s, if s.run.status == RunWaiting then UnexpectedWaitingApproval else JobAttemptsExhausted, now);
    if s.run.status == RunWaiting { WaitingJobHasRequest(s, recoveryMax); }
  }

  lemma WaitingJobHasRequest(s: Rows, recoveryMax: int)
    requires Inv(s, recoveryMax) && s.job.status == JobLeased && s.run.status == RunWaiting
    ensures s.job.resumeRequest.Some?
  {
  }

  lemma DyingWrites(s: Rows, category: Category, now: Time)
    requires !Terminal(s.run.status)
    ensures
      var expired := JobLeaseExpired(s.job.attempt);
      RunIsFailed(s, KillJob(Append(s, expired), category, now),
                  GivenUp(s.job, JobDead, Some(category), s.job.availableAt), category,
                  [expired] + [JobDeadEvent(s.job.attempt, category)], now)
  {
  }

  lemma ResumeRequestIsFound(s: Rows, recoveryMax: int)
    requires Inv(s, recoveryMax)
    ensures s.job.resumeRequest.Some? ==> FindRequest(s.proposals, s.job.resumeRequest.value).Some?
  {
    hide FindRequest;
    if s.job.resumeRequest.Some? {
      var k :| 0 <= k < |s.proposals| && HasRequest(s.proposals[k], s.job.resumeRequest.value);
      RequestFound(s, k, recoveryMax);
    }
  }

  predicate JobIsRetried(s: Rows, t: Rows, summary: Category, availableAt: Time)
  {
    Becomes(s, t, s.(job := GivenUp(s.job, JobQueued, Some(summary), availableAt)), [JobLeaseExpired(s.job.attempt)])
  }

  // ---- cancel_run -----------------------------------------------------------

  /** An authorized user ends a queued or waiting run at once, with the open action of a waiting run, and
      asks a running one to stop; a run that has ended stays as it is. */
  lemma UserCancels(s: Rows, authorized: bool, now: Time, recoveryMax: int)
    requires Inv(s, recoveryMax)
    ensures
      var o := CancelRunByUser(s, authorized, now);
      var done := GivenUp(s.job, JobDone, None, s.job.availableAt);
      if !authorized then o == Raised(NotFound)
      else match s.run.status
        case RunQueued =>
          && o.Committed? && o.value == RunCancelled
          && Becomes(s, o.rows, s.(job := done, run := s.run.(status := RunCancelled, finishedAt := Some(now))),
                     [RunCancelledEvent(RunQueued, UserRequested)])
        case RunRunning =>
          var asked := if s.run.cancelRequestedAt.Some? then s.run.cancelRequestedAt else Some(now);
          o == Committed(s.(run := s.run.(cancelRequestedAt := asked)), RunRunning)
        case RunWaiting =>
          && o.Committed? && o.value == RunCancelled && s.proposals != [] && Newest(s.proposals).request.Some?
          && s.run.startedAt.Some? && WaitIsClosed(s, o.rows, now)
        case _ => o == Committed(s, s.run.status)
  {
    hide OutsideOk, LogOk, ResumeOk, LeaseOk, QueueOk, FirstWith, CancelWaiting, WaitIsClosed;
    FirstExecutingIsNewest(s, {Proposed, Authorized}, recoveryMax);
    if s.run.status == RunWaiting { ClosingTheWait(s, now, recoveryMax); }
  }

  /** The wait of `s` ended: its open request expired, its action and its run cancelled. */
  predicate WaitIsClosed(s: Rows, t: Rows, now: Time)
    requires s.proposals != [] && Newest(s.proposals).request.Some? && s.run.startedAt.Some?
  {
    var n, started := |s.proposals| - 1, s.run.startedAt.value;
    var p := s.proposals[n];
    var r := p.request.value;
    var open := r.status == Pending || r.status == Approved;
    Becomes(s, t,
      s.(proposals := s.proposals[n := p.(
           intent := p.intent.(status := Cancelled),
           request := Some(if open then Request(r.id, Expired, r.binding, r.version + 1, r.expiresAt, r.consumedAt)
                           else r))],
         job := GivenUp(s.job, JobDone, None, s.job.availableAt),
         run := s.run.(status := RunCancelled, finishedAt := Some(if now < started then started else now))),
      (if open then [ApprovalExpiredEvent(p.intent.id, r.id, p.intent.revision, ExpiredByUser)] else [])
      + [ActionCancelledEvent(p.intent.id, r.id, CancelledByUser), RunCancelledEvent(RunWaiting, UserRequested)])
  }

  lemma ClosingTheWait(s: Rows, now: Time, recoveryMax: int)
    requires Inv(s, recoveryMax) && s.run.status == RunWaiting
    ensures s.proposals != [] && Newest(s.proposals).request.Some? && s.run.startedAt.Some?
    ensures
      var o := CancelWaiting(s, now);
      o.Committed? && o.value == RunCancelled && WaitIsClosed(s, o.rows, now)
  {
    FirstExecutingIsNewest(s, {Proposed, Authorized}, recoveryMax);
    assert ProposalOk(s.proposals[|s.proposals| - 1], recoveryMax);
    assert s.proposals[|s.proposals| - 1].intent.status == Proposed && s.run.startedAt.Some?;
    hide Inv, ProposalOk;
    ClosingWritesTheWait(s, now);
  }

  lemma ClosingWritesTheWait(s: Rows, now: Time)
    requires FirstWith(s.proposals, {Proposed, Authorized}) == Some(|s.proposals| - 1) && s.proposals != []
    requires Newest(s.proposals).request.Some? && Newest(s.proposals).request.value.status != Consumed
    requires s.job.status != JobDead && s.run.startedAt.Some?
    ensures
      var o := CancelWaiting(s, now);
      o.Committed? && o.value == RunCancelled && WaitIsClosed(s, o.rows, now)
  {
    hide FirstWith;
  }

  /** The action at `i` is open, and the only one that is. */
  predicate OnlyOpen(ps: seq<Proposal>, i: nat)
  {
    && i < |ps| && ps[i].intent.status in {IntentStatus.Proposed, Authorized}
    && forall j :: 0 <= j < |ps| && j != i ==> ps[j].intent.status !in {IntentStatus.Proposed, Authorized}
  }

  /** In any rows, a cancellation finds too many open actions exactly if there are two. */
  lemma SeveralAreRefused(s: Rows, authorized: bool, now: Time)
    ensures
      CancelRunByUser(s, authorized, now) == Raised(Broken(SeveralActiveRequests)) <==>
        exists i, j :: 0 <= i < j < |s.proposals|
          && s.proposals[i].intent.status in {IntentStatus.Proposed, Authorized}
          && s.proposals[j].intent.status in {IntentStatus.Proposed, Authorized}
  {
    var ps, open := s.proposals, {IntentStatus.Proposed, Authorized};
    var first := FirstWith(ps, open);
    if first.Some? { OpenIsFirst(ps, first.value); }
  }

  lemma {:induction false} OpenIsFirst(ps: seq<Proposal>, i: nat, from: nat := 0)
    requires from <= |ps| && FirstWith(ps, {IntentStatus.Proposed, Authorized}, from) == Some(i)
    ensures forall j :: from <= j < i && j < |ps| ==> ps[j].intent.status !in {IntentStatus.Proposed, Authorized}
    decreases |ps| - from
  {
    if ps[from].intent.status !in {IntentStatus.Proposed, Authorized} { OpenIsFirst(ps, i, from + 1); }
  }

  /** In any rows, a waiting run with one open action is cancelled unless its approval is consumed, which is a
      conflict, or its job is dead or its request missing, which are consistency errors. */
  lemma WaitIsChecked(s: Rows, now: Time, i: nat)
    requires s.run.status == RunWaiting && OnlyOpen(s.proposals, i)
    ensures
      var r, o := s.proposals[i].request, CancelRunByUser(s, true, now);
      && (o.Committed? <==> r.Some? && r.value.status != Consumed && s.job.status != JobDead)
      && (o == Raised(Conflict) <==> r.Some? && r.value.status == Consumed)
  {
    SeveralAreRefused(s, true, now);
    assert FirstWith(s.proposals, {IntentStatus.Proposed, Authorized}) == Some(i);
    hide FirstWith;
  }

  /** In any rows, an idle job is retried exactly while an attempt is left and its run is queued, running, or
      waiting for a request that exists; a request that does not exist is a consistency error. */
  lemma IdleJobIsChecked(s: Rows, now: Time, delay: Time)
    ensures
      var o := ReclaimIdle(s, now, delay);
      var found := s.job.resumeRequest.Some?
                && exists i :: 0 <= i < |s.proposals| && HasRequest(s.proposals[i], s.job.resumeRequest.value);
      && (o.Committed? && o.value == Requeued <==>
            && s.job.attempt < s.job.maxAttempts
            && (s.run.status == RunQueued || s.run.status == RunRunning || (s.run.status == RunWaiting && found)))
      && (o.Raised? <==>
            s.job.attempt < s.job.maxAttempts && s.run.status == RunWaiting && s.job.resumeRequest.Some? && !found)
  {
    hide HasRequest;
  }
}
