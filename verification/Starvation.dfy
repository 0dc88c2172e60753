/** How the expiry sweep can starve: due requests of runs that do not wait are skipped but use up its
    limit, and exactly which steps give the place back. */
module Starvation {
  import opened Options
  import opened Rows
  import opened Actions
  import opened Approvals
  import opened ActionExecution
  import opened Jobs
  import opened Invariant
  import opened ExecutionProofs
  import opened JobProofs
  import opened ActionProofs
  import opened Protocol
  import opened Evolution
  import opened Replays
  import opened Tables
  import opened ApprovalStores

  // ---- Sweeps ---------------------------------------------------------------

  /** Every request that the sweep takes belongs to a run that does not wait. */
  predicate Blocked(rows: seq<Rows>, now: Time, limit: nat)
  {
    var taken := DueRuns(rows, now, limit);
    |taken| == limit && forall k :: 0 <= k < limit ==> rows[taken[k]].run.status != RunWaiting
  }

  /** A blocked sweep changes nothing, and any later one takes the same requests and expires none of
      them; the due requests of waiting runs outside the batch stay due. */
  lemma BlockedSweepStarves(rows: seq<Rows>, after: seq<Rows>, now: Time, later: Time, limit: nat, recoveryMax: int)
    requires AllGood(rows, recoveryMax) && ByExpiry(rows) && now <= later && Blocked(rows, now, limit)
    requires Sweeps(rows, after, DueRuns(rows, now, limit), now)
    ensures after == rows && DueRuns(after, later, limit) == DueRuns(rows, now, limit) && Blocked(after, later, limit)
    ensures SweepTally(rows, DueRuns(rows, now, limit), now).expired == 0
    ensures SweepTally(after, DueRuns(after, later, limit), later).expired == 0
    ensures forall i :: 0 <= i < |rows| && IsDue(rows[i], now) && rows[i].run.status == RunWaiting ==>
              IsDue(after[i], later) && i !in DueRuns(after, later, limit)
  {
    hide AllGood, SweepTally, SweptRows, SweepRequest;
    var taken := DueRuns(rows, now, limit);
    SweepProgress(rows, taken, now, recoveryMax);
    forall i | 0 <= i < |rows| ensures after[i] == rows[i] {
      if i in taken {
        var k :| 0 <= k < |taken| && taken[k] == i;
        assert SweptRows(rows[taken[k]], now) == rows[taken[k]];
      }
    }
    assert after == rows;
    FullBatchReturns(rows, now, later, limit);
    SweepProgress(rows, taken, later, recoveryMax);
  }

  // ---- Repeated sweeps ------------------------------------------------------

  /** A due request whose run waits for it. */
  predicate WaitsDue(s: Rows, now: Time) { IsDue(s, now) && s.run.status == RunWaiting }

  /** A run that uses up one place of the batch for nothing. */
  predicate Blocks(s: Rows, now: Time) { IsDue(s, now) && s.run.status != RunWaiting }

  function Blockers(rows: seq<Rows>, now: Time): nat
  {
    if rows == [] then 0 else
    var n := |rows| - 1;
    Blockers(rows[..n], now) + (if Blocks(rows[n], now) then 1 else 0)
  }

  function Waiters(rows: seq<Rows>, now: Time): nat
  {
    if rows == [] then 0 else
    var n := |rows| - 1;
    Waiters(rows[..n], now) + (if WaitsDue(rows[n], now) then 1 else 0)
  }

  /** Sweeps one after another while nobody else acts; the clock does not run backwards. */
  predicate Sweeping(states: seq<seq<Rows>>, clocks: seq<Time>, limit: nat)
  {
    && |states| == |clocks| + 1
    && (forall j, k :: 0 <= j <= k < |clocks| ==> clocks[j] <= clocks[k])
    && forall k :: 0 <= k < |clocks| ==>
         Sweeps(states[k], states[k + 1], DueRuns(states[k], clocks[k], limit), clocks[k])
  }

  lemma {:induction false} DueAreCounted(rows: seq<Rows>, now: Time, limit: nat)
    ensures
      var due := Blockers(rows, now) + Waiters(rows, now);
      |DueRuns(rows, now, limit)| == if due < limit then due else limit
  {
    hide IsDue;
    if rows != [] { DueAreCounted(rows[..|rows| - 1], now, limit); }
  }

  /** Every open request of the rows is due. */
  predicate AllDue(rows: seq<Rows>, now: Time)
  {
    forall j :: 0 <= j < |rows| && Open(rows[j]) ==> IsDue(rows[j], now)
  }

  /** What a sweep leaves of one run: nothing of it is due any more if it waited, and it is left as it
      is if it did not. */
  lemma SweptRun(s: Rows, now: Time, recoveryMax: int)
    requires Inv(s, recoveryMax) && IsDue(s, now)
    ensures var t := SweptRows(s, now); Inv(t, recoveryMax) && if s.run.status == RunWaiting then !Open(t) else t == s
  {
    hide Inv;
    SweepRequestKeeps(s, |s.proposals| - 1, now, recoveryMax);
  }

  /** One run in a sweep, with `before` due requests before it. */
  lemma OneMoves(s: Rows, t: Rows, before: nat, limit: nat, now: Time, later: Time, recoveryMax: int)
    requires Inv(s, recoveryMax) && (Open(s) ==> IsDue(s, now)) && now <= later
    requires t == if IsDue(s, now) && before < limit then SweptRows(s, now) else s
    ensures Open(t) ==> IsDue(t, later)
    ensures Blocks(t, later) <==> Blocks(s, now)
    ensures WaitsDue(t, later) <==> WaitsDue(s, now) && before >= limit
  {
    hide Inv, SweptRows;
    if IsDue(s, now) { SweptRun(s, now, recoveryMax); }
  }

  lemma CountsGrow(rows: seq<Rows>, now: Time, limit: nat, i: nat)
    requires i < |rows|
    ensures Blockers(rows[..i + 1], now) == Blockers(rows[..i], now) + (if Blocks(rows[i], now) then 1 else 0)
    ensures Waiters(rows[..i + 1], now) == Waiters(rows[..i], now) + (if WaitsDue(rows[i], now) then 1 else 0)
    ensures
      var d := |DueRuns(rows[..i], now, limit)|;
      |DueRuns(rows[..i + 1], now, limit)| == if IsDue(rows[i], now) && d < limit then d + 1 else d
    ensures AllDue(rows[..i + 1], now) <==> AllDue(rows[..i], now) && (Open(rows[i]) ==> IsDue(rows[i], now))
  {
    hide IsDue, Open;
    var longer := rows[..i + 1];
    assert longer[..i] == rows[..i] && longer[i] == rows[i];
    assert forall j :: 0 <= j < i ==> longer[j] == rows[..i][j];
  }

  lemma SweepsAt(rows: seq<Rows>, after: seq<Rows>, taken: seq<nat>, now: Time, i: nat, recoveryMax: int)
    requires Sweeps(rows, after, taken, now) && i < |rows| && AllGood(rows, recoveryMax)
    ensures |after| == |rows| && after[i] == if i in taken then SweptRows(rows[i], now) else rows[i]
    ensures Inv(rows[i], recoveryMax)
  {
    hide Inv;
  }

  /** How a sweep moves the rows before a position, all of them due: blockers stay, and it takes as
      many waiting runs away as the batch has places that blockers do not use. */
  lemma {:induction false} SweepMoves(rows: seq<Rows>, after: seq<Rows>, now: Time, later: Time, limit: nat, n: nat,
                                      recoveryMax: int)
    requires AllGood(rows, recoveryMax) && Sweeps(rows, after, DueRuns(rows, now, limit), now)
    requires n <= |rows| && AllDue(rows[..n], now) && now <= later
    ensures |after| == |rows| && AllDue(after[..n], later)
    ensures Blockers(after[..n], later) == Blockers(rows[..n], now)
    ensures Waiters(after[..n], later) + |DueRuns(rows[..n], now, limit)|
              <= Waiters(rows[..n], now) + Blockers(rows[..n], now)
  {
    if n > 0 {
      hide AllGood, Inv, DueRuns, Sweeps, Blockers, Waiters, AllDue, Blocks, WaitsDue, IsDue, Open, SweptRows;
      var i := n - 1;
      CountsGrow(rows, now, limit, i);
      SweepMoves(rows, after, now, later, limit, i, recoveryMax);
      CountsGrow(after, later, limit, i);
      TakenIffWithinLimit(rows, now, limit, i);
      SweepsAt(rows, after, DueRuns(rows, now, limit), now, i, recoveryMax);
      OneMoves(rows[i], after[i], |DueRuns(rows[..i], now, limit)|, limit, now, later, recoveryMax);
      DueIsOne(rows[i], now);
    } else {
      assert rows[..0] == [] && after[..0] == [];
    }
  }

  lemma DueIsOne(s: Rows, now: Time)
    ensures IsDue(s, now) <==> Blocks(s, now) || WaitsDue(s, now)
    ensures !(Blocks(s, now) && WaitsDue(s, now))
  {
  }

  lemma SweptAreGood(rows: seq<Rows>, after: seq<Rows>, taken: seq<nat>, now: Time, recoveryMax: int)
    requires AllGood(rows, recoveryMax) && Sweeps(rows, after, taken, now)
    requires forall k :: 0 <= k < |taken| ==> taken[k] < |rows| && IsDue(rows[taken[k]], now)
    ensures AllGood(after, recoveryMax)
  {
    hide Inv, IsDue, SweptRows;
    forall i | 0 <= i < |after| ensures Inv(after[i], recoveryMax) {
      if i in taken {
        var k :| 0 <= k < |taken| && taken[k] == i;
        SweptRun(rows[taken[k]], now, recoveryMax);
      }
    }
  }

  lemma OrderedAreDue(rows: seq<Rows>, now: Time, i: nat)
    requires ByExpiry(rows) && i < |rows| && IsDue(rows[i], now)
    ensures AllDue(rows[..i], now)
  {
  }

  /** While a due request of a waiting run is not taken, everything before it moves as one sweep moves it. */
  lemma {:induction false} PassedOver(states: seq<seq<Rows>>, clocks: seq<Time>, limit: nat, i: nat, n: nat,
                                      recoveryMax: int)
    requires Sweeping(states, clocks, limit) && n < |clocks| && AllGood(states[0], recoveryMax) && ByExpiry(states[0])
    requires i < |states[0]| && WaitsDue(states[0][i], clocks[0])
    requires forall k :: 0 <= k < n ==> i !in DueRuns(states[k], clocks[k], limit)
    ensures |states[n]| == |states[0]| && AllGood(states[n], recoveryMax) && states[n][i] == states[0][i]
    ensures AllDue(states[n][..i], clocks[n])
    ensures Blockers(states[n][..i], clocks[n]) == Blockers(states[0][..i], clocks[0])
    ensures Blockers(states[0][..i], clocks[0]) < limit ==>
              Waiters(states[n][..i], clocks[n]) + n <= Waiters(states[0][..i], clocks[0])
  {
    if n == 0 {
      OrderedAreDue(states[0], clocks[0], i);
    } else {
      hide AllGood, ByExpiry, WaitsDue, DueRuns, Sweeps, AllDue, Blockers, Waiters;
      var m := n - 1;
      var rows, now := states[m], clocks[m];
      PassedOver(states, clocks, limit, i, m, recoveryMax);
      assert Sweeps(rows, states[m + 1], DueRuns(rows, now, limit), now) && now <= clocks[n];
      WaitingStaysDue(states[0][i], clocks[0], now);
      SweepMoves(rows, states[n], now, clocks[n], limit, i, recoveryMax);
      SweepsAt(rows, states[n], DueRuns(rows, now, limit), now, i, recoveryMax);
      SweptAreGood(rows, states[n], DueRuns(rows, now, limit), now, recoveryMax);
      TakenIffWithinLimit(rows, now, limit, i);
      DueAreCounted(rows[..i], now, limit);
    }
  }

  lemma WaitingStaysDue(s: Rows, now: Time, later: Time)
    requires WaitsDue(s, now) && now <= later
    ensures IsDue(s, later) && WaitsDue(s, later)
  {
  }

  /** Exactly when the sweep starves: a due request of a waiting run is never taken, however many sweeps
      follow one another, exactly if as many due requests of runs that do not wait come before it as a
      batch takes.  Otherwise it is taken at the latest when every waiting run before it has been. */
  lemma SweepsStarve(states: seq<seq<Rows>>, clocks: seq<Time>, limit: nat, i: nat, recoveryMax: int)
    requires Sweeping(states, clocks, limit) && clocks != [] && AllGood(states[0], recoveryMax) && ByExpiry(states[0])
    requires i < |states[0]| && WaitsDue(states[0][i], clocks[0])
    ensures
      var blockers, waiters := Blockers(states[0][..i], clocks[0]), Waiters(states[0][..i], clocks[0]);
      && (blockers >= limit ==>
            forall n :: 0 <= n < |clocks| ==>
              |states[n]| == |states[0]| && states[n][i] == states[0][i] && i !in DueRuns(states[n], clocks[n], limit))
      && (blockers < limit && |clocks| > waiters ==>
            exists n :: 0 <= n <= waiters && i in DueRuns(states[n], clocks[n], limit))
      && (|clocks| > waiters ==>
            ((forall n :: 0 <= n < |clocks| ==> i !in DueRuns(states[n], clocks[n], limit)) <==> blockers >= limit))
  {
    SweepingHasStates(states, clocks, limit);
    hide AllGood, ByExpiry, WaitsDue, DueRuns, Sweeping, AllDue, Blockers, Waiters;
    var blockers, waiters := Blockers(states[0][..i], clocks[0]), Waiters(states[0][..i], clocks[0]);
    if blockers >= limit {
      forall n | 0 <= n < |clocks|
        ensures |states[n]| == |states[0]| && states[n][i] == states[0][i]
        ensures i !in DueRuns(states[n], clocks[n], limit)
      {
        NeverTaken(states, clocks, limit, i, n, recoveryMax);
      }
    } else if |clocks| > waiters && forall n :: 0 <= n <= waiters ==> i !in DueRuns(states[n], clocks[n], limit) {
      PassedOver(states, clocks, limit, i, waiters, recoveryMax);
      ClockRuns(states, clocks, limit, waiters);
      WaitingStaysDue(states[0][i], clocks[0], clocks[waiters]);
      TakenIffWithinLimit(states[waiters], clocks[waiters], limit, i);
      DueAreCounted(states[waiters][..i], clocks[waiters], limit);
    }
  }

  lemma SweepingHasStates(states: seq<seq<Rows>>, clocks: seq<Time>, limit: nat)
    requires Sweeping(states, clocks, limit)
    ensures |states| == |clocks| + 1
  {
  }

  lemma ClockRuns(states: seq<seq<Rows>>, clocks: seq<Time>, limit: nat, n: nat)
    requires Sweeping(states, clocks, limit) && n < |clocks|
    ensures clocks[0] <= clocks[n]
  {
  }

  lemma {:induction false} NeverTaken(states: seq<seq<Rows>>, clocks: seq<Time>, limit: nat, i: nat, n: nat,
                                      recoveryMax: int)
    requires Sweeping(states, clocks, limit) && n < |clocks| && AllGood(states[0], recoveryMax) && ByExpiry(states[0])
    requires i < |states[0]| && WaitsDue(states[0][i], clocks[0])
    requires Blockers(states[0][..i], clocks[0]) >= limit
    ensures forall k :: 0 <= k <= n ==> i !in DueRuns(states[k], clocks[k], limit)
    ensures |states[n]| == |states[0]| && states[n][i] == states[0][i]
  {
    hide AllGood, ByExpiry, WaitsDue, DueRuns, AllDue, Blockers, Waiters, Sweeps;
    if n > 0 { NeverTaken(states, clocks, limit, i, n - 1, recoveryMax); }
    PassedOver(states, clocks, limit, i, n, recoveryMax);
    TakenIffWithinLimit(states[n], clocks[n], limit, i);
    DueAreCounted(states[n][..i], clocks[n], limit);
  }

  predicate Starts(states: seq<seq<Rows>>, clocks: seq<Time>, rows: seq<Rows>, now: Time)
  {
    states != [] && clocks != [] && states[0] == rows && clocks[0] == now
  }

  /** No sweep takes the request. */
  predicate Ignored(states: seq<seq<Rows>>, clocks: seq<Time>, limit: nat, i: nat)
  {
    forall n :: 0 <= n < |clocks| && n < |states| ==> i !in DueRuns(states[n], clocks[n], limit)
  }

  /** However many sweeps follow one another, at whatever times, none takes the request. */
  ghost predicate Starves(rows: seq<Rows>, i: nat, now: Time, limit: nat)
  {
    forall states, clocks :: Sweeping(states, clocks, limit) && Starts(states, clocks, rows, now) ==>
      Ignored(states, clocks, limit, i)
  }

  function SweptAll(rows: seq<Rows>, now: Time, limit: nat): (r: seq<Rows>)
    ensures Sweeps(rows, r, DueRuns(rows, now, limit), now)
  {
    seq(|rows|, i requires 0 <= i < |rows| =>
      if i in DueRuns(rows, now, limit) then SweptRows(rows[i], now) else rows[i])
  }

  /** Sweeps at one moment. */
  function SweptOften(rows: seq<Rows>, now: Time, limit: nat, count: nat): (r: seq<seq<Rows>>)
    ensures |r| == count + 1 && r[0] == rows
    ensures forall k :: 0 <= k < count ==> Sweeps(r[k], r[k + 1], DueRuns(r[k], now, limit), now)
  {
    if count == 0 then [rows]
    else
      var r := SweptOften(rows, now, limit, count - 1);
      r + [SweptAll(r[count - 1], now, limit)]
  }

  lemma SweepsExist(rows: seq<Rows>, now: Time, limit: nat, count: nat)
    returns (states: seq<seq<Rows>>, clocks: seq<Time>)
    requires count > 0
    ensures Sweeping(states, clocks, limit) && Starts(states, clocks, rows, now) && |clocks| == count
  {
    states, clocks := SweptOften(rows, now, limit, count), seq(count, _ => now);
  }

  /** Exactly when a due request of a waiting run starves. */
  lemma StarvesExactly(rows: seq<Rows>, i: nat, now: Time, limit: nat, recoveryMax: int)
    requires AllGood(rows, recoveryMax) && ByExpiry(rows) && i < |rows| && WaitsDue(rows[i], now)
    ensures Starves(rows, i, now, limit) <==> Blockers(rows[..i], now) >= limit
  {
    hide AllGood, ByExpiry, WaitsDue, DueRuns, Sweeping, Blockers, Waiters;
    if Blockers(rows[..i], now) >= limit {
      forall states, clocks | Sweeping(states, clocks, limit) && Starts(states, clocks, rows, now)
        ensures Ignored(states, clocks, limit, i)
      {
        SweepsStarve(states, clocks, limit, i, recoveryMax);
      }
    } else {
      var count := Waiters(rows[..i], now) + 1;
      var states, clocks := SweepsExist(rows, now, limit, count);
      SweepsStarve(states, clocks, limit, i, recoveryMax);
      SweepingHasStates(states, clocks, limit);
      assert !Ignored(states, clocks, limit, i);
    }
  }

  // ---- What gives the place back --------------------------------------------

  /** The steps that end it: a preparation that closes or consumes the request, a replacement whose
      request is not due, or the pause of the run. */
  predicate Unblocks(s: Rows, step: Step, now: Time)
  {
    match step
    case DoPrepareExecution(id, at) =>
      var b := LockBoundRows(s, id);
      && b.Bound? && b.i == |s.proposals| - 1
      && (!s.memberActive
          || (s.run.status == RunRunning && s.run.cancelRequestedAt.None?
              && s.proposals[b.i].request.value.status == Approved))
    case DoSupersede(old_, c) =>
      SupersedeAction(s, old_, c).Committed? && s.proposals != [] && old_ == Newest(s.proposals).intent.id
      && c.expiresAt > now
    case DoWait(h, request, at) =>
      var o := WaitForApproval(s, h, request, at);
      o.Committed? && o.value
    case _ => false
  }

  lemma OpenIsProposed(s: Rows, now: Time, recoveryMax: int)
    requires Inv(s, recoveryMax) && IsDue(s, now)
    ensures NewestIs(s.proposals, Proposed) && Newest(s.proposals).request.Some?
    ensures FirstWith(s.proposals, {Executing}).None? && FirstWith(s.proposals, {Failed, OutcomeUnknown}).None?
    ensures FirstWith(s.proposals, {Executing, Failed, OutcomeUnknown}).None? && FirstWith(s.proposals, ACTED).None?
  {
    hide OutsideOk, LogOk, ResumeOk, LeaseOk, RunOk, QueueOk, WaitOk, JobOk, Progress, ActionsOk;
    assert ProposalOk(Newest(s.proposals), recoveryMax);
  }

  /** The step leaves the proposals alone and does not pause the run. */
  predicate KeepsPlace(s: Rows, t: Rows) { t.proposals == s.proposals && t.run.status != RunWaiting }

  lemma HoldersKeepPlace(s: Rows, h: ClaimedJob, category: Category, publishes: bool, now: Time, span: Time)
    requires s.run.status != RunWaiting
    ensures KeepsPlace(s, After(s, Heartbeat(s, h, now, span)))
    ensures KeepsPlace(s, After(s, Complete(s, h, publishes, now)))
    ensures KeepsPlace(s, After(s, Requeue(s, h, category, now, span)))
    ensures KeepsPlace(s, After(s, Release(s, h, category, now, span)))
  {
    hide FirstWith, TerminalTime, ActiveLease;
  }

  lemma EdgesKeepPlace(s: Rows, executable: set<int>, recoveryMax: int, worker: Actor, token: Token, now: Time,
                       duration: Time, authorized: bool)
    requires s.run.status != RunWaiting
    ensures KeepsPlace(s, After(s, Claim(s, executable, recoveryMax, worker, token, now, duration)))
    ensures KeepsPlace(s, After(s, CancelRunByUser(s, authorized, now)))
  {
    hide FirstWith, SomeRecoverable;
  }

  lemma EndingsKeepPlace(s: Rows, h: ClaimedJob, executable: set<int>, category: Category, now: Time, delay: Time)
    requires s.run.status != RunWaiting && FirstWith(s.proposals, {Executing, Failed, OutcomeUnknown}).None?
    requires FirstWith(s.proposals, {Executing}).None? && FirstWith(s.proposals, {Failed, OutcomeUnknown}).None?
    ensures KeepsPlace(s, After(s, PrepareClaimedJob(s, h, executable, now)))
    ensures KeepsPlace(s, After(s, CancelJob(s, h, category, now, delay)))
  {
    hide FirstWith, FindRequest, ResumeFault, TerminalTime, ActiveLease, Converge;
  }

  lemma FailuresKeepPlace(s: Rows, h: ClaimedJob, category: Category, now: Time, delay: Time, recoveryMax: int)
    requires s.run.status != RunWaiting && FirstWith(s.proposals, ACTED).None?
    ensures KeepsPlace(s, After(s, FailJob(s, h, category, recoveryMax, now, delay)))
    ensures KeepsPlace(s, After(s, ReclaimOne(s, recoveryMax, now, delay)))
  {
    ReclaimKeepsPlace(s, now, delay, recoveryMax);
    hide FirstWith, TerminalTime, ActiveLease, Converge, GiveUpInDoubt, ReclaimOne;
  }

  lemma ReclaimKeepsPlace(s: Rows, now: Time, delay: Time, recoveryMax: int)
    requires s.run.status != RunWaiting && FirstWith(s.proposals, ACTED).None?
    ensures KeepsPlace(s, After(s, ReclaimOne(s, recoveryMax, now, delay)))
  {
    hide FirstWith, FindRequest, TerminalTime, Converge, GiveUpInDoubt;
  }

  lemma ClosingKeepsPlace(s: Rows, step: Step, now: Time, recoveryMax: int)
    requires Inv(s, recoveryMax) && Blocks(s, now) && (step.DoPrepareJob? || step.DoCancelJob?)
    ensures KeepsPlace(s, Next(s, step, recoveryMax))
  {
    OpenIsProposed(s, now, recoveryMax);
    hide Inv, IsDue, PrepareClaimedJob, FailJob, CancelJob, ReclaimOne, Heartbeat, Complete, Requeue, Release, Claim,
      CancelRunByUser, WaitForApproval, PrepareAction, SupersedeAction, CancelAction, PrepareExecution, BeginSend,
      BeginReconciliation, AuthorizeResend, ConfirmSuccess, ConfirmFailure, ConfirmOutcomeUnknown, PutIfAbsent,
      DecideApproval, SweepRequest, FirstWith, Stale, NewestIs, KeepsPlace;
    match step
    case DoPrepareJob(h, x, at) => EndingsKeepPlace(s, h, x, UserRequested, at, 0);
    case DoCancelJob(h, c, at, delay) => EndingsKeepPlace(s, h, {}, c, at, delay);
  }

  lemma FailingKeepsPlace(s: Rows, step: Step, now: Time, recoveryMax: int)
    requires Inv(s, recoveryMax) && Blocks(s, now) && (step.DoFail? || step.DoReclaim?)
    ensures KeepsPlace(s, Next(s, step, recoveryMax))
  {
    OpenIsProposed(s, now, recoveryMax);
    assert KeepsPlace(s, s);
    hide Inv, IsDue, PrepareClaimedJob, FailJob, CancelJob, ReclaimOne, Heartbeat, Complete, Requeue, Release, Claim,
      CancelRunByUser, WaitForApproval, PrepareAction, SupersedeAction, CancelAction, PrepareExecution, BeginSend,
      BeginReconciliation, AuthorizeResend, ConfirmSuccess, ConfirmFailure, ConfirmOutcomeUnknown, PutIfAbsent,
      DecideApproval, SweepRequest, FirstWith, Stale, NewestIs, KeepsPlace;
    match step
    case DoFail(h, c, at, delay) => FailuresKeepPlace(s, h, c, at, delay, recoveryMax);
    case DoReclaim(_, at, delay) => FailuresKeepPlace(s, HandleOf(s, 0), UserRequested, at, delay, recoveryMax);
  }

  lemma WorkersKeepPlace(s: Rows, step: Step, now: Time, recoveryMax: int)
    requires Inv(s, recoveryMax) && Blocks(s, now) && IsWorkerStep(step) && !step.DoWait?
    ensures KeepsPlace(s, Next(s, step, recoveryMax))
  {
    if step.DoPrepareJob? || step.DoCancelJob? {
      hide Inv, Blocks, KeepsPlace, Next;
      ClosingKeepsPlace(s, step, now, recoveryMax);
    } else if step.DoFail? || step.DoReclaim? {
      hide Inv, Blocks, KeepsPlace, Next;
      FailingKeepsPlace(s, step, now, recoveryMax);
    } else {
      hide Inv, IsDue, PrepareClaimedJob, FailJob, CancelJob, ReclaimOne, Heartbeat, Complete, Requeue, Release, Claim,
        CancelRunByUser, WaitForApproval, PrepareAction, SupersedeAction, CancelAction, PrepareExecution, BeginSend,
        BeginReconciliation, AuthorizeResend, ConfirmSuccess, ConfirmFailure, ConfirmOutcomeUnknown, PutIfAbsent,
        DecideApproval, SweepRequest, FirstWith, Stale, NewestIs, KeepsPlace;
      match step
      case DoClaim(x, worker, token, at, d) => EdgesKeepPlace(s, x, recoveryMax, worker, token, at, d, false);
      case DoCancelRun(authorized, at) => EdgesKeepPlace(s, {}, recoveryMax, 0, 0, at, 0, authorized);
      case DoHeartbeat(h, at, d) => HoldersKeepPlace(s, h, UserRequested, false, at, d);
      case DoComplete(h, publishes, at) => HoldersKeepPlace(s, h, UserRequested, publishes, at, 0);
      case DoRequeue(h, c, at, delay) => HoldersKeepPlace(s, h, c, false, at, delay);
      case DoRelease(h, c, at, delay) => HoldersKeepPlace(s, h, c, false, at, delay);
    }
  }

  lemma PauseUnblocks(s: Rows, step: Step, now: Time, recoveryMax: int)
    requires Blocks(s, now) && step.DoWait?
    ensures Blocks(Next(s, step, recoveryMax), now) <==> !Unblocks(s, step, now)
  {
    hide FindRequest, IsDue, ActiveLease;
  }

  lemma ProposingKeepsPlace(s: Rows, c: Propose, now: Time, recoveryMax: int)
    requires Inv(s, recoveryMax) && Blocks(s, now)
    ensures KeepsPlace(s, After(s, PrepareAction(s, c)))
  {
    hide Inv, IsDue, ReplayProposal;
    RevisionIsPosition(s, c.revision, recoveryMax);
    ReplayChangesNothing(s, c, true, recoveryMax);
    OpenIsProposed(s, now, recoveryMax);
  }

  lemma CancellingKeepsPlace(s: Rows, tenant: Tenant, id: IntentId, request: RequestId, rejected: bool, now: Time,
                             recoveryMax: int)
    requires Inv(s, recoveryMax) && Blocks(s, now)
    ensures KeepsPlace(s, After(s, CancelAction(s, tenant, id, request, rejected)))
  {
    hide OutsideOk, LogOk, ResumeOk, LeaseOk, RunOk, QueueOk, WaitOk, JobOk, Progress, ActionsOk, ProposalOk, EventsAbout;
  }

  lemma ExecutionKeepsPlace(s: Rows, step: Step, now: Time, recoveryMax: int)
    requires Inv(s, recoveryMax) && Blocks(s, now)
    requires step.DoBeginSend? || step.DoReconcile? || step.DoResend? || step.DoConfirmSuccess?
          || step.DoConfirmFailure? || step.DoConfirmUnknown?
    ensures KeepsPlace(s, Next(s, step, recoveryMax))
  {
    hide OutsideOk, LogOk, ResumeOk, LeaseOk, RunOk, QueueOk, WaitOk, JobOk, Progress, ActionsOk, ProposalOk,
      PrepareClaimedJob, FailJob, CancelJob, ReclaimOne, Heartbeat, Complete, Requeue, Release, Claim, CancelRunByUser,
      WaitForApproval, PrepareAction, SupersedeAction, CancelAction, PrepareExecution, DecideApproval, SweepRequest,
      FindIntent, PutIfAbsent;
    OpenIsProposed(s, now, recoveryMax);
  }

  lemma RestKeepsPlace(s: Rows, step: Step, now: Time, recoveryMax: int)
    requires Inv(s, recoveryMax) && Blocks(s, now) && !IsWorkerStep(step)
    requires !step.DoPrepareExecution? && !step.DoSupersede?
    ensures KeepsPlace(s, Next(s, step, recoveryMax))
  {
    hide Inv, IsDue, PrepareAction, CancelAction, FindIntent, OwnDecision, PutIfAbsent;
    match step
    case DoPrepareAction(c) => ProposingKeepsPlace(s, c, now, recoveryMax);
    case DoCancelAction(t, i, r, rejected) => CancellingKeepsPlace(s, t, i, r, rejected, now, recoveryMax);
    case DoBeginSend(_, _) => ExecutionKeepsPlace(s, step, now, recoveryMax);
    case DoReconcile(_, _) => ExecutionKeepsPlace(s, step, now, recoveryMax);
    case DoResend(_, _, _) => ExecutionKeepsPlace(s, step, now, recoveryMax);
    case DoConfirmSuccess(_, _) => ExecutionKeepsPlace(s, step, now, recoveryMax);
    case DoConfirmFailure(_, _, _, _) => ExecutionKeepsPlace(s, step, now, recoveryMax);
    case DoConfirmUnknown(_, _, _) => ExecutionKeepsPlace(s, step, now, recoveryMax);
    case _ =>
  }

  lemma PreparationUnblocks(s: Rows, step: Step, now: Time, recoveryMax: int)
    requires Inv(s, recoveryMax) && Blocks(s, now) && step.DoPrepareExecution?
    ensures Blocks(Next(s, step, recoveryMax), now) <==> !Unblocks(s, step, now)
  {
    hide OutsideOk, LogOk, ResumeOk, LeaseOk, RunOk, QueueOk, WaitOk, JobOk, Progress, ActionsOk, FindIntent;
    var s1, b := Next(s, step, recoveryMax), LockBoundRows(s, step.id);
    assert ProposalOk(Newest(s.proposals), recoveryMax);
    if b.Bound? && b.i < |s.proposals| - 1 {
      assert Retired(s.proposals[b.i]) && ProposalOk(s.proposals[b.i], recoveryMax);
    }
    if |Newest(s.proposals).decisions| == 1 && Newest(s.proposals).decisions[0].verdict == Approve {
      ApproveCountOfOne(Newest(s.proposals).decisions);
    }
  }

  /** Replacing an older proposal only reads its replacement back. */
  lemma OldReplacementKeepsPlace(s: Rows, old_: IntentId, c: Propose, now: Time, recoveryMax: int)
    requires Inv(s, recoveryMax) && Blocks(s, now) && FindIntent(s.proposals, old_) != Some(|s.proposals| - 1)
    ensures KeepsPlace(s, After(s, SupersedeAction(s, old_, c)))
  {
    hide OutsideOk, LogOk, ResumeOk, LeaseOk, RunOk, QueueOk, WaitOk, JobOk, Progress, ActionsOk, ProposalOk, FindIntent,
      EventsAbout, ReplayProposal, Retire, LockApplicationRun;
    ReplayChangesNothing(s, c, false, recoveryMax);
    var found := FindIntent(s.proposals, old_);
    if found.Some? { assert Retired(s.proposals[found.value]); }
  }

  /** A new revision is inserted or refused, never read back. */
  lemma NextRevisionIsNew(s: Rows, c: Propose, recoveryMax: int)
    requires Inv(s, recoveryMax) && c.revision == |s.proposals| + 1
    ensures InsertProposal(s, c, true).Committed? ==>
              && InsertProposal(s, c, true).rows.proposals == s.proposals + [ProposalOf(c)]
              && InsertProposal(s, c, true).rows.run.status == s.run.status
  {
    hide OutsideOk, LogOk, ResumeOk, LeaseOk, RunOk, QueueOk, WaitOk, JobOk, Progress, ActionsOk, ProposalOk, EventsAbout;
  }

  lemma ReplacementUnblocks(s: Rows, step: Step, now: Time, recoveryMax: int)
    requires Inv(s, recoveryMax) && Blocks(s, now) && step.DoSupersede?
    requires FindIntent(s.proposals, step.old_) == Some(|s.proposals| - 1)
    ensures Blocks(Next(s, step, recoveryMax), now) <==> !Unblocks(s, step, now)
  {
    hide Inv, FindIntent, EventsAbout, LockApplicationRun, InsertProposal;
    var n, c := |s.proposals| - 1, step.propose;
    OpenIsProposed(s, now, recoveryMax);
    if LockApplicationRun(s, c).None? {
      LockIsRunning(s, c);
      RetireKeeps(s, n, recoveryMax);
      if c.revision == |s.proposals| + 1 { NextRevisionIsNew(Retire(s, n), c, recoveryMax); }
    }
  }

  lemma OldReplacementUnblocks(s: Rows, step: Step, now: Time, recoveryMax: int)
    requires Inv(s, recoveryMax) && Blocks(s, now) && step.DoSupersede?
    requires FindIntent(s.proposals, step.old_) != Some(|s.proposals| - 1)
    ensures KeepsPlace(s, Next(s, step, recoveryMax)) && !Unblocks(s, step, now)
  {
    hide Inv, FindIntent, SupersedeAction;
    OldReplacementKeepsPlace(s, step.old_, step.propose, now, recoveryMax);
    OnlyNewestIsFound(s, recoveryMax);
  }

  lemma OnlyNewestIsFound(s: Rows, recoveryMax: int)
    requires Inv(s, recoveryMax) && s.proposals != []
    ensures FindIntent(s.proposals, Newest(s.proposals).intent.id) == Some(|s.proposals| - 1)
  {
  }

  /** Exactly which steps give the place of a run back; for a run that has ended, only a preparation
      after its creator was removed. */
  lemma UnblockingSteps(s: Rows, step: Step, now: Time, recoveryMax: int)
    requires Inv(s, recoveryMax) && Blocks(s, now)
    ensures Blocks(Next(s, step, recoveryMax), now) <==> !Unblocks(s, step, now)
    ensures Terminal(s.run.status) && Unblocks(s, step, now) ==> step.DoPrepareExecution? && !s.memberActive
  {
    hide Inv, Next;
    if step.DoPrepareExecution? {
      PreparationUnblocks(s, step, now, recoveryMax);
    } else if step.DoSupersede? {
      if FindIntent(s.proposals, step.old_) == Some(|s.proposals| - 1) {
        ReplacementUnblocks(s, step, now, recoveryMax);
      } else {
        OldReplacementUnblocks(s, step, now, recoveryMax);
      }
    } else if step.DoWait? {
      PauseUnblocks(s, step, now, recoveryMax);
    } else if IsWorkerStep(step) {
      WorkersKeepPlace(s, step, now, recoveryMax);
    } else {
      RestKeepsPlace(s, step, now, recoveryMax);
    }
    EndedUnblocks(s, step, now);
  }

  lemma EndedUnblocks(s: Rows, step: Step, now: Time)
    ensures Terminal(s.run.status) && Unblocks(s, step, now) ==> step.DoPrepareExecution? && !s.memberActive
  {
    hide FindIntent, FindRequest, EventsAbout, InsertProposal, ActiveLease;
  }
}
