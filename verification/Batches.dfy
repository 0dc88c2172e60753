/** What the two sweeps report, in terms of the rows before and after: each count is the number of runs
    that the batch left in that state, and each retry is delayed by what its attempt calls for. */
module Batches {
  import opened Options
  import opened Rows
  import opened Approvals
  import opened Jobs
  import opened Invariant
  import opened Effects
  import opened JobEffects
  import opened Tables
  import opened WorkerJobStores
  import opened ApprovalStores

  predicate Increasing(taken: seq<nat>) { forall j, k :: 0 <= j < k < |taken| ==> taken[j] < taken[k] }

  // ---- The reclaim batch ----------------------------------------------------

  /** The runs of the batch whose job ended up in this state. */
  function LeftAs(after: seq<Rows>, taken: seq<nat>, status: JobStatus): set<nat>
  {
    set i | i in taken && i < |after| && after[i].job.status == status
  }

  lemma LastIsApart(taken: seq<nat>)
    requires taken != [] && Increasing(taken)
    ensures
      var n := |taken| - 1;
      Increasing(taken[..n]) && taken[n] !in taken[..n] && forall i :: i in taken <==> i in taken[..n] || i == taken[n]
  {
  }

  lemma LeftAsGrows(after: seq<Rows>, taken: seq<nat>, status: JobStatus)
    requires taken != [] && Increasing(taken) && taken[|taken| - 1] < |after|
    ensures
      var n := |taken| - 1;
      |LeftAs(after, taken, status)| ==
        |LeftAs(after, taken[..n], status)| + (if after[taken[n]].job.status == status then 1 else 0)
  {
    var n := |taken| - 1;
    LastIsApart(taken);
    var before := LeftAs(after, taken[..n], status);
    assert taken[n] !in before;
    if after[taken[n]].job.status == status {
      assert LeftAs(after, taken, status) == before + {taken[n]};
    } else {
      assert LeftAs(after, taken, status) == before;
    }
  }

  /** What a reclaim answers shows in the job it leaves. */
  lemma AnswerShows(s: Rows, executable: set<int>, recoveryMax: int, now: Time, retryDelay: int -> Time)
    requires Inv(s, recoveryMax) && Stale(s, executable, now)
    ensures
      var a, t := ReclaimAnswer(s, recoveryMax, now, retryDelay), ReclaimedRows(s, recoveryMax, now, retryDelay);
      && (a == Some(Requeued) <==> t.job.status == JobQueued)
      && (a == Some(FinishedJob) <==> t.job.status == JobDone)
      && (a == Some(DeadJob) <==> t.job.status == JobDead)
      && (t.job.status == JobQueued ==> t.job.availableAt == now + retryDelay(s.job.attempt))
  {
    hide Inv, ReclaimOne, Stale, Logs, TerminalTime, Safety.Converged;
    StaleJobIsReclaimed(s, executable, now, retryDelay(s.job.attempt), recoveryMax);
    LostCallLeavesDone(s, executable, now, recoveryMax);
  }

  lemma LostCallLeavesDone(s: Rows, executable: set<int>, now: Time, recoveryMax: int)
    requires Inv(s, recoveryMax) && Stale(s, executable, now)
    ensures
      var lost := NewestIs(s.proposals, Failed) || NewestIs(s.proposals, OutcomeUnknown);
      lost && Newest(s.proposals).invocation.Some? ==> Safety.Converged(s, now).job.status == JobDone
  {
    hide TerminalTime;
  }

  /** The counts of a reclaim batch are the numbers of its runs whose job it left queued, done and dead. */
  lemma {:induction false} ReclaimCountsMean(before: seq<Rows>, after: seq<Rows>, taken: seq<nat>,
                                             executable: set<int>, recoveryMax: int, now: Time,
                                             retryDelay: int -> Time)
    requires |after| == |before| && Increasing(taken)
    requires forall k :: 0 <= k < |taken| ==>
               && taken[k] < |before| && Inv(before[taken[k]], recoveryMax) && Stale(before[taken[k]], executable, now)
               && after[taken[k]] == ReclaimedRows(before[taken[k]], recoveryMax, now, retryDelay)
    ensures
      Tally(before, taken, recoveryMax, now, retryDelay) ==
        ReclaimSummary(|taken|, |LeftAs(after, taken, JobQueued)|, |LeftAs(after, taken, JobDone)|,
                       |LeftAs(after, taken, JobDead)|)
    ensures
      forall k :: 0 <= k < |taken| && after[taken[k]].job.status == JobQueued ==>
        after[taken[k]].job.availableAt == now + retryDelay(before[taken[k]].job.attempt)
  {
    hide Inv, Stale, ReclaimedRows, ReclaimAnswer, LeftAs;
    if taken == [] {
      assert LeftAs(after, [], JobQueued) == LeftAs(after, [], JobDone) == LeftAs(after, [], JobDead) == {} by {
        NothingLeft(after);
      }
    } else {
      var n := |taken| - 1;
      LastIsApart(taken);
      ReclaimCountsMean(before, after, taken[..n], executable, recoveryMax, now, retryDelay);
      AnswerShows(before[taken[n]], executable, recoveryMax, now, retryDelay);
      LeftAsGrows(after, taken, JobQueued);
      LeftAsGrows(after, taken, JobDone);
      LeftAsGrows(after, taken, JobDead);
    }
  }

  lemma NothingLeft(after: seq<Rows>)
    ensures LeftAs(after, [], JobQueued) == LeftAs(after, [], JobDone) == LeftAs(after, [], JobDead) == {}
  {
  }

  /** The limit cuts the selection off: a job is taken exactly if it is stale and fewer stale ones come
      before it. */
  lemma {:induction false} StaleIffWithinLimit(rows: seq<Rows>, executable: set<int>, now: Time, limit: nat, i: nat)
    requires i < |rows|
    ensures
      i in StaleJobs(rows, executable, now, limit) <==>
        Stale(rows[i], executable, now) && |StaleJobs(rows[..i], executable, now, limit)| < limit
  {
    hide Stale, StaleJobs;
    var n := |rows| - 1;
    LastIsStale(rows, executable, now, limit, i);
    if i < n {
      StaleIffWithinLimit(rows[..n], executable, now, limit, i);
      assert rows[..n][..i] == rows[..i];
    }
  }

  lemma LastIsStale(rows: seq<Rows>, executable: set<int>, now: Time, limit: nat, i: nat)
    requires i < |rows|
    ensures
      var n := |rows| - 1;
      var r := StaleJobs(rows[..n], executable, now, limit);
      i in StaleJobs(rows, executable, now, limit) <==>
        if i < n then i in r else Stale(rows[n], executable, now) && |r| < limit
  {
    hide Stale;
    var n := |rows| - 1;
    var r := StaleJobs(rows[..n], executable, now, limit);
    assert forall k :: 0 <= k < |r| ==> r[k] < n;
    assert StaleJobs(rows, executable, now, limit) ==
      if Stale(rows[n], executable, now) && |r| < limit then r + [n] else r;
    hide StaleJobs;
  }

  // ---- The expiry batch -----------------------------------------------------

  /** The waiting runs of the batch; `asleep` asks for those whose job is at rest. */
  function WaitingIn(before: seq<Rows>, taken: seq<nat>, asleep: bool): set<nat>
  {
    set i | i in taken && i < |before| && before[i].run.status == RunWaiting
            && (asleep ==> before[i].job.status == JobDone)
  }

  lemma WaitingInGrows(before: seq<Rows>, taken: seq<nat>, asleep: bool)
    requires taken != [] && Increasing(taken) && taken[|taken| - 1] < |before|
    ensures
      var n := |taken| - 1;
      var s := before[taken[n]];
      |WaitingIn(before, taken, asleep)| ==
        |WaitingIn(before, taken[..n], asleep)|
        + (if s.run.status == RunWaiting && (asleep ==> s.job.status == JobDone) then 1 else 0)
  {
    var n := |taken| - 1;
    LastIsApart(taken);
    var some, s := WaitingIn(before, taken[..n], asleep), before[taken[n]];
    assert taken[n] !in some;
    if s.run.status == RunWaiting && (asleep ==> s.job.status == JobDone) {
      assert WaitingIn(before, taken, asleep) == some + {taken[n]};
    } else {
      assert WaitingIn(before, taken, asleep) == some;
    }
  }

  /** The counts of an expiry batch are the numbers of its runs that waited, and of those whose job slept. */
  lemma {:induction false} SweepCountsMean(before: seq<Rows>, taken: seq<nat>, now: Time, recoveryMax: int)
    requires Increasing(taken)
    requires forall k :: 0 <= k < |taken| ==>
               taken[k] < |before| && Inv(before[taken[k]], recoveryMax) && IsDue(before[taken[k]], now)
    ensures
      SweepTally(before, taken, now) ==
        SweepSummary(|taken|, |WaitingIn(before, taken, false)|, |WaitingIn(before, taken, true)|)
  {
    hide Inv, SweepRequest, WaitingIn, Logs;
    if taken == [] {
      assert WaitingIn(before, [], false) == WaitingIn(before, [], true) == {} by { NobodyWaits(before); }
    } else {
      var n := |taken| - 1;
      var s := before[taken[n]];
      LastIsApart(taken);
      SweepCountsMean(before, taken[..n], now, recoveryMax);
      ExpiryHappens(s, |s.proposals| - 1, now, recoveryMax);
      WaitingInGrows(before, taken, false);
      WaitingInGrows(before, taken, true);
    }
  }

  lemma NobodyWaits(before: seq<Rows>)
    ensures WaitingIn(before, [], false) == WaitingIn(before, [], true) == {}
  {
  }
}
