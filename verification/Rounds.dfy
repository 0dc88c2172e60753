/** How often a job can go round between a worker that dies with its lease and a worker that claims it
    next: exactly when nothing bounds it, and what bounds it otherwise. */
module Rounds {
  import opened Options
  import opened Rows
  import opened ActionExecution
  import opened Jobs
  import opened Invariant
  import opened ExecutionProofs
  import opened JobProofs
  import opened Protocol

  /** The sweep takes an expired lease back, and a worker claims the job. */
  datatype Round = Round(reclaim: Step, claim: Step)

  predicate GoesRound(s: Rows, r: Round, recoveryMax: int)
  {
    var t := Next(s, r.reclaim, recoveryMax);
    && r.reclaim.DoReclaim? && Driven(s, r.reclaim) && t.job.status == JobQueued
    && r.claim.DoClaim? && Driven(t, r.claim) && Next(t, r.claim, recoveryMax).job.status == JobLeased
  }

  function AfterRound(s: Rows, r: Round, recoveryMax: int): Rows
  {
    Next(Next(s, r.reclaim, recoveryMax), r.claim, recoveryMax)
  }

  /** The rounds follow one another from these rows. */
  predicate Goes(s: Rows, rounds: seq<Round>, recoveryMax: int)
    decreases |rounds|
  {
    rounds == [] || (GoesRound(s, rounds[0], recoveryMax)
                     && Goes(AfterRound(s, rounds[0], recoveryMax), rounds[1..], recoveryMax))
  }

  /** The newest action has succeeded, or is in doubt with a recovery left: the sweep and the claim then
      ask for no attempt. */
  predicate Circles(s: Rows, recoveryMax: int)
  {
    || (recoveryMax > 0 && NewestIs(s.proposals, Succeeded))
    || (NewestIs(s.proposals, Executing) && Newest(s.proposals).intent.recoveryAttempts < recoveryMax)
  }

  // ---- One round ------------------------------------------------------------

  /** The parts of the sweep that end a job, or queue it without touching anything else. */
  lemma SettlingQueues(s: Rows, i: nat, now: Time, delay: Time, recoveryMax: int)
    requires i < |s.proposals|
    ensures var o := Converge(s, i, now); o.Committed? ==> o.rows.job.status == JobDone
    ensures
      var o := GiveUpInDoubt(s, i, recoveryMax, now, delay);
      o.Committed? && o.rows.job.status == JobQueued ==>
        && s.proposals[i].intent.recoveryAttempts < recoveryMax && o.rows.proposals == s.proposals
        && o.rows.job.attempt == s.job.attempt && o.rows.job.maxAttempts == s.job.maxAttempts
  {
    hide ConvergedVerdict, TerminalTime;
  }

  /** The sweep queues a job only if an attempt is left or the action circles. */
  lemma QueuedBySweep(s: Rows, now: Time, delay: Time, recoveryMax: int)
    requires Inv(s, recoveryMax) && s.job.status == JobLeased && 0 <= recoveryMax
    ensures
      var o := ReclaimOne(s, recoveryMax, now, delay);
      o.Committed? && o.rows.job.status == JobQueued ==>
        && (s.job.attempt < s.job.maxAttempts || Circles(s, recoveryMax)) && o.rows.proposals == s.proposals
        && o.rows.job.attempt == s.job.attempt && o.rows.job.maxAttempts == s.job.maxAttempts
  {
    hide Inv, FirstWith, FindRequest, TerminalTime, Converge, GiveUpInDoubt;
    JobIsOk(s, recoveryMax);
    FirstExecutingIsNewest(s, ACTED, recoveryMax);
    if s.proposals != [] {
      SettlingQueues(s, |s.proposals| - 1, now, delay, recoveryMax);
      SettlingQueues(Append(s, JobLeaseExpired(s.job.attempt)), |s.proposals| - 1, now, delay, recoveryMax);
    }
  }

  lemma CirclingIsQueued(s: Rows, now: Time, delay: Time, recoveryMax: int)
    requires Inv(s, recoveryMax) && s.job.status == JobLeased && Circles(s, recoveryMax)
    ensures
      var o := ReclaimOne(s, recoveryMax, now, delay);
      && o.Committed? && o.rows.job.status == JobQueued && o.rows.job.availableAt == now + delay
      && o.rows.proposals == s.proposals && o.rows.run.graphVersion == s.run.graphVersion
      && o.rows.issued == s.issued && o.rows.executing == s.executing
  {
    hide ProposalsOk, OutsideOk, LogOk, ResumeOk, LeaseOk, RunOk, QueueOk, WaitOk, FirstWith, FindRequest, TerminalTime,
      Converge, ReclaimIdle;
    LeasedIsLive(s, recoveryMax);
    FirstExecutingIsNewest(s, ACTED, recoveryMax);
    ActedIsLinked(s, |s.proposals| - 1, recoveryMax);
  }

  lemma RoundMoves(s: Rows, r: Round, recoveryMax: int)
    requires Inv(s, recoveryMax) && s.job.status == JobLeased && 0 <= recoveryMax && GoesRound(s, r, recoveryMax)
    ensures
      var u := AfterRound(s, r, recoveryMax);
      && Inv(u, recoveryMax) && u.job.status == JobLeased && u.proposals == s.proposals
      && u.job.maxAttempts == s.job.maxAttempts
      && u.job.attempt == (if s.job.attempt < s.job.maxAttempts then s.job.attempt + 1 else s.job.attempt)
      && (s.job.attempt < s.job.maxAttempts || Circles(s, recoveryMax))
  {
    hide Inv, Circles, Driven, ReclaimOne, SomeRecoverable, FirstWith;
    StepKeeps(s, r.reclaim, recoveryMax);
    StepKeeps(Next(s, r.reclaim, recoveryMax), r.claim, recoveryMax);
    QueuedBySweep(s, r.reclaim.now, r.reclaim.delay, recoveryMax);
  }

  // ---- Bounded rounds -------------------------------------------------------

  /** Otherwise every round uses up an attempt. */
  lemma {:induction false} RoundsAreBounded(s: Rows, rounds: seq<Round>, recoveryMax: int)
    requires Inv(s, recoveryMax) && s.job.status == JobLeased && 0 <= recoveryMax
    requires !Circles(s, recoveryMax) && Goes(s, rounds, recoveryMax)
    ensures |rounds| <= s.job.maxAttempts - s.job.attempt
    decreases |rounds|
  {
    if rounds == [] {
      JobIsOk(s, recoveryMax);
    } else {
      hide Inv, GoesRound, AfterRound;
      RoundMoves(s, rounds[0], recoveryMax);
      RoundsAreBounded(AfterRound(s, rounds[0], recoveryMax), rounds[1..], recoveryMax);
    }
  }

  // ---- Unbounded rounds -----------------------------------------------------

  lemma SomeTokenIsFresh(s: Rows) returns (token: Token)
    ensures FreshToken(s, token)
  {
    var bound := AboveAll(s.issued);
    token := if s.executing.Some? && s.executing.value >= bound then s.executing.value + 1 else bound;
  }

  lemma AboveAll(issued: set<ClaimedJob>) returns (bound: Token)
    ensures forall h :: h in issued ==> h.token < bound
    decreases |issued|
  {
    if issued == {} { return 0; }
    var h :| h in issued;
    bound := AboveAll(issued - {h});
    if bound <= h.token { bound := h.token + 1; }
  }

  lemma CirclingIsClaimable(s: Rows, executable: set<int>, now: Time, recoveryMax: int)
    requires Inv(s, recoveryMax) && Circles(s, recoveryMax) && s.job.status == JobQueued
    requires s.job.availableAt <= now && s.run.graphVersion in executable
    ensures Claimable(s, executable, recoveryMax, now)
  {
    hide OutsideOk, LogOk, ResumeOk, LeaseOk, RunOk, QueueOk, WaitOk, ProposalOk;
    FirstExecutingIsNewest(s, {Succeeded}, recoveryMax);
    assert s.proposals[|s.proposals| - 1] == Newest(s.proposals);
  }

  /** A round is always possible: the lease expires, and the next worker comes at once. */
  lemma CirclingGoesRound(s: Rows, recoveryMax: int) returns (r: Round)
    requires Inv(s, recoveryMax) && s.job.status == JobLeased && Circles(s, recoveryMax)
    ensures GoesRound(s, r, recoveryMax)
  {
    JobIsOk(s, recoveryMax);
    var now, x := s.job.lease.value.expiresAt, {s.run.graphVersion};
    var token := SomeTokenIsFresh(s);
    r := Round(DoReclaim(x, now, 0), DoClaim(x, 0, token, now, 0));
    hide Inv, ReclaimOne, SomeRecoverable, FirstWith;
    hide Driven, Claimable, FreshToken;
    var t := Next(s, r.reclaim, recoveryMax);
    CirclingIsQueued(s, now, 0, recoveryMax);
    SweepsAndClaimsAreDriven(s, t, x, token, now);
    StepKeeps(s, r.reclaim, recoveryMax);
    CirclingIsClaimable(t, x, now, recoveryMax);
  }

  lemma SweepsAndClaimsAreDriven(s: Rows, t: Rows, executable: set<int>, token: Token, now: Time)
    requires FreshToken(s, token) && t.issued == s.issued && t.executing == s.executing
    ensures Driven(s, DoReclaim(executable, now, 0)) && Driven(t, DoClaim(executable, 0, token, now, 0))
  {
  }

  lemma {:induction false} RoundsOfAnyNumber(s: Rows, count: nat, recoveryMax: int) returns (rounds: seq<Round>)
    requires Inv(s, recoveryMax) && s.job.status == JobLeased && Circles(s, recoveryMax) && 0 <= recoveryMax
    ensures |rounds| == count && Goes(s, rounds, recoveryMax)
    decreases count
  {
    rounds := [];
    if count > 0 {
      hide Inv, GoesRound, AfterRound;
      var r := CirclingGoesRound(s, recoveryMax);
      RoundMoves(s, r, recoveryMax);
      var rest := RoundsOfAnyNumber(AfterRound(s, r, recoveryMax), count - 1, recoveryMax);
      rounds := [r] + rest;
      assert rounds[1..] == rest;
    }
  }

  ghost predicate CanGo(s: Rows, count: nat, recoveryMax: int)
  {
    exists rounds :: |rounds| == count && Goes(s, rounds, recoveryMax)
  }

  /** Exactly when nothing bounds the rounds of a leased job. */
  lemma RoundsAreUnbounded(s: Rows, recoveryMax: int)
    requires Inv(s, recoveryMax) && s.job.status == JobLeased && 0 <= recoveryMax
    ensures (forall count: nat :: CanGo(s, count, recoveryMax)) <==> Circles(s, recoveryMax)
  {
    hide Inv, Goes, Circles;
    if Circles(s, recoveryMax) {
      forall count: nat ensures CanGo(s, count, recoveryMax) {
        var rounds := RoundsOfAnyNumber(s, count, recoveryMax);
      }
    } else {
      JobIsOk(s, recoveryMax);
      var count: nat := s.job.maxAttempts - s.job.attempt + 1;
      if CanGo(s, count, recoveryMax) {
        var rounds :| |rounds| == count && Goes(s, rounds, recoveryMax);
        RoundsAreBounded(s, rounds, recoveryMax);
      }
    }
  }
}
