/** Every schedule that keeps waking the waiting calls of a batch finishes it: what one round of
    wake-ups achieves, and how many rounds are enough. */
module FairSchedules {
  import opened Options
  import opened AgentLoop
  import opened ToolSerializer

  // ---- Batches that are present ---------------------------------------------

  /** The waiting coroutines are exactly the calls that have not started, each once. */
  predicate OnePerCall(tasks: seq<Task>, batch: seq<CallId>, begun: nat)
  {
    && (forall i :: 0 <= i < |tasks| && tasks[i].phase == Waiting ==>
          exists k :: begun <= k < |batch| && tasks[i].id == batch[k])
    && (forall i, j :: 0 <= i < j < |tasks| && tasks[i].phase == Waiting && tasks[j].phase == Waiting ==>
          tasks[i].id != tasks[j].id)
  }

  predicate Ready(s: Loop, l: Limits)
  {
    && Sound(s, l) && !s.gate.failed && s.gate.c.batch != []
    && AllPresent(s.tasks, s.gate.c.batch, |s.begun|) && OnePerCall(s.tasks, s.gate.c.batch, |s.begun|)
  }

  /** Starts and ends still to come. */
  function Left(s: Loop): int { 2 * (|s.gate.c.batch| - (s.gate.next - 1)) - (|s.begun| - (s.gate.next - 1)) }

  /** What the loop will have started when the batch is complete. */
  function Goal(s: Loop, l: Limits): seq<CallId>
    requires Ready(s, l)
  {
    s.all + s.gate.c.batch[|s.begun|..]
  }

  /** The batch is complete, and no coroutine of it is left. */
  predicate Complete(t: Loop, l: Limits, goal: seq<CallId>)
  {
    && Sound(t, l) && !t.gate.failed && t.gate.c.batch == [] && t.owed && t.all == goal
    && forall i :: 0 <= i < |t.tasks| ==> t.tasks[i].phase != Waiting && t.tasks[i].phase != Executing
  }

  /** The schedule wakes a coroutine, or lets the running tool end well. */
  predicate Helps(step: Step) { (step.Wake? && step.boundary == Clear) || (step.End? && step.ok) }

  // ---- One step -------------------------------------------------------------

  predicate Advanced(s: Loop, t: Loop, l: Limits)
    requires Ready(s, l)
  {
    && |t.tasks| == |s.tasks|
    && (Complete(t, l, Goal(s, l)) || (Ready(t, l) && Goal(t, l) == Goal(s, l) && Left(t) < Left(s)))
  }

  /** The coroutine with the next ordinal is the call whose turn it is. */
  lemma WaitingIsInTurn(s: Loop, l: Limits, i: nat)
    requires Ready(s, l) && InPhase(s, i, Waiting) && s.tasks[i].ordinal == s.gate.next
    ensures 1 <= s.gate.next <= |s.gate.c.batch| && s.tasks[i].id == s.gate.c.batch[s.gate.next - 1]
  {
    var k :| |s.begun| <= k < |s.gate.c.batch| && s.tasks[i].id == s.gate.c.batch[k];
  }

  lemma StartKeepsPresent(tasks: seq<Task>, batch: seq<CallId>, n: nat, i: nat)
    requires 1 <= n <= |batch| && i < |tasks| && tasks[i].phase == Waiting && tasks[i].id == batch[n - 1]
    requires NoDuplicates(batch) && AllPresent(tasks, batch, n - 1) && OnePerCall(tasks, batch, n - 1)
    ensures AllPresent(SetPhase(tasks, i, Executing), batch, n) && OnePerCall(SetPhase(tasks, i, Executing), batch, n)
  {
    var after := SetPhase(tasks, i, Executing);
    OthersStayPresent(tasks, after, batch, n, i);
    forall j | 0 <= j < |after| && after[j].phase == Waiting
      ensures exists k :: n <= k < |batch| && after[j].id == batch[k]
    {
      assert tasks[j] == after[j] && j != i && tasks[j].id != batch[n - 1];
      var k :| n - 1 <= k < |batch| && tasks[j].id == batch[k];
      assert n <= k;
    }
  }

  lemma TurnBegins(s: Loop, l: Limits, i: nat)
    requires Sound(s, l) && !s.gate.failed && LockFree(s) && s.gate.c.batch != []
    requires InPhase(s, i, Waiting) && s.tasks[i].id == s.gate.c.batch[s.gate.next - 1]
    ensures |s.begun| == s.gate.next - 1 && |Next(s, l, Wake(i, Clear)).begun| == s.gate.next
  {
    TurnStarts(s, l, i);
    hide BatchOrdinal, Fresh, Budgets;
  }

  lemma NextCall(all: seq<CallId>, batch: seq<CallId>, n: nat)
    requires n < |batch|
    ensures all + batch[n..] == all + [batch[n]] + batch[n + 1..]
  {
  }

  lemma TurnIsProgress(s: Loop, l: Limits, i: nat)
    requires Ready(s, l) && LockFree(s) && InPhase(s, i, Waiting) && s.tasks[i].ordinal == s.gate.next
    ensures Advanced(s, Next(s, l, Wake(i, Clear)), l)
  {
    var n, b := s.gate.next, s.gate.c.batch;
    WaitingIsInTurn(s, l, i);
    BatchIsFresh(s, l);
    NextCall(s.all, b, n - 1);
    hide Sound, Next, AllPresent, OnePerCall, LockFree, NoDuplicates, SetPhase, InPhase, Complete;
    TurnStarts(s, l, i);
    TurnBegins(s, l, i);
    StartKeepsPresent(s.tasks, b, n, i);
  }

  lemma BatchIsFresh(s: Loop, l: Limits)
    requires Sound(s, l)
    ensures NoDuplicates(s.gate.c.batch)
  {
  }

  lemma WakeAdvances(s: Loop, l: Limits, i: nat)
    requires Ready(s, l)
    ensures var t := Next(s, l, Wake(i, Clear)); t == s || Advanced(s, t, l)
  {
    if InPhase(s, i, Waiting) && LockFree(s) && s.tasks[i].ordinal == s.gate.next {
      TurnIsProgress(s, l, i);
    } else {
      hide BatchOrdinal, Sound, AllPresent, OnePerCall;
    }
  }

  lemma OtherPhaseKeepsPresent(tasks: seq<Task>, batch: seq<CallId>, begun: nat, i: nat, phase: Phase)
    requires i < |tasks| && tasks[i].phase != Waiting && phase != Waiting
    requires AllPresent(tasks, batch, begun) && OnePerCall(tasks, batch, begun)
    ensures AllPresent(SetPhase(tasks, i, phase), batch, begun) && OnePerCall(SetPhase(tasks, i, phase), batch, begun)
  {
    var after := SetPhase(tasks, i, phase);
    forall k | begun <= k < |batch| ensures Present(after, batch[k]) {
      assert Present(tasks, batch[k]);
      var j :| 0 <= j < |tasks| && tasks[j].phase == Waiting && tasks[j].id == batch[k];
      assert after[j] == tasks[j];
    }
    assert forall j :: 0 <= j < |after| && after[j].phase == Waiting ==> after[j] == tasks[j];
  }

  lemma EndAdvances(s: Loop, l: Limits, i: nat)
    requires Ready(s, l)
    ensures var t := Next(s, l, End(i, true)); t == s || Advanced(s, t, l)
  {
    hide BatchOrdinal;
    if InPhase(s, i, Executing) {
      var t := Next(s, l, End(i, true));
      TurnEnds(s, l, i);
      OtherPhaseKeepsPresent(s.tasks, s.gate.c.batch, |s.begun|, i, Finished);
      if t.gate.c.batch == [] { NobodyIsLeft(t.tasks, s.gate.c.batch); }
      hide AllPresent, OnePerCall, Fresh, Budgets;
    }
  }

  lemma NobodyIsLeft(tasks: seq<Task>, batch: seq<CallId>)
    ensures OnePerCall(tasks, batch, |batch|) ==> forall i :: 0 <= i < |tasks| ==> tasks[i].phase != Waiting
  {
  }

  lemma StepAdvances(s: Loop, l: Limits, step: Step)
    requires Ready(s, l) && Helps(step)
    ensures var t := Next(s, l, step); t == s || Advanced(s, t, l)
  {
    hide Ready, Next, Advanced;
    if step.Wake? { WakeAdvances(s, l, step.i); } else { EndAdvances(s, l, step.i); }
  }

  /** Some coroutine can go on: the one whose tool runs, or the one whose turn it is. */
  lemma SomebodyCanGoOn(s: Loop, l: Limits) returns (i: nat)
    requires Ready(s, l)
    ensures i < |s.tasks| && (Next(s, l, Wake(i, Clear)) != s || Next(s, l, End(i, true)) != s)
  {
    hide BatchOrdinal;
    if LockFree(s) {
      var n := s.gate.next;
      TurnIsInBatch(s, l);
      assert Present(s.tasks, s.gate.c.batch[n - 1]);
      i :| 0 <= i < |s.tasks| && s.tasks[i].phase == Waiting && s.tasks[i].id == s.gate.c.batch[n - 1];
      TurnStarts(s, l, i);
      assert Next(s, l, Wake(i, Clear)).tasks[i].phase == Executing;
    } else {
      i :| 0 <= i < |s.tasks| && s.tasks[i].phase == Executing;
      TurnEnds(s, l, i);
      assert Next(s, l, End(i, true)).tasks[i].phase == Finished;
    }
  }

  // ---- One round ------------------------------------------------------------

  /** Every coroutine is woken and every running tool ends well, in any order, any number of times. */
  predicate Fair(round: seq<Step>, count: nat)
  {
    && (forall k :: 0 <= k < |round| ==> Helps(round[k]))
    && (forall i :: 0 <= i < count ==> Wake(i, Clear) in round && End(i, true) in round)
  }

  lemma CompleteStays(t: Loop, l: Limits, goal: seq<CallId>, step: Step)
    requires Complete(t, l, goal) && Helps(step)
    ensures Next(t, l, step) == t
  {
  }

  lemma AdvancesOn(s: Loop, t: Loop, l: Limits, step: Step)
    requires Ready(s, l) && Advanced(s, t, l) && Helps(step)
    ensures Advanced(s, Next(t, l, step), l)
  {
    hide Ready, Next, Complete;
    if Complete(t, l, Goal(s, l)) {
      CompleteStays(t, l, Goal(s, l), step);
    } else {
      StepAdvances(t, l, step);
    }
  }

  /** After any part of a round the loop has advanced, or none of its steps could do anything. */
  lemma {:induction false} RoundAdvances(s: Loop, l: Limits, round: seq<Step>)
    requires Ready(s, l) && forall k :: 0 <= k < |round| ==> Helps(round[k])
    ensures
      var t := Run(s, l, round);
      Advanced(s, t, l) || (t == s && forall k :: 0 <= k < |round| ==> Next(s, l, round[k]) == s)
  {
    if round != [] {
      hide Ready, Next, Advanced, Helps;
      var n := |round| - 1;
      RoundAdvances(s, l, round[..n]);
      if Advanced(s, Run(s, l, round[..n]), l) {
        AdvancesOn(s, Run(s, l, round[..n]), l, round[n]);
      } else {
        StepAdvances(s, l, round[n]);
        assert forall k :: 0 <= k < n ==> round[..n][k] == round[k];
      }
    }
  }

  lemma FairRoundAdvances(s: Loop, l: Limits, round: seq<Step>)
    requires Ready(s, l) && Fair(round, |s.tasks|)
    ensures Advanced(s, Run(s, l, round), l)
  {
    hide Ready, Next, Advanced, Helps, Run;
    RoundAdvances(s, l, round);
    var i := SomebodyCanGoOn(s, l);
    assert Wake(i, Clear) in round && End(i, true) in round;
  }

  // ---- Every fair schedule --------------------------------------------------

  function RunRounds(s: Loop, l: Limits, rounds: seq<seq<Step>>): Loop
    decreases |rounds|
  {
    if rounds == [] then s else RunRounds(Run(s, l, rounds[0]), l, rounds[1..])
  }

  lemma {:induction false} CompleteRounds(t: Loop, l: Limits, goal: seq<CallId>, rounds: seq<seq<Step>>, count: nat)
    requires Complete(t, l, goal) && forall k :: 0 <= k < |rounds| ==> Fair(rounds[k], count)
    ensures RunRounds(t, l, rounds) == t
    decreases |rounds|
  {
    if rounds != [] {
      hide Complete, Next, Helps, Run;
      CompleteRound(t, l, goal, rounds[0]);
      CompleteRounds(t, l, goal, rounds[1..], count);
    }
  }

  lemma {:induction false} CompleteRound(t: Loop, l: Limits, goal: seq<CallId>, round: seq<Step>)
    requires Complete(t, l, goal) && forall k :: 0 <= k < |round| ==> Helps(round[k])
    ensures Run(t, l, round) == t
  {
    if round != [] {
      hide Complete, Next, Helps;
      CompleteRound(t, l, goal, round[..|round| - 1]);
      CompleteStays(t, l, goal, round[|round| - 1]);
    }
  }

  lemma LeftIsPositive(s: Loop, l: Limits)
    requires Ready(s, l)
    ensures 0 < Left(s) <= 2 * |s.gate.c.batch|
  {
    hide BatchOrdinal, Fresh, Budgets;
  }

  /** No schedule that keeps waking the calls can miss the end: with every call of the batch present,
      as many fair rounds as starts and ends are left, at most two for each call, complete the batch in
      order and leave the loop ready for a model call. */
  lemma {:induction false} EveryFairScheduleFinishes(s: Loop, l: Limits, rounds: seq<seq<Step>>)
    requires Ready(s, l) && |rounds| >= Left(s)
    requires forall k :: 0 <= k < |rounds| ==> Fair(rounds[k], |s.tasks|)
    ensures Complete(RunRounds(s, l, rounds), l, Goal(s, l))
    ensures BeginModel(RunRounds(s, l, rounds).gate.c, l, Clear).Pass?
    decreases |rounds|
  {
    hide Complete, Next, Helps, Run, Ready, Fair, Left, BeginModel;
    LeftIsPositive(s, l);
    var t := Run(s, l, rounds[0]);
    FairRoundAdvances(s, l, rounds[0]);
    if Complete(t, l, Goal(s, l)) {
      CompleteRounds(t, l, Goal(s, l), rounds[1..], |s.tasks|);
      CompleteIsReady(t, l, Goal(s, l));
    } else {
      EveryFairScheduleFinishes(t, l, rounds[1..]);
    }
  }

  lemma CompleteIsReady(t: Loop, l: Limits, goal: seq<CallId>)
    requires Complete(t, l, goal)
    ensures BeginModel(t.gate.c, l, Clear).Pass?
  {
    ReadyForModel(t, l);
  }
}
