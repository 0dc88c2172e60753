/** `_SerialRegistryToolMiddleware`: the tool calls of a batch arrive as concurrent coroutines in any
    order, and a condition variable lets them run one at a time in the order proposed. */
module ToolSerializer {
  import opened Options
  import opened AgentLoop

  // ---- The two critical sections --------------------------------------------

  /** What the condition's lock protects. */
  datatype Gate = Gate(c: Counters, next: nat, failed: bool)

  datatype Entry = KeepWaiting | TurnedAway | Started | StartFailed(failure: Failure)

  /** A coroutine that holds the lock looks whether it is its turn, and starts. */
  function Enter(g: Gate, ordinal: nat, id: CallId, b: Boundary): (Gate, Entry)
  {
    if g.failed then (g, TurnedAway)
    else if ordinal != g.next then (g, KeepWaiting)
    else
      match BeginTool(g.c, b, id)
      case Stop(failure) => (g.(failed := true), StartFailed(failure))
      case Pass(c, checked) =>
        if checked != ordinal then (g.(c := c, failed := true), StartFailed(ProtocolError))
        else (g.(c := c), Started)
  }

  /** The running task ends; the lock was held all the while. */
  function Leave(g: Gate, ordinal: nat, ok: bool): Gate
  {
    if !ok then g.(failed := true) else
    var c := CompleteTool(g.c, ordinal);
    Gate(c, if c.batch == [] then 1 else g.next + 1, g.failed)
  }

  class SerialMiddleware {
    const tracker: Tracker
    var failed: bool
    var nextBatchOrdinal: nat

    function State(): Gate
      reads this, tracker
    {
      Gate(tracker.State(), nextBatchOrdinal, failed)
    }

    constructor (tracker: Tracker)
      ensures this.tracker == tracker && !failed && nextBatchOrdinal == 1
    {
      this.tracker := tracker;
      failed, nextBatchOrdinal := false, 1;
    }

    /** From taking the lock to the start of the tool or back to waiting. */
    method TryStart(ordinal: nat, id: CallId, boundary: Boundary) returns (entry: Entry)
      modifies this, tracker
      ensures (State(), entry) == Enter(old(State()), ordinal, id, boundary)
    {
      if failed { return TurnedAway; }
      if ordinal != nextBatchOrdinal { return KeepWaiting; }
      var r := tracker.StartTool(boundary, id);
      if r.Stop? {
        failed := true;
        return StartFailed(r.failure);
      }
      if r.value != ordinal {
        failed := true;
        return StartFailed(ProtocolError);
      }
      return Started;
    }

    /** From the end of the tool to releasing the lock. */
    method End(ordinal: nat, ok: bool)
      modifies this, tracker
      ensures State() == Leave(old(State()), ordinal, ok)
    {
      if !ok {
        failed := true;
        return;
      }
      tracker.FinishTool(ordinal);
      nextBatchOrdinal := nextBatchOrdinal + 1;
      if tracker.currentBatchCallIds == [] { nextBatchOrdinal := 1; }
    }
  }

  // ---- The concurrent loop --------------------------------------------------

  datatype Phase = Waiting | Executing | Finished | Aborted

  datatype Task = Task(id: CallId, ordinal: nat, phase: Phase)

  /** History: `begun` lists the starts of the current batch, `all` the starts since the loop
      began; `owed` says that an accepted batch still has to be followed by a model call. */
  datatype Loop = Loop(gate: Gate, tasks: seq<Task>, begun: seq<CallId>, all: seq<CallId>, owed: bool)

  datatype Step =
    | AskModel(boundary: Boundary)
    | Respond(boundary: Boundary, feedback: bool, response: Response)
    | Arrive(id: CallId)
    | Wake(i: nat, boundary: Boundary)
    | End(i: nat, ok: bool)
    | Withdraw(i: nat)

  /** The condition's lock is held by a coroutine that executes. */
  predicate LockFree(s: Loop) { forall i :: 0 <= i < |s.tasks| ==> s.tasks[i].phase != Executing }

  predicate InPhase(s: Loop, i: nat, p: Phase) { i < |s.tasks| && s.tasks[i].phase == p }

  function SetPhase(tasks: seq<Task>, i: nat, p: Phase): seq<Task>
    requires i < |tasks|
  {
    tasks[i := tasks[i].(phase := p)]
  }

  function WakeTask(s: Loop, i: nat, b: Boundary): Loop
    requires InPhase(s, i, Waiting)
  {
    var t := s.tasks[i];
    var (gate, entry) := Enter(s.gate, t.ordinal, t.id, b);
    match entry
    case KeepWaiting => s
    case TurnedAway => s.(tasks := SetPhase(s.tasks, i, Aborted))
    case StartFailed(_) => s.(gate := gate, tasks := SetPhase(s.tasks, i, Aborted))
    case Started => s.(gate := gate, tasks := SetPhase(s.tasks, i, Executing),
                       begun := s.begun + [t.id], all := s.all + [t.id])
  }

  function EndTask(s: Loop, i: nat, ok: bool): Loop
    requires InPhase(s, i, Executing)
  {
    var gate := Leave(s.gate, s.tasks[i].ordinal, ok);
    s.(gate := gate, tasks := SetPhase(s.tasks, i, if ok then Finished else Aborted),
       begun := if gate.c.batch == [] then [] else s.begun)
  }

  function Next(s: Loop, l: Limits, step: Step): Loop
  {
    match step
    case AskModel(b) =>
      var r := BeginModel(s.gate.c, l, b);
      if r.Pass? then s.(gate := s.gate.(c := r.state), owed := false) else s
    case Respond(b, feedback, response) =>
      var r := Accepted(s.gate.c, l, b, feedback, response);
      if r.Pass? then s.(gate := s.gate.(c := r.state), owed := s.owed || r.value.calls != []) else s
    case Arrive(id) =>
      var ordinal := BatchOrdinal(s.gate.c.batch, id);
      if ordinal.Some? then s.(tasks := s.tasks + [Task(id, ordinal.value, Waiting)]) else s
    case Wake(i, b) => if InPhase(s, i, Waiting) && LockFree(s) then WakeTask(s, i, b) else s
    case End(i, ok) => if InPhase(s, i, Executing) then EndTask(s, i, ok) else s
    case Withdraw(i) => if InPhase(s, i, Waiting) then s.(tasks := SetPhase(s.tasks, i, Aborted)) else s
  }

  // ---- Invariant ------------------------------------------------------------

  /** The budgets hold, and the whole accepted batch, with the model call after it, is paid. */
  predicate Budgets(s: Loop, l: Limits)
  {
    var c := s.gate.c;
    && c.calls <= l.maxModelCalls && c.iterations <= l.maxIterations
    && c.toolCalls + |c.batch| - |s.begun| <= l.maxToolCalls
    && c.toolResults + |c.batch| - (s.gate.next - 1) <= l.maxToolResults
    && (s.owed ==> c.calls < l.maxModelCalls && c.iterations < l.maxIterations)
    && (c.batch != [] ==> s.owed)
  }

  /** Exactly the first calls of the batch have started, in order; at most one is not finished. */
  predicate InOrder(s: Loop)
  {
    var c, n := s.gate.c, s.gate.next;
    && 1 <= n && (if c.batch == [] then n == 1 else n <= |c.batch|)
    && |s.begun| <= |c.batch| && s.begun == c.batch[..|s.begun|]
    && n - 1 <= |s.begun| <= n
    && c.toolCalls == c.toolResults + |s.begun| - (n - 1)
    && (!s.gate.failed && LockFree(s) ==> |s.begun| == n - 1)
    && (forall i :: 0 <= i < |s.tasks| && s.tasks[i].phase == Executing ==>
          !s.gate.failed && |s.begun| == n && s.tasks[i].ordinal == n && s.tasks[i].id == c.batch[n - 1])
    && (forall i, j :: 0 <= i < j < |s.tasks| ==> s.tasks[i].phase != Executing || s.tasks[j].phase != Executing)
  }

  /** Call identities are never reused, so a start is never repeated. */
  predicate Fresh(s: Loop)
  {
    var c := s.gate.c;
    && NoDuplicates(c.batch) && NoDuplicates(s.all)
    && (forall k :: 0 <= k < |c.batch| ==> c.batch[k] in c.seen)
    && (forall k :: 0 <= k < |s.all| ==> s.all[k] in c.seen)
    && (forall k :: |s.begun| <= k < |c.batch| ==> c.batch[k] !in s.all)
    && (forall i :: 0 <= i < |s.tasks| ==>
          s.tasks[i].id in c.seen
          && (s.tasks[i].id in c.batch ==> BatchOrdinal(c.batch, s.tasks[i].id) == Some(s.tasks[i].ordinal)))
  }

  predicate Sound(s: Loop, l: Limits) { Budgets(s, l) && InOrder(s) && Fresh(s) }

  const START: Loop := Loop(Gate(FRESH, 1, false), [], [], [], false)

  lemma StartIsSound(l: Limits)
    ensures Sound(START, l)
  {
  }

  lemma UnseenIds(seen: set<CallId>, ids: seq<CallId>)
    requires seen * SetOf(ids) == {}
    ensures forall k :: 0 <= k < |ids| ==> ids[k] in SetOf(ids) && ids[k] !in seen
  {
    assert forall id :: id in seen && id in SetOf(ids) ==> id in seen * SetOf(ids);
  }

  lemma RespondKeeps(s: Loop, l: Limits, b: Boundary, feedback: bool, response: Response)
    requires Sound(s, l)
    ensures Sound(Next(s, l, Respond(b, feedback, response)), l)
  {
    hide BatchOrdinal, FirstInvalid;
    var r := Accepted(s.gate.c, l, b, feedback, response);
    var t := Next(s, l, Respond(b, feedback, response));
    if r.Pass? && t.gate.c.batch != s.gate.c.batch {
      var ids := Ids(response.calls);
      UnseenIds(s.gate.c.seen, ids);
      assert forall i :: 0 <= i < |s.tasks| ==> s.tasks[i].id !in ids;
    }
  }

  lemma ArriveKeeps(s: Loop, l: Limits, id: CallId)
    requires Sound(s, l)
    ensures Sound(Next(s, l, Arrive(id)), l)
  {
    hide BatchOrdinal;
    var t := Next(s, l, Arrive(id));
    assert LockFree(t) ==> LockFree(s) by {
      assert forall i :: 0 <= i < |s.tasks| ==> t.tasks[i] == s.tasks[i];
    }
  }

  /** A waiting coroutine whose turn it is belongs to the batch with the ordinal it remembers. */
  lemma TurnIsGenuine(s: Loop, l: Limits, i: nat, b: Boundary)
    requires Sound(s, l) && InPhase(s, i, Waiting) && LockFree(s)
    ensures
      var (gate, entry) := Enter(s.gate, s.tasks[i].ordinal, s.tasks[i].id, b);
      && (entry == Started ==>
            s.tasks[i].id == s.gate.c.batch[s.gate.next - 1] && s.tasks[i].ordinal == s.gate.next && !s.gate.failed
            && |s.begun| == s.gate.next - 1 && s.gate.next <= |s.gate.c.batch|
            && gate == s.gate.(c := s.gate.c.(toolCalls := s.gate.c.toolCalls + 1)))
      && (entry.StartFailed? ==> gate == s.gate.(failed := true))
  {
  }

  lemma WakeKeeps(s: Loop, l: Limits, i: nat, b: Boundary)
    requires Sound(s, l) && InPhase(s, i, Waiting) && LockFree(s)
    ensures Sound(WakeTask(s, i, b), l)
  {
    TurnIsGenuine(s, l, i, b);
    hide BatchOrdinal, Enter;
    var t := WakeTask(s, i, b);
    var n := s.gate.next;
    if t.all != s.all {
      assert t.begun == s.gate.c.batch[..n];
      assert t.tasks[i].phase == Executing;
    }
  }

  lemma EndKeeps(s: Loop, l: Limits, i: nat, ok: bool)
    requires Sound(s, l) && InPhase(s, i, Executing)
    ensures Sound(EndTask(s, i, ok), l)
  {
    hide BatchOrdinal;
    var t := EndTask(s, i, ok);
    assert LockFree(t);
  }

  lemma WithdrawKeeps(s: Loop, l: Limits, i: nat)
    requires Sound(s, l) && InPhase(s, i, Waiting)
    ensures Sound(s.(tasks := SetPhase(s.tasks, i, Aborted)), l)
  {
    hide BatchOrdinal;
    var t := s.(tasks := SetPhase(s.tasks, i, Aborted));
    assert LockFree(t) ==> LockFree(s) by {
      assert forall k :: 0 <= k < |s.tasks| && k != i ==> t.tasks[k] == s.tasks[k];
    }
  }

  /** Every step of every coroutine, in any order, keeps budgets, order and identities. */
  lemma StepKeeps(s: Loop, l: Limits, step: Step)
    requires Sound(s, l)
    ensures Sound(Next(s, l, step), l)
  {
    match step
    case AskModel(_) => hide BatchOrdinal;
    case Respond(b, feedback, response) => RespondKeeps(s, l, b, feedback, response);
    case Arrive(id) => ArriveKeeps(s, l, id);
    case Wake(i, b) => if InPhase(s, i, Waiting) && LockFree(s) { WakeKeeps(s, l, i, b); }
    case End(i, ok) => if InPhase(s, i, Executing) { EndKeeps(s, l, i, ok); }
    case Withdraw(i) => if InPhase(s, i, Waiting) { WithdrawKeeps(s, l, i); }
  }

  function Run(s: Loop, l: Limits, steps: seq<Step>): Loop
  {
    if steps == [] then s else Next(Run(s, l, steps[..|steps| - 1]), l, steps[|steps| - 1])
  }

  lemma {:induction false} RunIsSound(l: Limits, steps: seq<Step>)
    ensures Sound(Run(START, l, steps), l)
  {
    hide Sound, Next;
    if steps == [] {
      StartIsSound(l);
    } else {
      RunIsSound(l, steps[..|steps| - 1]);
      StepKeeps(Run(START, l, steps[..|steps| - 1]), l, steps[|steps| - 1]);
    }
  }

  // ---- Main results ---------------------------------------------------------

  /** In every reachable state all four budgets hold, although the start of a tool checks none
      of them, and at most one started tool has not completed. */
  lemma BudgetsHold(l: Limits, steps: seq<Step>)
    ensures
      var c := Run(START, l, steps).gate.c;
      && c.calls <= l.maxModelCalls && c.iterations <= l.maxIterations
      && c.toolCalls <= l.maxToolCalls && c.toolResults <= l.maxToolResults
      && c.toolResults <= c.toolCalls <= c.toolResults + 1
  {
    RunIsSound(l, steps);
  }

  /** For every arrival order and wake-up schedule, the calls of a batch start exactly in the
      order proposed, and no call that was ever accepted starts twice. */
  lemma StartsInOrder(l: Limits, steps: seq<Step>)
    ensures
      var s := Run(START, l, steps);
      s.begun <= s.gate.c.batch && NoDuplicates(s.all) && (s.gate.c.batch == [] ==> s.gate.next == 1)
  {
    RunIsSound(l, steps);
  }

  lemma FailureStays(s: Loop, l: Limits, step: Step)
    requires s.gate.failed && Sound(s, l)
    ensures var t := Next(s, l, step); t.gate.failed && t.all == s.all
  {
    hide BatchOrdinal;
  }

  /** After the first failure no call starts any more. */
  lemma {:induction false} NothingStartsAfterFailure(l: Limits, steps: seq<Step>, more: seq<Step>)
    requires Run(START, l, steps).gate.failed
    ensures
      var s, t := Run(START, l, steps), Run(START, l, steps + more); t.gate.failed && t.all == s.all
  {
    hide Next, Sound;
    if more == [] {
      assert steps + more == steps;
    } else {
      var n := |more| - 1;
      NothingStartsAfterFailure(l, steps, more[..n]);
      RunIsSound(l, steps + more[..n]);
      assert (steps + more)[..|steps + more| - 1] == steps + more[..n];
      FailureStays(Run(START, l, steps + more[..n]), l, more[n]);
    }
  }

  /** An accepted batch is never stranded: once its calls are complete the next model call
      passes every limit. */
  lemma NeverStranded(l: Limits, steps: seq<Step>)
    requires var s := Run(START, l, steps); s.owed && s.gate.c.batch == []
    ensures BeginModel(Run(START, l, steps).gate.c, l, Clear).Pass?
  {
    RunIsSound(l, steps);
  }

  // ---- What a turn does -----------------------------------------------------

  /** A model call that the budgets allow between batches is counted, and pays what was owed. */
  lemma AskMeans(s: Loop, l: Limits, b: Boundary)
    ensures
      var c, t := s.gate.c, Next(s, l, AskModel(b));
      if b == Clear && c.calls < l.maxModelCalls && c.iterations < l.maxIterations && c.batch == [] then
        t == s.(gate := Gate(c.(calls := c.calls + 1, iterations := c.iterations + 1), s.gate.next, s.gate.failed),
                owed := false)
      else t == s
  {
  }

  /** A batch that is well formed and fits as a whole is open from then on, and a model call is owed for it;
      any other response leaves the loop as it is. */
  lemma RespondMeans(s: Loop, l: Limits, b: Boundary, feedback: bool, r: Response)
    requires r.calls != []
    ensures
      var c, t := s.gate.c, Next(s, l, Respond(b, feedback, r));
      if WellFormed(c, r) && b == Clear && c.batch == [] && BatchFits(c, l, |r.calls|) then
        && |t.gate.c.batch| == |r.calls| && (forall k :: 0 <= k < |r.calls| ==> t.gate.c.batch[k] == r.calls[k].id)
        && t.gate.c.iterations == c.iterations + 1 && t.gate.c.calls == c.calls
        && t == s.(gate := s.gate.(c := t.gate.c), owed := true)
      else t == s
  {
    BatchIsAccepted(s.gate.c, l, b, feedback, r);
    hide Accepted, WellFormed, BatchFits;
  }

  /** A coroutine that looks whether it is its turn gives up after a failure and goes on waiting before its
      turn; in its turn it starts, and if something stops the loop it fails it for all. */
  lemma WakeMeans(s: Loop, l: Limits, i: nat, b: Boundary)
    requires Sound(s, l) && InPhase(s, i, Waiting) && LockFree(s) && s.tasks[i].id in s.gate.c.batch
    ensures
      var t, task := Next(s, l, Wake(i, b)), s.tasks[i];
      if s.gate.failed then t == s.(tasks := s.tasks[i := Task(task.id, task.ordinal, Aborted)])
      else if task.ordinal != s.gate.next then t == s
      else if b != Clear then
        t == s.(tasks := s.tasks[i := Task(task.id, task.ordinal, Aborted)],
                gate := Gate(s.gate.c, s.gate.next, true))
      else
        && t.tasks == s.tasks[i := Task(task.id, task.ordinal, Executing)]
        && t.begun == s.begun + [task.id] && t.all == s.all + [task.id] && t.owed == s.owed
        && t.gate == Gate(s.gate.c.(toolCalls := s.gate.c.toolCalls + 1), s.gate.next, false)
  {
  }

  /** A coroutine of an earlier batch never starts: at its ordinal it fails the loop. */
  lemma StrangerFails(s: Loop, l: Limits, i: nat, b: Boundary)
    requires Sound(s, l) && InPhase(s, i, Waiting) && LockFree(s) && s.tasks[i].id !in s.gate.c.batch
    ensures
      var t := Next(s, l, Wake(i, b));
      && t.all == s.all && t.gate.c == s.gate.c && t.gate.next == s.gate.next
      && (t.gate.failed <==> s.gate.failed || s.tasks[i].ordinal == s.gate.next)
      && (t.tasks[i].phase == (if t.gate.failed then Aborted else Waiting))
  {
  }

  /** The coroutine that runs ends: one more result and the next turn, the first one if that was the last
      of the batch, or a failure of the loop that counts nothing. */
  lemma EndMeans(s: Loop, l: Limits, i: nat, ok: bool)
    requires Sound(s, l) && InPhase(s, i, Executing)
    ensures
      var t, c, n := Next(s, l, End(i, ok)), s.gate.c, s.gate.next;
      && t.tasks == s.tasks[i := Task(s.tasks[i].id, n, if ok then Finished else Aborted)]
      && t.all == s.all && t.owed == s.owed && t.gate.failed == !ok
      && (!ok ==> t.gate.c == c && t.gate.next == n && t.begun == s.begun)
      && (ok ==>
            && t.gate.c.toolResults == c.toolResults + 1 && t.gate.c.toolCalls == c.toolCalls
            && t.gate.c.calls == c.calls && t.gate.c.iterations == c.iterations && t.gate.c.seen == c.seen
            && if n == |c.batch| then t.gate.c.batch == [] && t.gate.next == 1 && t.begun == []
               else t.gate.c.batch == c.batch && t.gate.next == n + 1 && t.begun == s.begun)
  {
  }

  function CountOf(tasks: seq<Task>, p: Phase): nat
  {
    if tasks == [] then 0 else
    var n := |tasks| - 1;
    CountOf(tasks[..n], p) + if tasks[n].phase == p then 1 else 0
  }

  lemma {:induction false} CountAfter(tasks: seq<Task>, i: nat, p: Phase, q: Phase)
    requires i < |tasks| && tasks[i].phase != p
    ensures CountOf(SetPhase(tasks, i, q), p) == CountOf(tasks, p) + if q == p then 1 else 0
  {
    var n, after := |tasks| - 1, SetPhase(tasks, i, q);
    if i == n {
      assert after[..n] == tasks[..n];
    } else {
      assert after[..n] == SetPhase(tasks[..n], i, q);
      CountAfter(tasks[..n], i, p, q);
    }
  }

  /** The counters are exact: as many calls as starts, as many results as coroutines that finished. */
  predicate Counted(s: Loop) { s.gate.c.toolCalls == |s.all| && s.gate.c.toolResults == CountOf(s.tasks, Finished) }

  lemma CountedStays(s: Loop, l: Limits, step: Step)
    requires Counted(s) && Sound(s, l)
    ensures Counted(Next(s, l, step))
  {
    var t := Next(s, l, step);
    hide BatchOrdinal, FirstInvalid;
    match step
    case AskModel(_) =>
    case Respond(_, _, _) =>
    case Arrive(id) =>
      if t.tasks != s.tasks { assert t.tasks[..|t.tasks| - 1] == s.tasks; }
    case Wake(i, b) =>
      if InPhase(s, i, Waiting) && LockFree(s) {
        TurnIsGenuine(s, l, i, b);
        CountAfter(s.tasks, i, Finished, Aborted);
        CountAfter(s.tasks, i, Finished, Executing);
      }
    case End(i, ok) =>
      if InPhase(s, i, Executing) { CountAfter(s.tasks, i, Finished, if ok then Finished else Aborted); }
    case Withdraw(i) =>
      if InPhase(s, i, Waiting) { CountAfter(s.tasks, i, Finished, Aborted); }
  }

  lemma {:induction false} CountsAreExact(l: Limits, steps: seq<Step>)
    ensures
      var s := Run(START, l, steps);
      s.gate.c.toolCalls == |s.all| && s.gate.c.toolResults == CountOf(s.tasks, Finished)
  {
    hide Next, Sound;
    if steps != [] {
      RunIsSound(l, steps[..|steps| - 1]);
      CountsAreExact(l, steps[..|steps| - 1]);
      CountedStays(Run(START, l, steps[..|steps| - 1]), l, steps[|steps| - 1]);
    }
  }

  predicate Present(tasks: seq<Task>, id: CallId)
  {
    exists i :: 0 <= i < |tasks| && tasks[i].phase == Waiting && tasks[i].id == id
  }

  /** Every call of the batch from position `from` on is present and waits. */
  predicate AllPresent(tasks: seq<Task>, batch: seq<CallId>, from: nat)
  {
    forall k :: from <= k < |batch| ==> Present(tasks, batch[k])
  }

  lemma OthersStayPresent(tasks: seq<Task>, after: seq<Task>, batch: seq<CallId>, n: nat, i: nat)
    requires 1 <= n <= |batch| && i < |tasks| == |after| && NoDuplicates(batch) && tasks[i].id == batch[n - 1]
    requires AllPresent(tasks, batch, n - 1)
    requires forall j :: 0 <= j < |tasks| && j != i ==> after[j] == tasks[j]
    ensures AllPresent(after, batch, n)
  {
    forall k | n <= k < |batch| ensures Present(after, batch[k]) {
      assert Present(tasks, batch[k]) && batch[k] != batch[n - 1];
      var j :| 0 <= j < |tasks| && tasks[j].phase == Waiting && tasks[j].id == batch[k];
      assert after[j].phase == Waiting && after[j].id == batch[k];
    }
  }

  lemma TurnStarts(s: Loop, l: Limits, i: nat)
    requires Sound(s, l) && !s.gate.failed && LockFree(s) && s.gate.c.batch != []
    requires InPhase(s, i, Waiting) && s.tasks[i].id == s.gate.c.batch[s.gate.next - 1]
    ensures
      var u := Next(s, l, Wake(i, Clear));
      && Sound(u, l) && u.tasks == SetPhase(s.tasks, i, Executing) && u.all == s.all + [s.tasks[i].id]
      && u.gate == s.gate.(c := s.gate.c.(toolCalls := s.gate.c.toolCalls + 1)) && u.owed == s.owed
      && s.tasks[i].ordinal == s.gate.next
  {
    OrdinalOfMember(s.gate.c.batch, s.gate.next - 1);
    WakeKeeps(s, l, i, Clear);
    hide BatchOrdinal;
  }

  lemma TurnEnds(u: Loop, l: Limits, i: nat)
    requires Sound(u, l) && InPhase(u, i, Executing)
    ensures
      var t := Next(u, l, End(i, true));
      && Sound(t, l) && !t.gate.failed && LockFree(t) && t.all == u.all && t.owed == u.owed
      && t.tasks == SetPhase(u.tasks, i, Finished)
      && (if u.gate.next == |u.gate.c.batch| then t.gate.c.batch == []
          else t.gate.c.batch == u.gate.c.batch && t.gate.next == u.gate.next + 1)
  {
    EndKeeps(u, l, i, true);
    hide BatchOrdinal;
  }

  /** The coroutine whose turn it is can start; completing it is one step towards the end. */
  lemma TurnAdvances(s: Loop, l: Limits, i: nat)
    requires Sound(s, l) && !s.gate.failed && LockFree(s) && s.gate.c.batch != []
    requires InPhase(s, i, Waiting) && s.tasks[i].id == s.gate.c.batch[s.gate.next - 1]
    requires AllPresent(s.tasks, s.gate.c.batch, s.gate.next - 1)
    ensures
      var t := Next(Next(s, l, Wake(i, Clear)), l, End(i, true));
      var n := s.gate.next;
      && Sound(t, l) && !t.gate.failed && LockFree(t) && t.owed && t.all == s.all + [s.gate.c.batch[n - 1]]
      && (if n == |s.gate.c.batch| then t.gate.c.batch == []
          else t.gate.c.batch == s.gate.c.batch && t.gate.next == n + 1 && AllPresent(t.tasks, t.gate.c.batch, n))
  {
    TurnStarts(s, l, i);
    var u := Next(s, l, Wake(i, Clear));
    TurnEnds(u, l, i);
    OthersStayPresent(s.tasks, Next(u, l, End(i, true)).tasks, s.gate.c.batch, s.gate.next, i);
    hide BatchOrdinal, Next, AllPresent;
  }

  lemma {:induction false} OrdinalOfMember(batch: seq<CallId>, k: nat)
    requires k < |batch| && NoDuplicates(batch)
    ensures BatchOrdinal(batch, batch[k]) == Some(k + 1)
  {
    if k > 0 {
      assert batch[0] != batch[k] && batch[1..][k - 1] == batch[k];
      assert forall i, j :: 0 <= i < j < |batch[1..]| ==> batch[1..][i] == batch[i + 1] && batch[1..][j] == batch[j + 1];
      OrdinalOfMember(batch[1..], k - 1);
    }
  }

  /** No deadlock: when every call of the batch is present, whatever order they arrived in, some
      schedule runs the rest of the batch in order and leaves the loop ready for a model call. */
  lemma {:induction false} BatchCanFinish(s: Loop, l: Limits) returns (steps: seq<Step>)
    requires Sound(s, l) && !s.gate.failed && LockFree(s) && s.gate.c.batch != []
    requires AllPresent(s.tasks, s.gate.c.batch, s.gate.next - 1)
    ensures
      var t := Run(s, l, steps);
      t.gate.c.batch == [] && t.all == s.all + s.gate.c.batch[s.gate.next - 1..]
      && BeginModel(t.gate.c, l, Clear).Pass?
    decreases |s.gate.c.batch| - s.gate.next
  {
    hide BatchOrdinal, Next, Sound, LockFree, Run, BeginModel;
    var n, b := s.gate.next, s.gate.c.batch;
    TurnIsInBatch(s, l);
    assert Present(s.tasks, s.gate.c.batch[n - 1]);
    var i :| 0 <= i < |s.tasks| && s.tasks[i].phase == Waiting && s.tasks[i].id == s.gate.c.batch[n - 1];
    var t := Next(Next(s, l, Wake(i, Clear)), l, End(i, true));
    TurnAdvances(s, l, i);
    var two := [Wake(i, Clear), End(i, true)];
    RunTwo(s, l, two);
    assert b[n - 1..] == [b[n - 1]] + b[n..];
    if n == |b| {
      steps := two;
      ReadyForModel(t, l);
    } else {
      var rest := BatchCanFinish(t, l);
      RunSplits(s, l, two, rest);
      steps := two + rest;
    }
  }

  lemma TurnIsInBatch(s: Loop, l: Limits)
    requires Sound(s, l) && s.gate.c.batch != []
    ensures 1 <= s.gate.next <= |s.gate.c.batch|
  {
  }

  lemma ReadyForModel(s: Loop, l: Limits)
    requires Sound(s, l) && s.owed && s.gate.c.batch == []
    ensures BeginModel(s.gate.c, l, Clear).Pass?
  {
  }

  lemma RunTwo(s: Loop, l: Limits, steps: seq<Step>)
    requires |steps| == 2
    ensures Run(s, l, steps) == Next(Next(s, l, steps[0]), l, steps[1])
  {
    hide Next;
    assert steps[..1][..0] == [] && steps[..1][0] == steps[0];
    assert Run(s, l, steps[..1]) == Next(Run(s, l, steps[..1][..0]), l, steps[0]);
  }

  lemma {:induction false} RunSplits(s: Loop, l: Limits, first: seq<Step>, rest: seq<Step>)
    ensures Run(s, l, first + rest) == Run(Run(s, l, first), l, rest)
  {
    hide Next;
    if rest == [] {
      assert first + rest == first;
    } else {
      RunSplits(s, l, first, rest[..|rest| - 1]);
      assert (first + rest)[..|first + rest| - 1] == first + rest[..|rest| - 1];
    }
  }
}
