/** `SqlAlchemyResumeCommandStore.accept` of `src/app/db/resume_commands.py`: business commands
    are applied exactly once, although their transactions race. */
module ResumeCommands {
  import opened Options

  type Digest = nat  // digests are injective
  type Receipt = nat

  /** The unique constraint: workspace, actor and client request. */
  datatype Key = Key(workspace: nat, actor: nat, request: nat)

  datatype Row = Row(digest: Digest, receipt: Receipt)

  /** `effects` are the applied intents, in commit order. */
  datatype Database = Database(rows: map<Key, Row>, effects: seq<Key>)

  datatype Answer =
    | Accepted(receipt: Receipt, replayed: bool)
    | DigestConflict
    | StaleSession
    | Denied
    | WinnerMissing

  /** What a transaction finds of its caller and the session it writes. */
  datatype Access = Access(authorized: bool, sessionCurrent: bool)

  /** `_accepted`. */
  function Replay(row: Row, digest: Digest): Answer
  {
    if row.digest != digest then DigestConflict else Accepted(row.receipt, true)
  }

  // ---- One call, transaction by transaction ---------------------------------

  datatype Looked = Answered(answer: Answer) | GoesOn

  /** The first transaction up to the point where it applies: nothing is written yet. */
  function Look(db: Database, key: Key, digest: Digest, a: Access): Looked
  {
    if !a.authorized then Answered(Denied)
    else if key in db.rows then Answered(Replay(db.rows[key], digest))
    else if !a.sessionCurrent then Answered(StaleSession)
    else GoesOn
  }

  /** Its commit: intent and row together, or nothing if a rival has committed the key. */
  function Commit(db: Database, key: Key, digest: Digest, receipt: Receipt): (r: (Database, bool))
    ensures r.1 <==> key !in db.rows
  {
    if key in db.rows then (db, false)
    else (Database(db.rows[key := Row(digest, receipt)], db.effects + [key]), true)
  }

  /** The fresh transaction of a loser. */
  function Reread(db: Database, key: Key, digest: Digest, authorized: bool): Answer
  {
    if !authorized then Denied
    else if key in db.rows then Replay(db.rows[key], digest)
    else WinnerMissing
  }

  /** Rows are never changed or removed, and each was applied once. */
  predicate Grows(a: Database, b: Database)
  {
    && (forall k :: k in a.rows ==> k in b.rows && b.rows[k] == a.rows[k]) && a.effects <= b.effects
  }

  /** Exactly the keys with a row were applied, each once. */
  predicate Consistent(db: Database)
  {
    && (forall k :: k in db.rows ==> k in db.effects) && (forall k :: k in db.effects ==> k in db.rows)
    && (forall i, j :: 0 <= i < j < |db.effects| ==> db.effects[i] != db.effects[j])
  }

  lemma CommitKeeps(db: Database, key: Key, digest: Digest, receipt: Receipt)
    requires Consistent(db)
    ensures Consistent(Commit(db, key, digest, receipt).0) && Grows(db, Commit(db, key, digest, receipt).0)
  {
  }

  class CommandStore {
    var rows: map<Key, Row>
    var effects: seq<Key>

    function State(): Database
      reads this
    {
      Database(rows, effects)
    }

    constructor ()
      ensures State() == Database(map[], [])
    {
      rows, effects := map[], [];
    }

    /** Other transactions commit. */
    method Interfere(others: Database)
      modifies this
      ensures State() == others
    {
      rows, effects := others.rows, others.effects;
    }

    /** `accept` from first to last transaction, while any others commit before the insert
        (`first`) and before the losing call reads again (`second`).  An accepted call reports
        the one receipt of its key; a new receipt means that this call applied the intent, and
        every other answer leaves the database as the others made it. */
    method Accept(key: Key, digest: Digest, receipt: Receipt, access: Access, first: Database, second: Database,
                  again: bool)
      returns (answer: Answer)
      requires Consistent(State()) && Grows(State(), first) && Consistent(first)
      requires Grows(first, second) && Consistent(second)
      modifies this
      ensures Consistent(State()) && Grows(old(State()), State())
      ensures answer != WinnerMissing
      ensures answer.Accepted? ==> key in rows && rows[key] == Row(digest, answer.receipt)
      ensures answer.Accepted? && !answer.replayed ==>
                answer.receipt == receipt && State() == Commit(first, key, digest, receipt).0
      ensures !(answer.Accepted? && !answer.replayed) ==> State() in {old(State()), first, second}
      ensures answer == DigestConflict ==> key in rows && rows[key].digest != digest
      ensures
        if !access.authorized then answer == Denied
        else if key in old(rows) then
          answer == if old(rows)[key].digest == digest then Accepted(old(rows)[key].receipt, true) else DigestConflict
        else if !access.sessionCurrent then answer == StaleSession
        else if key !in first.rows then answer == Accepted(receipt, false)
        else if !again then answer == Denied
        else
          answer == if first.rows[key].digest == digest then Accepted(first.rows[key].receipt, true)
                    else DigestConflict
    {
      var looked := Look(State(), key, digest, access);
      if looked.Answered? { return looked.answer; }
      Interfere(first);
      CommitKeeps(first, key, digest, receipt);
      if key !in rows {
        rows := rows[key := Row(digest, receipt)];
        effects := effects + [key];
        return Accepted(receipt, false);
      }
      Interfere(second);
      return Reread(State(), key, digest, again);
    }
  }

  // ---- Any number of racing calls -------------------------------------------

  datatype Phase = Idle | Applying | Lost | Done(answer: Answer)

  /** The receipt of a call is a fresh identity; here, the call's own number. */
  datatype Call = Call(key: Key, digest: Digest, phase: Phase)

  datatype World = World(db: Database, calls: seq<Call>)

  /** One transaction of one call; which one comes next is up to the scheduler. */
  datatype Step = Step(i: nat, access: Access)

  function Advance(w: World, s: Step): (r: World)
    ensures |r.calls| == |w.calls|
    ensures forall i :: 0 <= i < |w.calls| ==>
              r.calls[i].key == w.calls[i].key && r.calls[i].digest == w.calls[i].digest
  {
    if s.i >= |w.calls| then w else
    var c := w.calls[s.i];
    match c.phase
    case Done(_) => w
    case Idle =>
      var phase := match Look(w.db, c.key, c.digest, s.access)
        case Answered(answer) => Done(answer)
        case GoesOn => Applying;
      w.(calls := w.calls[s.i := c.(phase := phase)])
    case Applying =>
      var (db, won) := Commit(w.db, c.key, c.digest, s.i);
      World(db, w.calls[s.i := c.(phase := if won then Done(Accepted(s.i, false)) else Lost)])
    case Lost =>
      w.(calls := w.calls[s.i := c.(phase := Done(Reread(w.db, c.key, c.digest, s.access.authorized)))])
  }

  /** What every call may already know. */
  predicate CallOk(db: Database, c: Call, i: nat)
  {
    match c.phase
    case Done(Accepted(receipt, replayed)) =>
      c.key in db.rows && db.rows[c.key] == Row(c.digest, receipt) && (!replayed ==> receipt == i)
    case Done(DigestConflict) => c.key in db.rows && db.rows[c.key].digest != c.digest
    case Done(WinnerMissing) => false
    case Lost => c.key in db.rows
    case _ => true
  }

  predicate WorldOk(w: World)
  {
    && Consistent(w.db)
    && (forall i :: 0 <= i < |w.calls| ==> CallOk(w.db, w.calls[i], i))
    && (forall k :: k in w.db.rows ==>
          w.db.rows[k].receipt < |w.calls|
          && w.calls[w.db.rows[k].receipt].key == k
          && w.calls[w.db.rows[k].receipt].phase == Done(Accepted(w.db.rows[k].receipt, false)))
  }

  /** A call moves on without touching the database. */
  lemma PhaseKeeps(w: World, i: nat, phase: Phase)
    requires WorldOk(w) && i < |w.calls| && !w.calls[i].phase.Done?
    requires CallOk(w.db, w.calls[i].(phase := phase), i)
    ensures WorldOk(w.(calls := w.calls[i := w.calls[i].(phase := phase)]))
  {
  }

  lemma WinKeeps(w: World, i: nat)
    requires WorldOk(w) && i < |w.calls| && w.calls[i].phase == Applying && w.calls[i].key !in w.db.rows
    ensures
      var c := w.calls[i];
      WorldOk(World(Commit(w.db, c.key, c.digest, i).0, w.calls[i := c.(phase := Done(Accepted(i, false)))]))
  {
    CommitKeeps(w.db, w.calls[i].key, w.calls[i].digest, i);
    hide Consistent;
  }

  lemma AdvanceKeeps(w: World, s: Step)
    requires WorldOk(w)
    ensures WorldOk(Advance(w, s)) && Grows(w.db, Advance(w, s).db)
  {
    if s.i < |w.calls| {
      var c := w.calls[s.i];
      assert CallOk(w.db, c, s.i);
      ConsistentWorld(w);
      CommitKeeps(w.db, c.key, c.digest, s.i);
      var t := Advance(w, s);
      if c.phase == Applying && c.key !in w.db.rows {
        WinKeeps(w, s.i);
      } else if !c.phase.Done? {
        PhaseKeeps(w, s.i, t.calls[s.i].phase);
      }
      hide WorldOk, Consistent;
    }
  }

  lemma ConsistentWorld(w: World)
    requires WorldOk(w)
    ensures Consistent(w.db)
  {
  }

  function Race(w: World, steps: seq<Step>): (r: World)
    ensures |r.calls| == |w.calls|
    ensures forall i :: 0 <= i < |w.calls| ==>
              r.calls[i].key == w.calls[i].key && r.calls[i].digest == w.calls[i].digest
  {
    if steps == [] then w else Advance(Race(w, steps[..|steps| - 1]), steps[|steps| - 1])
  }

  predicate Opening(w: World)
  {
    w.db == Database(map[], []) && forall i :: 0 <= i < |w.calls| ==> w.calls[i].phase == Idle
  }

  lemma {:induction false} RaceIsSound(w: World, steps: seq<Step>)
    requires Opening(w)
    ensures WorldOk(Race(w, steps))
  {
    hide WorldOk, Advance;
    if steps == [] {
      OpeningIsSound(w);
    } else {
      RaceIsSound(w, steps[..|steps| - 1]);
      AdvanceKeeps(Race(w, steps[..|steps| - 1]), steps[|steps| - 1]);
    }
  }

  lemma OpeningIsSound(w: World)
    requires Opening(w)
    ensures WorldOk(w)
  {
  }

  /** Exactly once, for any number of calls and any schedule: an intent is applied at most once
      per key, all accepted calls of a key report the same receipt and carried the same
      request, at most one of them applied it, and the read after a lost race never fails to
      find the winner. */
  lemma ExactlyOnce(w: World, steps: seq<Step>, i: nat, j: nat)
    requires Opening(w) && i < |w.calls| && j < |w.calls| && w.calls[i].key == w.calls[j].key
    ensures
      var t := Race(w, steps);
      var a, b := t.calls[i].phase, t.calls[j].phase;
      && Consistent(t.db)
      && a != Done(WinnerMissing)
      && (a.Done? && b.Done? && a.answer.Accepted? && b.answer.Accepted? ==>
            a.answer.receipt == b.answer.receipt && w.calls[i].digest == w.calls[j].digest
            && (!a.answer.replayed && !b.answer.replayed ==> i == j))
      && (a.Done? && a.answer.Accepted? && b == Done(DigestConflict) ==> w.calls[i].digest != w.calls[j].digest)
  {
    RaceIsSound(w, steps);
    var t := Race(w, steps);
    assert CallOk(t.db, t.calls[i], i) && CallOk(t.db, t.calls[j], j);
  }

  // ---- Calls that leave no trace --------------------------------------------

  /** The call applied its intent. */
  predicate Won(c: Call, i: nat) { c.phase == Done(Accepted(i, false)) }

  /** The schedule without the transactions of one call. */
  function Without(steps: seq<Step>, i: nat): seq<Step>
  {
    if steps == [] then [] else
    var n := |steps| - 1;
    Without(steps[..n], i) + (if steps[n].i == i then [] else [steps[n]])
  }

  /** The same database and the same progress of every other call. */
  predicate SameButFor(a: World, b: World, i: nat)
  {
    a.db == b.db && |a.calls| == |b.calls| && forall j :: 0 <= j < |a.calls| && j != i ==> a.calls[j] == b.calls[j]
  }

  lemma AdvanceWithout(a: World, b: World, s: Step, i: nat)
    requires SameButFor(a, b, i) && i < |a.calls| && !Won(Advance(a, s).calls[i], i)
    ensures !Won(a.calls[i], i)
    ensures SameButFor(Advance(a, s), if s.i == i then b else Advance(b, s), i)
  {
  }

  /** A call that did not apply its intent, whatever it was answered, leaves no trace: without it the
      race ends with the same rows and effects, and every other call stands where it stands. */
  lemma {:induction false} LosersLeaveNoTrace(w: World, steps: seq<Step>, i: nat)
    requires i < |w.calls| && !Won(Race(w, steps).calls[i], i)
    ensures SameButFor(Race(w, steps), Race(w, Without(steps, i)), i)
  {
    hide SameButFor, Advance, Won;
    if steps == [] {
      SameAsItself(w, i);
    } else {
      var n := |steps| - 1;
      StillNotWon(Race(w, steps[..n]), steps[n], i);
      LosersLeaveNoTrace(w, steps[..n], i);
      AdvanceWithout(Race(w, steps[..n]), Race(w, Without(steps[..n], i)), steps[n], i);
      var rest := Without(steps[..n], i);
      if steps[n].i == i {
        assert Without(steps, i) == rest;
      } else {
        assert (rest + [steps[n]])[..|rest|] == rest;
      }
    }
  }

  lemma SameAsItself(w: World, i: nat)
    ensures SameButFor(w, w, i)
  {
  }

  lemma StillNotWon(w: World, s: Step, i: nat)
    requires i < |w.calls| && !Won(Advance(w, s).calls[i], i)
    ensures !Won(w.calls[i], i)
  {
  }

  /** A call that was refused for its digest owns no row and changed nothing in any race. */
  lemma ConflictChangesNothing(w: World, steps: seq<Step>, i: nat)
    requires Opening(w) && i < |w.calls| && Race(w, steps).calls[i].phase == Done(DigestConflict)
    ensures forall k :: k in Race(w, steps).db.rows ==> Race(w, steps).db.rows[k].receipt != i
    ensures Race(w, Without(steps, i)).db == Race(w, steps).db
  {
    RaceIsSound(w, steps);
    LosersLeaveNoTrace(w, steps, i);
  }

  // ---- Answers are earned ---------------------------------------------------

  /** The call `i` took a step with this access before `n`. */
  predicate Presented(steps: seq<Step>, n: nat, i: nat, needsSession: bool)
  {
    exists k :: 0 <= k < n && k < |steps| && steps[k].i == i && steps[k].access.authorized
                && (needsSession ==> steps[k].access.sessionCurrent)
  }

  /** The call `i` took a step without authority, or against a session that is not current. */
  predicate Rejected(steps: seq<Step>, n: nat, i: nat, session: bool)
  {
    exists k :: 0 <= k < n && k < |steps| && steps[k].i == i
                && if session then steps[k].access.authorized && !steps[k].access.sessionCurrent
                   else !steps[k].access.authorized
  }

  /** What the phase of a call says about the access it presented. */
  predicate Earned(steps: seq<Step>, n: nat, i: nat, phase: Phase)
  {
    match phase
    case Idle => true
    case Applying => Presented(steps, n, i, true)
    case Lost => Presented(steps, n, i, true)
    case Done(Accepted(_, replayed)) => Presented(steps, n, i, !replayed)
    case Done(DigestConflict) => Presented(steps, n, i, false)
    case Done(StaleSession) => Rejected(steps, n, i, true)
    case Done(Denied) => Rejected(steps, n, i, false)
    case Done(WinnerMissing) => true
  }

  lemma EarnedLonger(steps: seq<Step>, n: nat, i: nat, phase: Phase)
    requires n <= |steps| && Earned(steps[..n], n, i, phase)
    ensures Earned(steps, |steps|, i, phase)
  {
    if k :| 0 <= k < n && steps[..n][k].i == i && steps[..n][k].access.authorized { assert steps[k] == steps[..n][k]; }
    assert forall session :: Presented(steps[..n], n, i, session) ==> Presented(steps, |steps|, i, session) by {
      forall session | Presented(steps[..n], n, i, session) ensures Presented(steps, |steps|, i, session) {
        var k :| 0 <= k < n && steps[..n][k].i == i && steps[..n][k].access.authorized
              && (session ==> steps[..n][k].access.sessionCurrent);
        assert steps[k] == steps[..n][k];
      }
    }
    assert forall session :: Rejected(steps[..n], n, i, session) ==> Rejected(steps, |steps|, i, session) by {
      forall session | Rejected(steps[..n], n, i, session) ensures Rejected(steps, |steps|, i, session) {
        var k :| 0 <= k < n && steps[..n][k].i == i
              && if session then steps[..n][k].access.authorized && !steps[..n][k].access.sessionCurrent
                 else !steps[..n][k].access.authorized;
        assert steps[k] == steps[..n][k];
      }
    }
  }

  lemma StepEarns(w: World, steps: seq<Step>, i: nat)
    requires steps != [] && i < |w.calls|
    requires Earned(steps[..|steps| - 1], |steps| - 1, i, w.calls[i].phase)
    ensures Earned(steps, |steps|, i, Advance(w, steps[|steps| - 1]).calls[i].phase)
  {
    var n := |steps| - 1;
    EarnedLonger(steps, n, i, w.calls[i].phase);
    if steps[n].i == i {
      assert steps[n].access.authorized ==> Presented(steps, |steps|, i, false);
      assert steps[n].access.authorized && steps[n].access.sessionCurrent ==> Presented(steps, |steps|, i, true);
      assert !steps[n].access.authorized ==> Rejected(steps, |steps|, i, false);
      assert steps[n].access.authorized && !steps[n].access.sessionCurrent ==> Rejected(steps, |steps|, i, true);
      EarnsAlike(steps, i);
      hide Presented, Rejected;
    }
  }

  lemma EarnsAlike(steps: seq<Step>, i: nat)
    ensures Presented(steps, |steps|, i, true) ==> Presented(steps, |steps|, i, false)
  {
  }

  /** In every race a call is applied, or told of a lost race or a conflict, only if it presented authority,
      and applied only if its session was current too; it is denied or told of a stale session only if
      it presented that. */
  lemma {:induction false} AnswersAreEarned(w: World, steps: seq<Step>, i: nat)
    requires Opening(w) && i < |w.calls|
    ensures Earned(steps, |steps|, i, Race(w, steps).calls[i].phase)
  {
    hide Earned, Advance;
    if steps == [] {
      assert Earned([], 0, i, Idle) by { IdleIsEarned(i); }
    } else {
      AnswersAreEarned(w, steps[..|steps| - 1], i);
      StepEarns(Race(w, steps[..|steps| - 1]), steps, i);
    }
  }

  lemma IdleIsEarned(i: nat)
    ensures Earned([], 0, i, Idle)
  {
  }

  /** Nothing is lost either: once a call is answered and every step of it presented authority and a current
      session, its key has been applied, by itself or by a rival. */
  lemma AnsweredIsApplied(w: World, steps: seq<Step>, i: nat)
    requires Opening(w) && i < |w.calls| && Race(w, steps).calls[i].phase.Done?
    requires forall k :: 0 <= k < |steps| && steps[k].i == i ==>
               steps[k].access.authorized && steps[k].access.sessionCurrent
    ensures w.calls[i].key in Race(w, steps).db.rows && w.calls[i].key in Race(w, steps).db.effects
  {
    RaceIsSound(w, steps);
    AnswersAreEarned(w, steps, i);
    assert CallOk(Race(w, steps).db, Race(w, steps).calls[i], i);
  }
}
