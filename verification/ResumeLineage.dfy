/** `_actual_fact_uses` of `src/app/db/resume_confirmation.py`: which facts a resume version
    really uses, recomputed from the first draft and the patches of every revision. */
module ResumeLineage {
  import opened Options

  type FactId = nat
  type VersionId = nat

  /** `BulletItem(f)` is the name-based identity of fact `f` in its session; such identities
      are injective and differ from all other item identities. */
  datatype ItemId = BulletItem(fact: FactId) | ProjectItem(project: nat) | OtherItem(other: nat)

  datatype Field = Bullet | Summary | Named(name: nat)

  datatype Key = Key(item: ItemId, field: Field)

  type Uses = map<Key, set<FactId>>

  datatype Patch =
    | Remove(item: ItemId)
    | Replace(item: ItemId, field: Field, facts: set<FactId>)
    | Other(item: ItemId)
    | BadPatch

  datatype Feedback = NoFeedback | FeedbackLost | BadPatches | Patches(patches: seq<Patch>)

  datatype ProjectContent = ProjectContent(id: ItemId, bullets: seq<ItemId>)

  datatype Version = Version(
    number: nat,
    parent: Option<VersionId>,
    projects: seq<ProjectContent>,
    items: set<ItemId>,
    snapshot: set<FactId>,
    feedback: Feedback)

  datatype Error = NotFound | Incomplete | Unresolvable | FeedbackMissing | PatchUnresolvable | SnapshotOmits

  datatype Outcome<+T> = Ok(value: T) | Err(error: Error)

  // ---- Lineage --------------------------------------------------------------

  /** The chain of parents, oldest first; numbers strictly decrease towards the oldest. */
  function Chain(store: map<VersionId, Version>, v: Version): (r: Outcome<seq<Version>>)
    ensures r.Ok? ==> r.value != [] && r.value[|r.value| - 1] == v && r.value[0].parent.None?
    ensures r.Ok? ==> forall i :: 0 <= i < |r.value| ==> r.value[i].number == r.value[0].number + i
    decreases v.number
  {
    if v.parent.None? then Ok([v])
    else if v.parent.value !in store then Err(NotFound)
    else
      var p := store[v.parent.value];
      if p.number + 1 != v.number then Err(Incomplete)
      else
        match Chain(store, p)
        case Err(e) => Err(e)
        case Ok(vs) => Ok(vs + [v])
  }

  // ---- The fold -------------------------------------------------------------

  /** The facts of the snapshot whose bullet identity this is. */
  function Matches(snapshot: set<FactId>, bullet: ItemId): set<FactId>
  {
    set f | f in snapshot && BulletItem(f) == bullet
  }

  predicate Resolvable(snapshot: set<FactId>, bullet: ItemId) { |Matches(snapshot, bullet)| == 1 }

  datatype Op = Write(key: Key, facts: set<FactId>) | Drop(item: ItemId) | Keep(items: set<ItemId>)

  function Apply(uses: Uses, op: Op): Uses
  {
    match op
    case Write(key, facts) => uses[key := facts]
    case Drop(item) => map k | k in uses && k.item != item :: uses[k]
    case Keep(items) => map k | k in uses && k.item in items :: uses[k]
  }

  function Fold(ops: seq<Op>): Uses
  {
    if ops == [] then map[] else Apply(Fold(ops[..|ops| - 1]), ops[|ops| - 1])
  }

  function BulletOps(snapshot: set<FactId>, bullets: seq<ItemId>): seq<Op>
  {
    if bullets == [] then [] else
    var n := |bullets| - 1;
    BulletOps(snapshot, bullets[..n]) + [Write(Key(bullets[n], Bullet), Matches(snapshot, bullets[n]))]
  }

  function ProjectOps(snapshot: set<FactId>, p: ProjectContent): seq<Op>
  {
    BulletOps(snapshot, p.bullets)
    + (if p.bullets == [] then [] else [Write(Key(p.id, Summary), Matches(snapshot, p.bullets[0]))])
  }

  function BaseOps(snapshot: set<FactId>, projects: seq<ProjectContent>): seq<Op>
  {
    if projects == [] then [] else
    var n := |projects| - 1;
    BaseOps(snapshot, projects[..n]) + ProjectOps(snapshot, projects[n])
  }

  predicate GoodPatch(p: Patch) { !p.BadPatch? && (p.Replace? ==> p.facts != {}) }

  function PatchOps(ps: seq<Patch>): seq<Op>
  {
    if ps == [] then [] else
    var p := ps[|ps| - 1];
    PatchOps(ps[..|ps| - 1])
    + (match p
       case Remove(item) => [Drop(item)]
       case Replace(item, field, facts) => [Write(Key(item, field), facts)]
       case _ => [])
  }

  /** Items that left the content lose their uses before the patches of that version apply. */
  function VersionOps(v: Version): seq<Op>
  {
    [Keep(v.items)] + (if v.feedback.Patches? then PatchOps(v.feedback.patches) else [])
  }

  function LineageOps(vs: seq<Version>): seq<Op>
    requires vs != []
  {
    if |vs| == 1 then BaseOps(vs[0].snapshot, vs[0].projects)
    else LineageOps(vs[..|vs| - 1]) + VersionOps(vs[|vs| - 1])
  }

  function UnionOf(uses: Uses): set<FactId> { set k, f | k in uses && f in uses[k] :: f }

  // ---- When the history can be read -----------------------------------------

  predicate BulletsResolve(snapshot: set<FactId>, bullets: seq<ItemId>)
  {
    forall i :: 0 <= i < |bullets| ==> Resolvable(snapshot, bullets[i])
  }

  predicate ProjectsResolve(snapshot: set<FactId>, projects: seq<ProjectContent>)
  {
    forall i :: 0 <= i < |projects| ==> BulletsResolve(snapshot, projects[i].bullets)
  }

  predicate GoodFeedback(f: Feedback)
  {
    f.Patches? && forall i :: 0 <= i < |f.patches| ==> GoodPatch(f.patches[i])
  }

  function FeedbackError(f: Feedback): Error
  {
    match f
    case NoFeedback => Incomplete
    case FeedbackLost => FeedbackMissing
    case _ => PatchUnresolvable
  }

  /** The evaluation with its checks, version by version. */
  function Evaluate(vs: seq<Version>): Outcome<Uses>
    requires vs != []
  {
    var last := vs[|vs| - 1];
    if |vs| == 1 then
      if last.number != 1 then Err(Incomplete)
      else if !ProjectsResolve(last.snapshot, last.projects) then Err(Unresolvable)
      else if !(UnionOf(Fold(LineageOps(vs))) <= last.snapshot) then Err(SnapshotOmits)
      else Ok(Fold(LineageOps(vs)))
    else
      match Evaluate(vs[..|vs| - 1])
      case Err(e) => Err(e)
      case Ok(_) =>
        if !GoodFeedback(last.feedback) then Err(FeedbackError(last.feedback))
        else if !(UnionOf(Fold(LineageOps(vs))) <= last.snapshot) then Err(SnapshotOmits)
        else Ok(Fold(LineageOps(vs)))
  }

  function FactUses(store: map<VersionId, Version>, v: Version): Outcome<set<FactId>>
  {
    match Chain(store, v)
    case Err(e) => Err(e)
    case Ok(vs) =>
      match Evaluate(vs)
      case Err(e) => Err(e)
      case Ok(uses) => Ok(UnionOf(uses))
  }

  // ---- _actual_fact_uses ----------------------------------------------------

  /** The walk to the first version, newest first, then reversed. */
  method CollectLineage(store: map<VersionId, Version>, row: Version) returns (r: Outcome<seq<Version>>)
    ensures r == Chain(store, row)
  {
    var lineage := [row];
    ghost var rest: seq<Version> := [];
    assert Chain(store, row).Ok? ==> Chain(store, row).value + rest == Chain(store, row).value;
    while lineage[|lineage| - 1].parent.Some?
      invariant lineage != [] && Reversed(lineage) == [lineage[|lineage| - 1]] + rest
      invariant Chain(store, row) ==
        match Chain(store, lineage[|lineage| - 1])
        case Err(e) => Err(e)
        case Ok(vs) => Ok(vs + rest)
      decreases lineage[|lineage| - 1].number
    {
      var last := lineage[|lineage| - 1];
      if last.parent.value !in store { return Err(NotFound); }
      var parent := store[last.parent.value];
      if parent.number + 1 != last.number { return Err(Incomplete); }
      assert Chain(store, parent).Ok? ==>
        Chain(store, parent).value + [last] + rest == Chain(store, parent).value + ([last] + rest);
      ReversedLast(lineage, parent);
      lineage := lineage + [parent];
      rest := [last] + rest;
    }
    return Ok(Reversed(lineage));
  }

  function Reversed<T>(xs: seq<T>): seq<T>
  {
    if xs == [] then [] else [xs[|xs| - 1]] + Reversed(xs[..|xs| - 1])
  }

  lemma ReversedLast<T>(xs: seq<T>, x: T)
    ensures Reversed(xs + [x]) == [x] + Reversed(xs)
  {
    assert (xs + [x])[..|xs|] == xs;
  }

  lemma {:induction false} FoldJoin(a: seq<Op>, b: seq<Op>, op: Op)
    ensures Fold(a + (b + [op])) == Apply(Fold(a + b), op)
  {
    assert a + (b + [op]) == a + b + [op];
    assert (a + b + [op])[..|a + b|] == a + b;
  }

  /** The bullets of one project of the first version. */
  method BindProject(ghost before: seq<Op>, uses: Uses, snapshot: set<FactId>, p: ProjectContent)
    returns (ok: bool, grown: Uses)
    requires uses == Fold(before)
    ensures ok == BulletsResolve(snapshot, p.bullets)
    ensures ok ==> grown == Fold(before + ProjectOps(snapshot, p))
  {
    grown := uses;
    assert before + [] == before;
    for i := 0 to |p.bullets|
      invariant BulletsResolve(snapshot, p.bullets[..i])
      invariant grown == Fold(before + BulletOps(snapshot, p.bullets[..i]))
    {
      var bullet := p.bullets[i];
      assert p.bullets[..i + 1][..i] == p.bullets[..i];
      var matches := Matches(snapshot, bullet);
      if |matches| != 1 {
        assert !Resolvable(snapshot, p.bullets[i]);
        return false, grown;
      }
      FoldJoin(before, BulletOps(snapshot, p.bullets[..i]), Write(Key(bullet, Bullet), matches));
      grown := grown[Key(bullet, Bullet) := matches];
    }
    assert p.bullets[..|p.bullets|] == p.bullets;
    if p.bullets == [] {
      assert ProjectOps(snapshot, p) == [];
      return true, grown;
    }
    var first := Matches(snapshot, p.bullets[0]);
    FoldJoin(before, BulletOps(snapshot, p.bullets), Write(Key(p.id, Summary), first));
    grown := grown[Key(p.id, Summary) := first];
    return true, grown;
  }

  method BindBase(v: Version) returns (r: Outcome<Uses>)
    ensures r == if ProjectsResolve(v.snapshot, v.projects) then Ok(Fold(BaseOps(v.snapshot, v.projects)))
                 else Err(Unresolvable)
  {
    var uses: Uses := map[];
    for i := 0 to |v.projects|
      invariant ProjectsResolve(v.snapshot, v.projects[..i])
      invariant uses == Fold(BaseOps(v.snapshot, v.projects[..i]))
    {
      assert v.projects[..i + 1][..i] == v.projects[..i];
      var ok, grown := BindProject(BaseOps(v.snapshot, v.projects[..i]), uses, v.snapshot, v.projects[i]);
      if !ok {
        assert !BulletsResolve(v.snapshot, v.projects[i].bullets);
        return Err(Unresolvable);
      }
      uses := grown;
    }
    assert v.projects[..|v.projects|] == v.projects;
    return Ok(uses);
  }

  /** One revision: filter by the items still in the content, then its patches in order. */
  method Revise(ghost before: seq<Op>, uses: Uses, v: Version) returns (r: Outcome<Uses>)
    requires uses == Fold(before)
    ensures r == if GoodFeedback(v.feedback) then Ok(Fold(before + VersionOps(v)))
                 else Err(FeedbackError(v.feedback))
  {
    var kept: Uses := map k | k in uses && k.item in v.items :: uses[k];
    assert (before + [Keep(v.items)])[..|before|] == before;
    match v.feedback {
      case NoFeedback => return Err(Incomplete);
      case FeedbackLost => return Err(FeedbackMissing);
      case BadPatches => return Err(PatchUnresolvable);
      case Patches(patches) =>
        var ok, patched := ApplyPatches(before + [Keep(v.items)], kept, patches);
        if !ok { return Err(PatchUnresolvable); }
        assert before + VersionOps(v) == before + [Keep(v.items)] + PatchOps(patches);
        return Ok(patched);
    }
  }

  method ApplyPatches(ghost before: seq<Op>, uses: Uses, patches: seq<Patch>) returns (ok: bool, patched: Uses)
    requires uses == Fold(before)
    ensures ok <==> forall j :: 0 <= j < |patches| ==> GoodPatch(patches[j])
    ensures ok ==> patched == Fold(before + PatchOps(patches))
  {
    patched := uses;
    assert before + [] == before;
    for i := 0 to |patches|
      invariant forall j :: 0 <= j < i ==> GoodPatch(patches[j])
      invariant patched == Fold(before + PatchOps(patches[..i]))
    {
      var p := patches[i];
      assert patches[..i + 1][..i] == patches[..i];
      ghost var ops := PatchOps(patches[..i]);
      match p {
        case BadPatch => return false, patched;
        case Other(_) =>
          assert PatchOps(patches[..i + 1]) == ops;
        case Remove(item) =>
          FoldJoin(before, ops, Drop(item));
          patched := map k | k in patched && k.item != item :: patched[k];
        case Replace(item, field, facts) =>
          if facts == {} { return false, patched; }
          FoldJoin(before, ops, Write(Key(item, field), facts));
          patched := patched[Key(item, field) := facts];
      }
    }
    assert patches[..|patches|] == patches;
    return true, patched;
  }

  /** The first version, with its checks in order. */
  method EvaluateFirst(v: Version) returns (r: Outcome<Uses>)
    ensures r == Evaluate([v])
    ensures r.Ok? ==> r.value == Fold(LineageOps([v]))
  {
    if v.number != 1 { return Err(Incomplete); }
    var base := BindBase(v);
    if base.Err? { return base; }
    if !(UnionOf(base.value) <= v.snapshot) { return Err(SnapshotOmits); }
    return base;
  }

  /** A further version after a history that could be read. */
  method EvaluateNext(ghost before: seq<Version>, uses: Uses, v: Version) returns (r: Outcome<Uses>)
    requires before != [] && Evaluate(before) == Ok(uses) && uses == Fold(LineageOps(before))
    ensures r == Evaluate(before + [v])
    ensures r.Ok? ==> r.value == Fold(LineageOps(before + [v]))
  {
    assert (before + [v])[..|before|] == before;
    r := Revise(LineageOps(before), uses, v);
    if r.Ok? && !(UnionOf(r.value) <= v.snapshot) { return Err(SnapshotOmits); }
  }

  method ActualFactUses(store: map<VersionId, Version>, row: Version) returns (r: Outcome<set<FactId>>)
    ensures r == FactUses(store, row)
  {
    hide Evaluate, Fold, LineageOps;
    var chain := CollectLineage(store, row);
    if chain.Err? { return Err(chain.error); }
    var vs := chain.value;
    assert vs[..1] == [vs[0]];
    var step := EvaluateFirst(vs[0]);
    if step.Err? {
      FirstErrorStays(vs, 1);
      return Err(step.error);
    }
    for i := 1 to |vs|
      invariant Evaluate(vs[..i]) == step && step.Ok? && step.value == Fold(LineageOps(vs[..i]))
    {
      assert vs[..i + 1] == vs[..i] + [vs[i]];
      step := EvaluateNext(vs[..i], step.value, vs[i]);
      if step.Err? {
        FirstErrorStays(vs, i + 1);
        return Err(step.error);
      }
    }
    assert vs[..|vs|] == vs;
    return Ok(UnionOf(step.value));
  }

  lemma {:induction false} FirstErrorStays(vs: seq<Version>, n: nat)
    requires 1 <= n <= |vs| && Evaluate(vs[..n]).Err?
    ensures Evaluate(vs) == Evaluate(vs[..n])
    decreases |vs| - n
  {
    if n < |vs| {
      assert vs[..n + 1][..n] == vs[..n];
      FirstErrorStays(vs, n + 1);
    } else {
      assert vs[..n] == vs;
    }
  }

  // ---- The last writer decides ----------------------------------------------

  predicate Clears(op: Op, item: ItemId)
  {
    match op
    case Write(_, _) => false
    case Drop(i) => i == item
    case Keep(items) => item !in items
  }

  /** The write at `k` is the last one of this key, and nothing cleared its item since. */
  predicate LiveWrite(ops: seq<Op>, k: nat, key: Key)
  {
    && k < |ops| && ops[k].Write? && ops[k].key == key
    && forall m :: k < m < |ops| ==> !(ops[m].Write? && ops[m].key == key) && !Clears(ops[m], key.item)
  }

  /** The uses of an item's field are those of its last write, and there are none if the item
      was removed or left the content after it. */
  lemma {:induction false} LastWriterDecides(ops: seq<Op>, key: Key)
    ensures key in Fold(ops) <==> exists k :: 0 <= k < |ops| && LiveWrite(ops, k, key)
    ensures forall k :: 0 <= k < |ops| && LiveWrite(ops, k, key) ==>
              key in Fold(ops) && Fold(ops)[key] == ops[k].facts
  {
    if ops != [] {
      var n := |ops| - 1;
      var init, last := ops[..n], ops[n];
      LastWriterDecides(init, key);
      var writes := last.Write? && last.key == key;
      forall k | 0 <= k < n ensures LiveWrite(ops, k, key) <==> LiveWrite(init, k, key) && !writes && !Clears(last, key.item) {
        if LiveWrite(init, k, key) && !writes && !Clears(last, key.item) {
          forall m | k < m < |ops| ensures !(ops[m].Write? && ops[m].key == key) && !Clears(ops[m], key.item) {
            assert m < n ==> ops[m] == init[m];
          }
        }
        if LiveWrite(ops, k, key) {
          forall m | k < m < n ensures !(init[m].Write? && init[m].key == key) && !Clears(init[m], key.item) {
            assert ops[m] == init[m];
          }
        }
      }
      assert LiveWrite(ops, n, key) <==> writes;
    }
  }

  /** Exactly when a history can be read. */
  predicate Readable(vs: seq<Version>)
    requires vs != []
  {
    && vs[0].number == 1 && ProjectsResolve(vs[0].snapshot, vs[0].projects)
    && (forall i :: 0 < i < |vs| ==> GoodFeedback(vs[i].feedback))
    && (forall i :: 0 <= i < |vs| ==> UnionOf(Fold(LineageOps(vs[..i + 1]))) <= vs[i].snapshot)
  }

  lemma {:induction false} EvaluateMeans(vs: seq<Version>)
    requires vs != []
    ensures Evaluate(vs).Ok? <==> Readable(vs)
    ensures Evaluate(vs).Ok? ==> Evaluate(vs).value == Fold(LineageOps(vs))
  {
    hide Fold, LineageOps, ProjectsResolve;
    var n := |vs| - 1;
    assert vs[..n + 1] == vs;
    if n > 0 {
      EvaluateMeans(vs[..n]);
      assert forall i :: 0 <= i < n ==> vs[..n][..i + 1] == vs[..i + 1] && vs[..n][i] == vs[i];
    }
  }

  // ---- What the histories that can be read look like ------------------------

  lemma ResolvesOne(snapshot: set<FactId>, bullet: ItemId)
    ensures Resolvable(snapshot, bullet) <==> bullet.BulletItem? && bullet.fact in snapshot
    ensures Resolvable(snapshot, bullet) ==> Matches(snapshot, bullet) == {bullet.fact}
  {
    assert Matches(snapshot, bullet) ==
      if bullet.BulletItem? && bullet.fact in snapshot then {bullet.fact} else {};
  }

  /** A first version can be read exactly if it has number one and each of its bullets is that of
      a fact of the snapshot. */
  lemma FirstIsReadable(v: Version)
    ensures
      var r := Evaluate([v]);
      var bound := forall i, j :: 0 <= i < |v.projects| && 0 <= j < |v.projects[i].bullets| ==>
        v.projects[i].bullets[j].BulletItem? && v.projects[i].bullets[j].fact in v.snapshot;
      && (r.Ok? <==> v.number == 1 && bound)
      && (r.Err? ==> r.error == if v.number != 1 then Incomplete else Unresolvable)
  {
    hide Fold, BaseOps;
    forall b ensures Resolvable(v.snapshot, b) <==> b.BulletItem? && b.fact in v.snapshot {
      ResolvesOne(v.snapshot, b);
    }
    forall i, j | 0 <= i < |v.projects| && 0 <= j < |v.projects[i].bullets|
      ensures ProjectsResolve(v.snapshot, v.projects) ==> Resolvable(v.snapshot, v.projects[i].bullets[j])
    {
      if ProjectsResolve(v.snapshot, v.projects) { assert BulletsResolve(v.snapshot, v.projects[i].bullets); }
    }
    if ProjectsResolve(v.snapshot, v.projects) {
      assert LineageOps([v]) == BaseOps(v.snapshot, v.projects);
      var u := Fold(LineageOps([v]));
      forall key | key in u ensures u[key] <= v.snapshot { FirstUses(v.snapshot, v.projects, key); }
    }
  }

  /** The uses of a first version: every bullet uses its own fact and nothing else does, and the
      only other uses are the summaries of the projects with a bullet. */
  lemma {:induction false} FirstUses(snapshot: set<FactId>, projects: seq<ProjectContent>, key: Key)
    requires ProjectsResolve(snapshot, projects)
    ensures
      var u := Fold(BaseOps(snapshot, projects));
      var bullet := exists i :: 0 <= i < |projects| && key.item in projects[i].bullets;
      var summary := exists i :: 0 <= i < |projects| && projects[i].id == key.item && projects[i].bullets != [];
      && (key in u <==> (key.field == Bullet && bullet) || (key.field == Summary && summary))
      && (key in u ==> u[key] <= snapshot)
      && (key in u && key.field == Bullet ==> key.item.BulletItem? && u[key] == {key.item.fact})
  {
    if projects != [] {
      var n := |projects| - 1;
      var init, p := projects[..n], projects[n];
      FirstUses(snapshot, init, key);
      assert BulletsResolve(snapshot, p.bullets);
      ProjectUses(BaseOps(snapshot, init), snapshot, p, key);
      hide Fold, ProjectOps, BulletOps, ProjectsResolve, BulletsResolve;
      assert forall i :: 0 <= i < n ==> init[i] == projects[i];
    }
  }

  /** A summary in a first version uses the fact of the first bullet of the project it is of. */
  lemma {:induction false} FirstSummaries(snapshot: set<FactId>, projects: seq<ProjectContent>, item: ItemId)
    requires ProjectsResolve(snapshot, projects)
    ensures
      var u, key := Fold(BaseOps(snapshot, projects)), Key(item, Summary);
      key in u ==>
        exists i :: 0 <= i < |projects| && LastNamed(projects, i, item)
          && projects[i].bullets[0].BulletItem? && u[key] == {projects[i].bullets[0].fact}
  {
    if projects != [] {
      var n, key := |projects| - 1, Key(item, Summary);
      var init, p := projects[..n], projects[n];
      FirstSummaries(snapshot, init, item);
      assert BulletsResolve(snapshot, p.bullets);
      var was, u := Fold(BaseOps(snapshot, init)), Fold(BaseOps(snapshot, projects));
      assert BaseOps(snapshot, projects) == BaseOps(snapshot, init) + ProjectOps(snapshot, p);
      ProjectUses(BaseOps(snapshot, init), snapshot, p, key);
      hide Fold, BaseOps, ProjectOps, BulletOps, ProjectsResolve, BulletsResolve;
      if p.id == item && p.bullets != [] {
        assert LastNamed(projects, n, item);
      } else if key in u {
        var i :| 0 <= i < n && LastNamed(init, i, item)
          && init[i].bullets[0].BulletItem? && was[key] == {init[i].bullets[0].fact};
        assert LastNamed(projects, i, item);
      }
    }
  }

  /** The last project of this identity that has a bullet. */
  predicate LastNamed(projects: seq<ProjectContent>, i: nat, item: ItemId)
  {
    && i < |projects| && projects[i].id == item && projects[i].bullets != []
    && forall j :: i < j < |projects| && projects[j].bullets != [] ==> projects[j].id != item
  }

  lemma {:induction false} ProjectUses(before: seq<Op>, snapshot: set<FactId>, p: ProjectContent, key: Key)
    requires BulletsResolve(snapshot, p.bullets)
    ensures
      var u, r := Fold(before), Fold(before + ProjectOps(snapshot, p));
      var bullet := key.field == Bullet && key.item in p.bullets;
      var summary := key == Key(p.id, Summary) && p.bullets != [];
      && (key in r <==> key in u || bullet || summary)
      && (bullet ==> key.item.BulletItem? && key.item.fact in snapshot && r[key] == {key.item.fact})
      && (summary ==>
            var b := p.bullets[0];
            b.BulletItem? && b.fact in snapshot && r[key] == {b.fact})
      && (key in u && !bullet && !summary ==> r[key] == u[key])
  {
    BulletUses(before, snapshot, p.bullets, key);
    if p.bullets == [] {
      assert before + ProjectOps(snapshot, p) == before;
    } else {
      ResolvesOne(snapshot, p.bullets[0]);
      FoldJoin(before, BulletOps(snapshot, p.bullets), Write(Key(p.id, Summary), Matches(snapshot, p.bullets[0])));
    }
  }

  lemma {:induction false} BulletUses(before: seq<Op>, snapshot: set<FactId>, bullets: seq<ItemId>, key: Key)
    requires BulletsResolve(snapshot, bullets)
    ensures
      var u, r := Fold(before), Fold(before + BulletOps(snapshot, bullets));
      var bullet := key.field == Bullet && key.item in bullets;
      && (key in r <==> key in u || bullet)
      && (bullet ==> key.item.BulletItem? && key.item.fact in snapshot && r[key] == {key.item.fact})
      && (key in u && !bullet ==> r[key] == u[key])
  {
    if bullets == [] {
      assert before + BulletOps(snapshot, bullets) == before;
    } else {
      var n := |bullets| - 1;
      assert bullets == bullets[..n] + [bullets[n]];
      BulletUses(before, snapshot, bullets[..n], key);
      ResolvesOne(snapshot, bullets[n]);
      FoldJoin(before, BulletOps(snapshot, bullets[..n]), Write(Key(bullets[n], Bullet), Matches(snapshot, bullets[n])));
    }
  }

  /** A further version can be read exactly if its parents can, its feedback is complete and
      readable, and the facts in use after it are in its snapshot. */
  lemma NextIsReadable(before: seq<Version>, v: Version)
    requires before != []
    ensures
      var r, f := Evaluate(before + [v]), v.feedback;
      var written := f.Patches? && forall j :: 0 <= j < |f.patches| ==>
        f.patches[j].Remove? || f.patches[j].Other? || (f.patches[j].Replace? && f.patches[j].facts != {});
      && (Evaluate(before).Err? ==> r == Evaluate(before))
      && (Evaluate(before).Ok? ==>
            && (r.Ok? <==> written && UnionOf(Fold(LineageOps(before + [v]))) <= v.snapshot)
            && (r.Ok? ==> r.value == Fold(LineageOps(before + [v])))
            && (r.Err? ==> r.error == if f.NoFeedback? then Incomplete
                  else if f.FeedbackLost? then FeedbackMissing
                  else if !written then PatchUnresolvable else SnapshotOmits))
  {
    hide Fold, LineageOps, UnionOf;
    assert (before + [v])[..|before|] == before;
    var f := v.feedback;
    if f.Patches? {
      forall j | 0 <= j < |f.patches|
        ensures GoodPatch(f.patches[j]) <==>
          f.patches[j].Remove? || f.patches[j].Other? || (f.patches[j].Replace? && f.patches[j].facts != {})
      {
      }
    }
  }

  /** What one patch does: a removal takes all fields of its item, a replacement sets one field
      of its item, and every other use stays. */
  lemma {:induction false} PatchUses(before: seq<Op>, v: Version, p: Patch)
    requires v.feedback.Patches?
    ensures
      var u := Fold(before + VersionOps(v));
      var r := Fold(before + VersionOps(v.(feedback := Patches(v.feedback.patches + [p]))));
      && (p.Other? || p.BadPatch? ==> r == u)
      && (p.Remove? ==> forall k :: (k in r <==> k in u && k.item != p.item) && (k in r ==> r[k] == u[k]))
      && (p.Replace? ==> r == u[Key(p.item, p.field) := p.facts])
  {
    var ps := v.feedback.patches;
    var w := v.(feedback := Patches(ps + [p]));
    assert (ps + [p])[..|ps|] == ps;
    if p.Remove? {
      assert VersionOps(w) == VersionOps(v) + [Drop(p.item)];
      FoldJoin(before, VersionOps(v), Drop(p.item));
    } else if p.Replace? {
      assert VersionOps(w) == VersionOps(v) + [Write(Key(p.item, p.field), p.facts)];
      FoldJoin(before, VersionOps(v), Write(Key(p.item, p.field), p.facts));
    } else {
      assert VersionOps(w) == VersionOps(v);
    }
  }

  /** Before any patch, exactly the uses of items still in the content are kept. */
  lemma {:induction false} ContentIsKept(before: seq<Version>, v: Version)
    requires before != [] && v.feedback == Patches([])
    ensures
      var u, r := Fold(LineageOps(before)), Fold(LineageOps(before + [v]));
      forall k :: (k in r <==> k in u && k.item in v.items) && (k in r ==> r[k] == u[k])
  {
    assert (before + [v])[..|before|] == before;
    assert VersionOps(v) == [] + [Keep(v.items)];
    FoldJoin(LineageOps(before), [], Keep(v.items));
    assert LineageOps(before) + [] == LineageOps(before);
  }

  /** The computed uses: exactly the facts of the live writes of the whole history, all of them
      in the snapshot of the version itself; versions are numbered one upwards. */
  lemma FactUsesMeans(store: map<VersionId, Version>, v: Version)
    requires FactUses(store, v).Ok?
    ensures Chain(store, v).Ok?
    ensures
      var vs, used := Chain(store, v).value, FactUses(store, v).value;
      var ops := LineageOps(vs);
      && used <= v.snapshot
      && (forall i :: 0 <= i < |vs| ==> vs[i].number == i + 1)
      && (forall f :: f in used <==>
            exists k :: 0 <= k < |ops| && ops[k].Write? && LiveWrite(ops, k, ops[k].key) && f in ops[k].facts)
  {
    var vs, used := Chain(store, v).value, FactUses(store, v).value;
    EvaluateMeans(vs);
    assert vs[..|vs| - 1 + 1] == vs;
    var ops := LineageOps(vs);
    LiveFacts(ops);
    hide Fold, LineageOps, LiveWrite;
  }

  lemma LiveFacts(ops: seq<Op>)
    ensures forall f :: f in UnionOf(Fold(ops)) <==>
              exists k :: 0 <= k < |ops| && ops[k].Write? && LiveWrite(ops, k, ops[k].key) && f in ops[k].facts
  {
    hide Fold, LiveWrite;
    var uses := Fold(ops);
    forall f | f in UnionOf(uses)
      ensures exists k :: 0 <= k < |ops| && ops[k].Write? && LiveWrite(ops, k, ops[k].key) && f in ops[k].facts
    {
      var key :| key in uses && f in uses[key];
      LastWriterDecides(ops, key);
      var k :| 0 <= k < |ops| && LiveWrite(ops, k, key);
      LiveIsWrite(ops, k, key);
    }
    forall k, f | 0 <= k < |ops| && ops[k].Write? && LiveWrite(ops, k, ops[k].key) && f in ops[k].facts
      ensures f in UnionOf(uses)
    {
      LastWriterDecides(ops, ops[k].key);
    }
  }

  lemma LiveIsWrite(ops: seq<Op>, k: nat, key: Key)
    requires LiveWrite(ops, k, key)
    ensures k < |ops| && ops[k].Write? && ops[k].key == key
  {
  }
}
