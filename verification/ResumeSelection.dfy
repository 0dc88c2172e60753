/** Which of the proposed bullets a published resume contains: exactly those that a reviewed project and
    a fact that may be claimed stand behind, the first of each fact, in the order of the proposal. */
module ResumeSelection {
  import opened Options
  import opened ResumeLineage
  import opened ResumeDraft

  // ---- What stands behind a bullet ------------------------------------------

  /** The fact and the project that an identity stands for: the first in the inputs. */
  predicate IsFact(i: Inputs, id: FactId, f: Fact)
  {
    exists k :: 0 <= k < |i.facts| && i.facts[k] == f && f.version == id
                && forall j :: 0 <= j < k ==> i.facts[j].version != id
  }

  predicate IsProject(i: Inputs, id: nat, p: Project)
  {
    exists k :: 0 <= k < |i.profile| && i.profile[k] == p && p.id == id
                && forall j :: 0 <= j < k ==> i.profile[j].id != id
  }

  /** The fact is not a plan, an experiment states its conditions, the project is reviewed and is the one
      that the fact belongs to, and the bullet names requirements, all of which exist. */
  ghost predicate Backed(i: Inputs, requirements: nat, b: Bullet)
  {
    && (exists f, p :: IsFact(i, b.fact, f) && IsProject(i, b.project, p)
          && f.kind != Plan && (f.kind == Experiment ==> f.conditionsStated)
          && p.reviewed && b.project in i.projectMap && i.projectMap[b.project] == f.project)
    && b.ordinals != [] && forall k :: 0 <= k < |b.ordinals| ==> 0 <= b.ordinals[k] < requirements
  }

  lemma {:induction false} FactIsFirst(facts: seq<Fact>, id: FactId, k: nat)
    requires k < |facts| && facts[k].version == id && forall j :: 0 <= j < k ==> facts[j].version != id
    ensures FindFact(facts, id) == Some(facts[k])
  {
    if k > 0 {
      assert facts[0].version != id;
      FactIsFirst(facts[1..], id, k - 1);
    }
  }

  lemma {:induction false} ProjectIsFirst(ps: seq<Project>, id: nat, k: nat)
    requires k < |ps| && ps[k].id == id && forall j :: 0 <= j < k ==> ps[j].id != id
    ensures FindProject(ps, id) == Some(ps[k])
  {
    if k > 0 {
      assert ps[0].id != id;
      ProjectIsFirst(ps[1..], id, k - 1);
    }
  }

  lemma {:induction false} FirstFact(facts: seq<Fact>, id: FactId) returns (k: nat)
    requires FindFact(facts, id).Some?
    ensures k < |facts| && facts[k].version == id && forall j :: 0 <= j < k ==> facts[j].version != id
    ensures FindFact(facts, id) == Some(facts[k])
  {
    if facts[0].version == id {
      k := 0;
    } else {
      var j := FirstFact(facts[1..], id);
      k := j + 1;
      assert forall x :: 0 < x < k ==> facts[x] == facts[1..][x - 1];
    }
  }

  lemma {:induction false} FirstProject(ps: seq<Project>, id: nat) returns (k: nat)
    requires FindProject(ps, id).Some?
    ensures k < |ps| && ps[k].id == id && forall j :: 0 <= j < k ==> ps[j].id != id
    ensures FindProject(ps, id) == Some(ps[k])
  {
    if ps[0].id == id {
      k := 0;
    } else {
      var j := FirstProject(ps[1..], id);
      k := j + 1;
      assert forall x :: 0 < x < k ==> ps[x] == ps[1..][x - 1];
    }
  }

  lemma FactIsFound(i: Inputs, id: FactId, f: Fact)
    ensures IsFact(i, id, f) <==> FindFact(i.facts, id) == Some(f)
  {
    if IsFact(i, id, f) {
      var k :| 0 <= k < |i.facts| && i.facts[k] == f && f.version == id
            && forall j :: 0 <= j < k ==> i.facts[j].version != id;
      FactIsFirst(i.facts, id, k);
    }
    if FindFact(i.facts, id) == Some(f) { var k := FirstFact(i.facts, id); }
  }

  lemma ProjectIsFound(i: Inputs, id: nat, p: Project)
    ensures IsProject(i, id, p) <==> FindProject(i.profile, id) == Some(p)
  {
    if IsProject(i, id, p) {
      var k :| 0 <= k < |i.profile| && i.profile[k] == p && p.id == id
            && forall j :: 0 <= j < k ==> i.profile[j].id != id;
      ProjectIsFirst(i.profile, id, k);
    }
    if FindProject(i.profile, id) == Some(p) { var k := FirstProject(i.profile, id); }
  }

  lemma ValidIsBacked(i: Inputs, requirements: nat, b: Bullet)
    ensures ValidBullet(b, i, requirements) <==> Backed(i, requirements, b)
  {
    hide IsFact, IsProject;
    forall f ensures IsFact(i, b.fact, f) <==> FindFact(i.facts, b.fact) == Some(f) { FactIsFound(i, b.fact, f); }
    forall p ensures IsProject(i, b.project, p) <==> FindProject(i.profile, b.project) == Some(p) {
      ProjectIsFound(i, b.project, p);
    }
    if ValidBullet(b, i, requirements) {
      var f, p := FindFact(i.facts, b.fact).value, FindProject(i.profile, b.project).value;
      assert IsFact(i, b.fact, f) && IsProject(i, b.project, p);
    }
  }

  // ---- What is selected -----------------------------------------------------

  /** The bullet at `j` is backed, and the first backed one of its fact. */
  ghost predicate KeptAt(i: Inputs, requirements: nat, bs: seq<Bullet>, j: nat)
  {
    && j < |bs| && Backed(i, requirements, bs[j])
    && forall k :: 0 <= k < j && bs[k].fact == bs[j].fact ==> !Backed(i, requirements, bs[k])
  }

  function Selected(i: Inputs, bs: seq<Bullet>, requirements: nat): seq<Bullet>
  {
    FirstOfEach(ValidOnes(bs, i, requirements))
  }

  /** The positions of the kept bullets. */
  ghost function Positions(i: Inputs, requirements: nat, bs: seq<Bullet>): (r: seq<nat>)
    ensures forall k :: 0 <= k < |r| ==> r[k] < |bs|
    ensures forall j, k :: 0 <= j < k < |r| ==> r[j] < r[k]
  {
    if bs == [] then [] else
    var n := |bs| - 1;
    Positions(i, requirements, bs[..n]) + (if KeptAt(i, requirements, bs, n) then [n] else [])
  }

  lemma KeptAsBefore(i: Inputs, requirements: nat, bs: seq<Bullet>, n: nat, j: nat)
    requires j < n <= |bs|
    ensures KeptAt(i, requirements, bs[..n], j) <==> KeptAt(i, requirements, bs, j)
  {
    hide Backed;
    assert forall k :: 0 <= k < n ==> bs[..n][k] == bs[k];
  }

  lemma {:induction false} PositionsAreKept(i: Inputs, requirements: nat, bs: seq<Bullet>)
    ensures forall j: nat :: j in Positions(i, requirements, bs) <==> KeptAt(i, requirements, bs, j)
  {
    hide KeptAt;
    if bs != [] {
      var n := |bs| - 1;
      PositionsAreKept(i, requirements, bs[..n]);
      forall j: nat | j < n ensures KeptAt(i, requirements, bs[..n], j) <==> KeptAt(i, requirements, bs, j) {
        KeptAsBefore(i, requirements, bs, n, j);
      }
    }
    forall j: nat | KeptAt(i, requirements, bs, j) || KeptAt(i, requirements, bs[..if bs == [] then 0 else |bs| - 1], j)
      ensures j < |bs|
    {
      KeptIsInRange(i, requirements, bs, j);
      KeptIsInRange(i, requirements, bs[..if bs == [] then 0 else |bs| - 1], j);
    }
  }

  lemma KeptIsInRange(i: Inputs, requirements: nat, bs: seq<Bullet>, j: nat)
    ensures KeptAt(i, requirements, bs, j) ==> j < |bs|
  {
  }

  /** The selection is the kept bullets, in the order of the proposal. */
  lemma {:induction false} SelectedAreKept(i: Inputs, requirements: nat, bs: seq<Bullet>)
    ensures
      var r, ps := Selected(i, bs, requirements), Positions(i, requirements, bs);
      |r| == |ps| && forall k :: 0 <= k < |r| ==> r[k] == bs[ps[k]]
  {
    if bs != [] {
      hide ValidBullet, Backed, FactsOf, FirstOfEach, ValidOnes, KeptAt;
      var n := |bs| - 1;
      SelectedAreKept(i, requirements, bs[..n]);
      SelectedLast(i, requirements, bs);
      forall k | 0 <= k < |Positions(i, requirements, bs[..n])|
        ensures bs[..n][Positions(i, requirements, bs[..n])[k]] == bs[Positions(i, requirements, bs[..n])[k]]
      {
      }
    } else {
      assert Selected(i, [], requirements) == [] && Positions(i, requirements, []) == [];
    }
  }

  lemma SelectedLast(i: Inputs, requirements: nat, bs: seq<Bullet>)
    requires bs != []
    ensures
      var n := |bs| - 1;
      Selected(i, bs, requirements) ==
        Selected(i, bs[..n], requirements) + (if KeptAt(i, requirements, bs, n) then [bs[n]] else [])
  {
    hide ValidBullet, Backed, FactsOf, KeptAt;
    var n := |bs| - 1;
    var v := ValidOnes(bs[..n], i, requirements);
    ValidIsBacked(i, requirements, bs[n]);
    KeptIsBacked(i, requirements, bs, n);
    if Backed(i, requirements, bs[n]) {
      LastIsKept(i, requirements, bs);
      FirstOfEachLast(v, bs[n]);
    }
    assert v + [] == v;
  }

  lemma FirstOfEachLast(v: seq<Bullet>, b: Bullet)
    ensures FirstOfEach(v + [b]) == FirstOfEach(v) + (if b.fact in FactsOf(v) then [] else [b])
  {
    hide FactsOf;
    assert (v + [b])[..|v|] == v;
  }

  lemma KeptIsBacked(i: Inputs, requirements: nat, bs: seq<Bullet>, j: nat)
    ensures KeptAt(i, requirements, bs, j) ==> j < |bs| && Backed(i, requirements, bs[j])
  {
  }

  lemma LastIsKept(i: Inputs, requirements: nat, bs: seq<Bullet>)
    requires bs != [] && Backed(i, requirements, bs[|bs| - 1])
    ensures
      var n := |bs| - 1;
      KeptAt(i, requirements, bs, n) <==> bs[n].fact !in FactsOf(ValidOnes(bs[..n], i, requirements))
  {
    hide Backed, ValidBullet;
    var n := |bs| - 1;
    forall b ensures ValidBullet(b, i, requirements) <==> Backed(i, requirements, b) {
      ValidIsBacked(i, requirements, b);
    }
    var v := ValidOnes(bs[..n], i, requirements);
    if bs[n].fact in FactsOf(v) {
      var b :| b in v && b.fact == bs[n].fact;
      var k :| 0 <= k < n && bs[..n][k] == b;
      assert bs[k].fact == bs[n].fact && Backed(i, requirements, bs[k]);
    }
    if k :| 0 <= k < n && bs[k].fact == bs[n].fact && Backed(i, requirements, bs[k]) {
      assert bs[..n][k] == bs[k] && bs[k] in v;
    }
  }

  // ---- What is published ----------------------------------------------------

  /** The bullet of this fact stands in the content of this project. */
  predicate Holds(ps: seq<ProjectContent>, project: nat, fact: FactId)
  {
    exists k :: 0 <= k < |ps| && ps[k].id == ProjectItem(project) && BulletItem(fact) in ps[k].bullets
  }

  lemma {:induction false} DraftHolds(ps: seq<Project>, locked: set<nat>, bs: seq<Bullet>, project: nat, fact: FactId)
    requires DraftProjects(ps, locked, bs).Some?
    ensures
      Holds(DraftProjects(ps, locked, bs).value, project, fact) <==>
        (exists p :: p in ps && p.id == project) && exists b :: b in bs && b.project == project && b.fact == fact
  {
    if ps != [] {
      hide Holds, ChosenFor;
      var n := |ps| - 1;
      DraftHolds(ps[..n], locked, bs, project, fact);
      LastHolds(ps, locked, bs, project, fact);
      ChosenHolds(bs, project, fact);
      assert forall p :: p in ps <==> p in ps[..n] || p == ps[n];
    } else {
      assert !Holds([], project, fact);
    }
  }

  lemma ChosenHolds(bs: seq<Bullet>, project: nat, fact: FactId)
    ensures
      BulletItem(fact) in BulletIds(ChosenFor(bs, project)) <==>
        exists b :: b in bs && b.project == project && b.fact == fact
  {
    var r := ChosenFor(bs, project);
    if k :| 0 <= k < |r| && BulletIds(r)[k] == BulletItem(fact) { assert r[k] in r; }
    if b :| b in bs && b.project == project && b.fact == fact {
      assert b in r;
      var k :| 0 <= k < |r| && r[k] == b;
      assert BulletIds(r)[k] == BulletItem(fact);
    }
  }

  lemma LastHolds(ps: seq<Project>, locked: set<nat>, bs: seq<Bullet>, project: nat, fact: FactId)
    requires ps != [] && DraftProjects(ps, locked, bs).Some?
    ensures
      var n := |ps| - 1;
      && DraftProjects(ps[..n], locked, bs).Some?
      && (Holds(DraftProjects(ps, locked, bs).value, project, fact) <==>
            || Holds(DraftProjects(ps[..n], locked, bs).value, project, fact)
            || (ps[n].id == project && BulletItem(fact) in BulletIds(ChosenFor(bs, project))))
  {
    hide ChosenFor;
    var n := |ps| - 1;
    var before, after := DraftProjects(ps[..n], locked, bs).value, DraftProjects(ps, locked, bs).value;
    var chosen := ChosenFor(bs, ps[n].id);
    if chosen != [] { assert after[|before|] == ProjectContent(ProjectItem(ps[n].id), BulletIds(chosen)); }
    assert forall k :: 0 <= k < |before| ==> after[k] == before[k];
  }

  lemma SelectedMeans(i: Inputs, requirements: nat, bs: seq<Bullet>, b: Bullet)
    ensures
      b in Selected(i, bs, requirements) <==>
        exists j: nat :: j < |bs| && KeptAt(i, requirements, bs, j) && bs[j] == b
  {
    hide KeptAt;
    SelectedAreKept(i, requirements, bs);
    PositionsAreKept(i, requirements, bs);
    var r, ps := Selected(i, bs, requirements), Positions(i, requirements, bs);
    if j: nat :| KeptAt(i, requirements, bs, j) && bs[j] == b {
      var k :| 0 <= k < |ps| && ps[k] == j;
      assert r[k] == b;
    }
    if k :| 0 <= k < |r| && r[k] == b { assert ps[k] in ps; }
  }

  lemma KeptHasProject(i: Inputs, requirements: nat, bs: seq<Bullet>, j: nat)
    requires KeptAt(i, requirements, bs, j)
    ensures exists p :: p in i.profile && p.id == bs[j].project
  {
    var f, p :| IsFact(i, bs[j].fact, f) && IsProject(i, bs[j].project, p);
  }

  /** A drafted project contains a fact exactly if the first backed bullet of that fact is for that project. */
  lemma DraftIsBacked(i: Inputs, bullets: seq<Bullet>, requirements: nat, acceptable: bool, project: nat, fact: FactId)
    requires ResumeDraft.Write(i, bullets, requirements, acceptable).content.Some?
    ensures
      Holds(ResumeDraft.Write(i, bullets, requirements, acceptable).content.value.projects, project, fact) <==>
        exists j: nat :: KeptAt(i, requirements, bullets, j)
                         && bullets[j].project == project && bullets[j].fact == fact
  {
    hide KeptAt, Holds, DraftProjects, FirstOfEach, ValidOnes;
    forall j: nat ensures KeptAt(i, requirements, bullets, j) ==> j < |bullets| {
      KeptIsInRange(i, requirements, bullets, j);
    }
    var selected := Selected(i, bullets, requirements);
    DraftHolds(i.profile, i.locked, selected, project, fact);
    if b :| b in selected && b.project == project && b.fact == fact {
      SelectedMeans(i, requirements, bullets, b);
      var j: nat :| j < |bullets| && KeptAt(i, requirements, bullets, j) && bullets[j] == b;
      KeptHasProject(i, requirements, bullets, j);
    }
    if j: nat :| j < |bullets| && KeptAt(i, requirements, bullets, j) && bullets[j].project == project
                 && bullets[j].fact == fact {
      SelectedMeans(i, requirements, bullets, bullets[j]);
    }
  }

  lemma {:induction false} FirstBacked(i: Inputs, requirements: nat, bs: seq<Bullet>, j: nat) returns (k: nat)
    requires j < |bs| && Backed(i, requirements, bs[j])
    ensures k <= j && KeptAt(i, requirements, bs, k) && bs[k].fact == bs[j].fact
  {
    hide Backed;
    if l: nat :| l < j && bs[l].fact == bs[j].fact && Backed(i, requirements, bs[l]) {
      k := FirstBacked(i, requirements, bs, l);
    } else {
      k := j;
    }
  }

  /** The published resume contains the bullet of a fact exactly if some proposed bullet of that fact is
      backed, and it stands in the project of the first such bullet and in no other. */
  lemma PublishedBulletsAreBacked(i: Inputs, bullets: seq<Bullet>, requirements: nat, acceptable: bool,
                                  permitted: set<FactId>, stillAcceptable: bool, project: nat, fact: FactId)
    requires
      var c := ResumeDraft.Write(i, bullets, requirements, acceptable);
      Publish(c, permitted, false, stillAcceptable).Published?
    ensures
      var c := ResumeDraft.Write(i, bullets, requirements, acceptable);
      var v := Publish(c, permitted, false, stillAcceptable).version;
      && (Holds(v.projects, project, fact) <==>
            exists j: nat :: KeptAt(i, requirements, bullets, j)
                             && bullets[j].project == project && bullets[j].fact == fact)
      && ((exists q :: Holds(v.projects, q, fact)) <==>
            exists b :: b in bullets && b.fact == fact && Backed(i, requirements, b))
      && forall k, x :: 0 <= k < |v.projects| && x in v.projects[k].bullets ==>
           x.BulletItem? && v.projects[k].id.ProjectItem?
           && Holds(v.projects, v.projects[k].id.project, x.fact)
  {
    hide KeptAt, Holds, ResumeDraft.Write, Publish, Backed;
    forall j: nat ensures KeptAt(i, requirements, bullets, j) ==> j < |bullets| {
      KeptIsInRange(i, requirements, bullets, j);
    }
    PublishedContent(i, bullets, requirements, acceptable, permitted, stillAcceptable);
    DraftIsBacked(i, bullets, requirements, acceptable, project, fact);
    DraftHasFact(i, bullets, requirements, acceptable, fact);
  }

  lemma DraftHasFact(i: Inputs, bullets: seq<Bullet>, requirements: nat, acceptable: bool, fact: FactId)
    requires ResumeDraft.Write(i, bullets, requirements, acceptable).content.Some?
    ensures
      var ps := ResumeDraft.Write(i, bullets, requirements, acceptable).content.value.projects;
      (exists q :: Holds(ps, q, fact)) <==> exists b :: b in bullets && b.fact == fact && Backed(i, requirements, b)
  {
    hide KeptAt, Holds, ResumeDraft.Write, Backed;
    forall j: nat ensures KeptAt(i, requirements, bullets, j) ==> j < |bullets| {
      KeptIsInRange(i, requirements, bullets, j);
    }
    var ps := ResumeDraft.Write(i, bullets, requirements, acceptable).content.value.projects;
    if q :| Holds(ps, q, fact) {
      DraftIsBacked(i, bullets, requirements, acceptable, q, fact);
      var j: nat :| j < |bullets| && KeptAt(i, requirements, bullets, j) && bullets[j].fact == fact;
      KeptIsBacked(i, requirements, bullets, j);
      assert bullets[j] in bullets;
    }
    if b :| b in bullets && b.fact == fact && Backed(i, requirements, b) {
      var j :| 0 <= j < |bullets| && bullets[j] == b;
      var k := FirstBacked(i, requirements, bullets, j);
      DraftIsBacked(i, bullets, requirements, acceptable, bullets[k].project, fact);
      assert Holds(ps, bullets[k].project, fact);
    }
  }

  /** The content of the version is the draft's, made of the bullets of projects. */
  lemma PublishedContent(i: Inputs, bullets: seq<Bullet>, requirements: nat, acceptable: bool,
                         permitted: set<FactId>, stillAcceptable: bool)
    requires
      var c := ResumeDraft.Write(i, bullets, requirements, acceptable);
      Publish(c, permitted, false, stillAcceptable).Published?
    ensures
      var c := ResumeDraft.Write(i, bullets, requirements, acceptable);
      var v := Publish(c, permitted, false, stillAcceptable).version;
      && c.content.Some? && v.projects == c.content.value.projects
      && forall k, x :: 0 <= k < |v.projects| && x in v.projects[k].bullets ==>
           x.BulletItem? && v.projects[k].id.ProjectItem?
           && Holds(v.projects, v.projects[k].id.project, x.fact)
  {
    hide ResumeDraft.Write, Publish, Selected, DraftProjects, Holds;
    PublishedIsContent(ResumeDraft.Write(i, bullets, requirements, acceptable), permitted, stillAcceptable);
    ContentIsDraft(i, bullets, requirements, acceptable);
    DraftHasBullets(i.profile, i.locked, Selected(i, bullets, requirements));
  }

  lemma PublishedIsContent(c: Candidate, permitted: set<FactId>, stillAcceptable: bool)
    requires Publish(c, permitted, false, stillAcceptable).Published?
    ensures c.content.Some?
    ensures Publish(c, permitted, false, stillAcceptable).version.projects == c.content.value.projects
  {
    hide Ordinals, UpTo, CoverageBound, CoverageKnown, ItemsOf;
  }

  lemma ContentIsDraft(i: Inputs, bullets: seq<Bullet>, requirements: nat, acceptable: bool)
    requires ResumeDraft.Write(i, bullets, requirements, acceptable).content.Some?
    ensures
      var draft := DraftProjects(i.profile, i.locked, Selected(i, bullets, requirements));
      draft.Some? && ResumeDraft.Write(i, bullets, requirements, acceptable).content.value.projects == draft.value
  {
    hide DraftProjects, FirstOfEach, ValidOnes, CoverageOf, OmittedOf, FactsOf;
  }

  lemma DraftHasBullets(ps: seq<Project>, locked: set<nat>, bs: seq<Bullet>)
    requires DraftProjects(ps, locked, bs).Some?
    ensures
      var r := DraftProjects(ps, locked, bs).value;
      forall k, x :: 0 <= k < |r| && x in r[k].bullets ==>
        x.BulletItem? && r[k].id.ProjectItem? && Holds(r, r[k].id.project, x.fact)
  {
    hide DraftProjects, FactsOf;
    ProjectsAreSelected(ps, locked, bs);
    DraftIsProjects(ps, locked, bs);
  }

  /** The projects of a draft are those of the profile that have a bullet, in the order of the profile,
      each with its bullets in the order of the selection. */
  lemma {:induction false} DraftIsProjects(ps: seq<Project>, locked: set<nat>, bs: seq<Bullet>)
    requires DraftProjects(ps, locked, bs).Some?
    ensures
      var r := DraftProjects(ps, locked, bs).value;
      forall k :: 0 <= k < |r| ==> r[k].id.ProjectItem? && r[k].bullets == BulletIds(ChosenFor(bs, r[k].id.project))
  {
    hide ChosenFor;
    if ps != [] { DraftIsProjects(ps[..|ps| - 1], locked, bs); }
  }

  // ---- Order and coverage ---------------------------------------------------

  /** `b` stands before `c` in `bs`. */
  predicate Before(bs: seq<Bullet>, b: Bullet, c: Bullet)
  {
    exists x, y :: 0 <= x < y < |bs| && bs[x] == b && bs[y] == c
  }

  /** Elements of `bs`, in the order of `bs`. */
  predicate InOrder(r: seq<Bullet>, bs: seq<Bullet>)
  {
    forall a, d :: 0 <= a < d < |r| ==> Before(bs, r[a], r[d])
  }

  lemma InOrderLast(r: seq<Bullet>, bs: seq<Bullet>)
    requires bs != [] && InOrder(r, bs[..|bs| - 1])
    requires forall k :: 0 <= k < |r| ==> r[k] in bs[..|bs| - 1]
    ensures InOrder(r, bs) && InOrder(r + [bs[|bs| - 1]], bs)
  {
    var n := |bs| - 1;
    var more := r + [bs[n]];
    forall a, d | 0 <= a < d < |more| ensures Before(bs, more[a], more[d]) {
      if d < |r| {
        assert Before(bs[..n], r[a], r[d]);
        var x, y :| 0 <= x < y < n && bs[..n][x] == r[a] && bs[..n][y] == r[d];
        assert bs[x] == more[a] && bs[y] == more[d];
      } else {
        var x :| 0 <= x < n && bs[..n][x] == r[a];
        assert bs[x] == more[a] && bs[n] == more[d];
      }
    }
    forall a, d | 0 <= a < d < |r| ensures Before(bs, r[a], r[d]) {
      assert more[a] == r[a] && more[d] == r[d];
    }
  }

  lemma {:induction false} ChosenInOrder(bs: seq<Bullet>, project: nat)
    ensures InOrder(ChosenFor(bs, project), bs)
  {
    hide InOrder;
    if bs != [] {
      var n := |bs| - 1;
      ChosenInOrder(bs[..n], project);
      InOrderLast(ChosenFor(bs[..n], project), bs);
      assert ChosenFor(bs[..n], project) + [] == ChosenFor(bs[..n], project);
    } else {
      assert InOrder([], []) by { NothingInOrder(); }
    }
  }

  lemma {:induction false} SupportingInOrder(bs: seq<Bullet>, ordinal: nat)
    ensures InOrder(Supporting(bs, ordinal), bs)
  {
    hide InOrder;
    if bs != [] {
      var n := |bs| - 1;
      SupportingInOrder(bs[..n], ordinal);
      InOrderLast(Supporting(bs[..n], ordinal), bs);
      assert Supporting(bs[..n], ordinal) + [] == Supporting(bs[..n], ordinal);
    } else {
      assert InOrder([], []) by { NothingInOrder(); }
    }
  }

  lemma NothingInOrder()
    ensures InOrder([], [])
  {
  }

  /** The facts of two kept bullets, in the order of the proposal. */
  ghost predicate KeptInOrder(i: Inputs, requirements: nat, bs: seq<Bullet>, a: FactId, d: FactId)
  {
    exists j: nat, k: nat ::
      j < k < |bs| && KeptAt(i, requirements, bs, j) && KeptAt(i, requirements, bs, k)
      && bs[j].fact == a && bs[k].fact == d
  }

  lemma SelectedInOrder(i: Inputs, requirements: nat, bs: seq<Bullet>, r: seq<Bullet>)
    requires InOrder(r, Selected(i, bs, requirements))
    ensures forall a, d :: 0 <= a < d < |r| ==> KeptInOrder(i, requirements, bs, r[a].fact, r[d].fact)
  {
    hide KeptAt;
    SelectedAreKept(i, requirements, bs);
    PositionsAreKept(i, requirements, bs);
    var selected, ps := Selected(i, bs, requirements), Positions(i, requirements, bs);
    forall a, d | 0 <= a < d < |r| ensures KeptInOrder(i, requirements, bs, r[a].fact, r[d].fact) {
      assert Before(selected, r[a], r[d]);
      var x, y :| 0 <= x < y < |selected| && selected[x] == r[a] && selected[y] == r[d];
      assert ps[x] in ps && ps[y] in ps && ps[x] < ps[y];
    }
  }

  /** In a drafted project the bullets stand in the order in which they were proposed. */
  lemma BulletsStayInOrder(i: Inputs, bullets: seq<Bullet>, requirements: nat, acceptable: bool, k: nat)
    requires ResumeDraft.Write(i, bullets, requirements, acceptable).content.Some?
    requires k < |ResumeDraft.Write(i, bullets, requirements, acceptable).content.value.projects|
    ensures
      var p := ResumeDraft.Write(i, bullets, requirements, acceptable).content.value.projects[k];
      forall a, d :: 0 <= a < d < |p.bullets| ==>
        && p.bullets[a].BulletItem? && p.bullets[d].BulletItem?
        && KeptInOrder(i, requirements, bullets, p.bullets[a].fact, p.bullets[d].fact)
  {
    hide KeptInOrder, InOrder, DraftProjects, FirstOfEach, ValidOnes, OmittedOf, CoverageOf;
    var selected := Selected(i, bullets, requirements);
    var p := ResumeDraft.Write(i, bullets, requirements, acceptable).content.value.projects[k];
    DraftIsProjects(i.profile, i.locked, selected);
    ChosenInOrder(selected, p.id.project);
    SelectedInOrder(i, requirements, bullets, ChosenFor(selected, p.id.project));
  }

  /** The coverage of a requirement names exactly the kept bullets that support it, in their order; of a
      draft without content it names nothing. */
  lemma CoverageIsBacked(i: Inputs, bullets: seq<Bullet>, requirements: nat, acceptable: bool, ordinal: nat)
    requires ordinal < requirements
    ensures
      var c := ResumeDraft.Write(i, bullets, requirements, acceptable);
      && |c.coverage| == requirements
      && var cover := c.coverage[ordinal];
         && cover.ordinal == ordinal && |cover.items| == |cover.facts|
         && (forall a :: 0 <= a < |cover.facts| ==> cover.items[a] == BulletItem(cover.facts[a]))
         && (forall f :: f in cover.facts <==>
               c.content.Some? && exists j: nat :: j < |bullets| && KeptAt(i, requirements, bullets, j)
                                                   && bullets[j].fact == f && ordinal in bullets[j].ordinals)
         && forall a, d :: 0 <= a < d < |cover.facts| ==>
              KeptInOrder(i, requirements, bullets, cover.facts[a], cover.facts[d])
  {
    hide KeptAt, KeptInOrder, InOrder, ContentOf, FirstOfEach, ValidOnes, OmittedOf;
    var c, selected := ResumeDraft.Write(i, bullets, requirements, acceptable), Selected(i, bullets, requirements);
    var supporting := Supporting(selected, ordinal);
    SupportingInOrder(selected, ordinal);
    SelectedInOrder(i, requirements, bullets, supporting);
    assert Supporting([], ordinal) == [];
    if c.content.Some? {
      forall f
        ensures f in c.coverage[ordinal].facts <==>
                  exists j: nat :: j < |bullets| && KeptAt(i, requirements, bullets, j)
                                   && bullets[j].fact == f && ordinal in bullets[j].ordinals
      {
        SupportedFact(i, requirements, bullets, ordinal, f);
      }
    }
  }

  lemma SupportedFact(i: Inputs, requirements: nat, bs: seq<Bullet>, ordinal: nat, f: FactId)
    ensures
      f in FactList(Supporting(Selected(i, bs, requirements), ordinal)) <==>
        exists j: nat :: j < |bs| && KeptAt(i, requirements, bs, j) && bs[j].fact == f && ordinal in bs[j].ordinals
  {
    hide KeptAt, FirstOfEach, ValidOnes;
    var r := Supporting(Selected(i, bs, requirements), ordinal);
    if k :| 0 <= k < |r| && FactList(r)[k] == f {
      assert r[k] in r;
      SelectedMeans(i, requirements, bs, r[k]);
    }
    if j: nat :| j < |bs| && KeptAt(i, requirements, bs, j) && bs[j].fact == f && ordinal in bs[j].ordinals {
      SelectedMeans(i, requirements, bs, bs[j]);
      assert bs[j] in r;
      var k :| 0 <= k < |r| && r[k] == bs[j];
      assert FactList(r)[k] == f;
    }
  }

  /** A fact is used exactly if some proposed bullet of it is backed. */
  lemma UsedIsBacked(i: Inputs, bullets: seq<Bullet>, requirements: nat, fact: FactId)
    ensures
      fact in Used(i, bullets, requirements) <==>
        exists b :: b in bullets && b.fact == fact && Backed(i, requirements, b)
  {
    hide KeptAt, FirstOfEach, ValidOnes, Backed;
    var selected := Selected(i, bullets, requirements);
    if fact in FactsOf(selected) {
      var b := BulletFor(selected, fact);
      SelectedMeans(i, requirements, bullets, b);
      var j: nat :| j < |bullets| && KeptAt(i, requirements, bullets, j) && bullets[j] == b;
      KeptIsBacked(i, requirements, bullets, j);
    }
    if b :| b in bullets && b.fact == fact && Backed(i, requirements, b) {
      var j :| 0 <= j < |bullets| && bullets[j] == b;
      var k := FirstBacked(i, requirements, bullets, j);
      KeptIsBacked(i, requirements, bullets, k);
      SelectedMeans(i, requirements, bullets, bullets[k]);
    }
  }

  /** The draft gives a reason for exactly the facts of the inputs that no backed bullet uses. */
  lemma OmissionsAreTheRest(i: Inputs, bullets: seq<Bullet>, requirements: nat, acceptable: bool, fact: FactId)
    ensures
      var c := ResumeDraft.Write(i, bullets, requirements, acceptable);
      && (fact in c.reasons <==> fact in c.omitted)
      && (fact in c.omitted <==>
            && (exists f :: f in i.facts && f.version == fact)
            && !exists b :: b in bullets && b.fact == fact && Backed(i, requirements, b))
  {
    hide FirstOfEach, ValidOnes, Backed, ContentOf, CoverageOf;
    UsedIsBacked(i, bullets, requirements, fact);
  }

  // ---- Any candidate --------------------------------------------------------

  /** The coverage has an entry for this requirement. */
  predicate Covers(c: Candidate, ordinal: int)
  {
    exists k :: 0 <= k < |c.coverage| && c.coverage[k].ordinal == ordinal
  }

  /** The coverage names every requirement once, and only facts that may be used. */
  predicate CoverageIsSound(c: Candidate, permitted: set<FactId>)
  {
    && |c.coverage| == c.requirements
    && (forall o :: 0 <= o < c.requirements ==> Covers(c, o))
    && (forall k :: 0 <= k < |c.coverage| ==> c.coverage[k].ordinal < c.requirements)
    && forall k, f :: 0 <= k < |c.coverage| && f in c.coverage[k].facts ==> f in permitted
  }

  /** Every omission is of a fact that may be used, and each has a reason. */
  ghost predicate OmissionsAreSound(c: Candidate, permitted: set<FactId>)
  {
    && (forall f :: f in c.omitted ==> f in permitted) && forall f :: f in c.reasons <==> f in c.omitted
  }

  /** The item belongs to the content: a bullet, a project or one of the other items. */
  predicate IsItem(c: Content, x: ItemId)
  {
    x in c.otherItems || exists k :: 0 <= k < |c.projects| && (x == c.projects[k].id || x in c.projects[k].bullets)
  }

  /** Whoever built the candidate, it is published exactly if its coverage and omissions are sound, no version
      exists yet, it has content, that is acceptable, and the coverage names only items of it; the
      version then is the first one, with that content and the facts that may be used. */
  lemma PublicationMeans(c: Candidate, permitted: set<FactId>, published: bool, acceptable: bool)
    ensures
      var r := Publish(c, permitted, published, acceptable);
      && (r.Published? <==>
            && CoverageIsSound(c, permitted) && OmissionsAreSound(c, permitted) && !published && c.content.Some?
            && acceptable
            && forall k, x :: 0 <= k < |c.coverage| && x in c.coverage[k].items ==> IsItem(c.content.value, x))
      && (r.Published? ==>
            && r.version.number == 1 && r.version.parent.None? && r.version.snapshot == permitted
            && r.version.projects == c.content.value.projects && r.version.feedback.NoFeedback?
            && forall x :: x in r.version.items <==> IsItem(c.content.value, x))
  {
    OrdinalsMean(c);
    BoundMeans(c.coverage, permitted);
    if c.content.Some? {
      ItemsMean(c.content.value);
      KnownMeans(c.coverage, c.content.value);
    }
    hide Ordinals, UpTo, CoverageBound, CoverageKnown, ItemsOf, IsItem;
  }

  lemma OrdinalsMean(c: Candidate)
    ensures
      Ordinals(c.coverage) == UpTo(c.requirements) <==>
        && (forall o :: 0 <= o < c.requirements ==> Covers(c, o))
        && forall k :: 0 <= k < |c.coverage| ==> c.coverage[k].ordinal < c.requirements
  {
    var named, all := Ordinals(c.coverage), UpTo(c.requirements);
    assert forall o :: o in named <==> Covers(c, o);
    if named == all {
      forall k | 0 <= k < |c.coverage| ensures c.coverage[k].ordinal < c.requirements {
        assert c.coverage[k].ordinal in named;
      }
      forall o | 0 <= o < c.requirements ensures Covers(c, o) { assert o in all; }
    } else if forall o :: 0 <= o < c.requirements ==> Covers(c, o) {
      assert forall o :: o in all ==> o in named;
      var o :| o in named && o !in all;
      assert Covers(c, o);
    }
  }

  lemma BoundMeans(coverage: seq<Cover>, permitted: set<FactId>)
    ensures
      CoverageBound(coverage, permitted) <==>
        forall k, f :: 0 <= k < |coverage| && f in coverage[k].facts ==> f in permitted
  {
    if CoverageBound(coverage, permitted) {
      forall k, f | 0 <= k < |coverage| && f in coverage[k].facts ensures f in permitted {
        var m :| 0 <= m < |coverage[k].facts| && coverage[k].facts[m] == f;
      }
    }
    if forall k, f :: 0 <= k < |coverage| && f in coverage[k].facts ==> f in permitted {
      forall k, m | 0 <= k < |coverage| && 0 <= m < |coverage[k].facts| ensures coverage[k].facts[m] in permitted {
        assert coverage[k].facts[m] in coverage[k].facts;
      }
    }
  }

  lemma ItemsMean(c: Content)
    ensures forall x :: x in ItemsOf(c) <==> IsItem(c, x)
  {
    forall x | x in ItemsOf(c) ensures IsItem(c, x) {
      if x !in c.otherItems {
        var p :| p in c.projects && (x == p.id || x in p.bullets);
        var k :| 0 <= k < |c.projects| && c.projects[k] == p;
      }
    }
    forall x | IsItem(c, x) ensures x in ItemsOf(c) {
      if x !in c.otherItems {
        var k :| 0 <= k < |c.projects| && (x == c.projects[k].id || x in c.projects[k].bullets);
        assert c.projects[k] in c.projects;
      }
    }
  }

  lemma KnownMeans(coverage: seq<Cover>, c: Content)
    ensures
      CoverageKnown(coverage, ItemsOf(c)) <==>
        forall k, x :: 0 <= k < |coverage| && x in coverage[k].items ==> IsItem(c, x)
  {
    ItemsMean(c);
    hide ItemsOf, IsItem;
    if CoverageKnown(coverage, ItemsOf(c)) {
      forall k, x | 0 <= k < |coverage| && x in coverage[k].items ensures IsItem(c, x) {
        var m :| 0 <= m < |coverage[k].items| && coverage[k].items[m] == x;
        assert coverage[k].items[m] in ItemsOf(c);
      }
    }
    if forall k, x :: 0 <= k < |coverage| && x in coverage[k].items ==> IsItem(c, x) {
      forall k, m | 0 <= k < |coverage| && 0 <= m < |coverage[k].items| ensures coverage[k].items[m] in ItemsOf(c) {
        assert coverage[k].items[m] in coverage[k].items;
      }
    }
  }

  /** The first thing that is wrong is named: the coverage before the omissions, both before whether anything
      is there to publish. */
  lemma RefusalIsFirst(c: Candidate, permitted: set<FactId>, published: bool, acceptable: bool)
    ensures
      var r := Publish(c, permitted, published, acceptable);
      var bound := forall k, f :: 0 <= k < |c.coverage| && f in c.coverage[k].facts ==> f in permitted;
      && (r == CoverageIncomplete <==> |c.coverage| != c.requirements)
      && (r == CoverageUnbound ==> |c.coverage| == c.requirements && !bound)
      && (r == OmissionUnbound <==>
            CoverageIsSound(c, permitted) && exists f :: f in c.omitted && f !in permitted)
      && (r == OmissionReasonsIncomplete <==>
            CoverageIsSound(c, permitted) && !OmissionsAreSound(c, permitted)
            && forall f :: f in c.omitted ==> f in permitted)
      && (CoverageIsSound(c, permitted) && OmissionsAreSound(c, permitted) && !r.Published? ==>
            r == if published then AlreadyPublished else if c.content.None? then NeedsInput
                 else if !acceptable then ConstraintsViolated else CoverageItemsUnknown)
      && (|c.coverage| == c.requirements && !CoverageIsSound(c, permitted) ==>
            r == CoverageReferencesInvalid || r == CoverageUnbound)
  {
    OrdinalsMean(c);
    BoundMeans(c.coverage, permitted);
    PublicationMeans(c, permitted, published, acceptable);
    hide Ordinals, UpTo, CoverageBound, CoverageKnown, ItemsOf, IsItem;
  }
}
