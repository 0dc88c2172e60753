/** From a draft selection to a published first version: `_write` of
    `src/app/agents/resume_generation.py` and `publish` of `src/app/db/resume_generation.py`,
    and what the confirmation then finds. */
module ResumeDraft {
  import opened Options
  import opened ResumeLineage

  type ProjectId = nat

  datatype FactKind = Plan | Experiment | Plain

  /** `conditionsStated`: an experiment names its environment and metric basis, and its claim
      mentions the environment. */
  datatype Fact = Fact(version: FactId, project: ProjectId, kind: FactKind, conditionsStated: bool)

  datatype Project = Project(id: nat, reviewed: bool)

  datatype Bullet = Bullet(project: nat, fact: FactId, ordinals: seq<int>)

  datatype Inputs = Inputs(
    profile: seq<Project>,
    facts: seq<Fact>,
    projectMap: map<nat, ProjectId>,
    locked: set<nat>,
    otherItems: set<ItemId>)

  datatype Cover = Cover(ordinal: nat, facts: seq<FactId>, items: seq<ItemId>)

  datatype Content = Content(projects: seq<ProjectContent>, otherItems: set<ItemId>)

  datatype Candidate = Candidate(
    content: Option<Content>,
    requirements: nat,
    coverage: seq<Cover>,
    omitted: seq<FactId>,
    reasons: set<FactId>)

  // ---- _valid_bullet --------------------------------------------------------

  function FindFact(facts: seq<Fact>, id: FactId): (r: Option<Fact>)
    ensures r.Some? ==> r.value in facts && r.value.version == id
    ensures r.None? ==> forall f :: f in facts ==> f.version != id
  {
    if facts == [] then None
    else if facts[0].version == id then Some(facts[0])
    else FindFact(facts[1..], id)
  }

  function FindProject(ps: seq<Project>, id: nat): (r: Option<Project>)
    ensures r.Some? ==> r.value in ps && r.value.id == id
    ensures r.None? ==> forall p :: p in ps ==> p.id != id
  {
    if ps == [] then None
    else if ps[0].id == id then Some(ps[0])
    else FindProject(ps[1..], id)
  }

  predicate Supports(f: Fact) { f.kind == Plain || (f.kind == Experiment && f.conditionsStated) }

  predicate ValidBullet(b: Bullet, i: Inputs, requirements: nat)
  {
    var fact, project := FindFact(i.facts, b.fact), FindProject(i.profile, b.project);
    && fact.Some? && project.Some? && project.value.reviewed
    && b.project in i.projectMap && i.projectMap[b.project] == fact.value.project
    && Supports(fact.value)
    && b.ordinals != [] && forall k :: 0 <= k < |b.ordinals| ==> 0 <= b.ordinals[k] < requirements
  }

  // ---- _write ---------------------------------------------------------------

  function ValidOnes(bs: seq<Bullet>, i: Inputs, requirements: nat): (r: seq<Bullet>)
    ensures forall b :: b in r <==> b in bs && ValidBullet(b, i, requirements)
  {
    if bs == [] then [] else
    var n := |bs| - 1;
    assert forall b :: b in bs <==> b in bs[..n] || b == bs[n];
    ValidOnes(bs[..n], i, requirements) + (if ValidBullet(bs[n], i, requirements) then [bs[n]] else [])
  }

  function FactsOf(bs: seq<Bullet>): (r: set<FactId>)
    ensures forall b :: b in bs ==> b.fact in r
  {
    set b | b in bs :: b.fact
  }

  /** The first bullet of each fact. */
  function FirstOfEach(bs: seq<Bullet>): (r: seq<Bullet>)
    ensures forall b :: b in r ==> b in bs
    ensures FactsOf(r) == FactsOf(bs)
    ensures forall j, k :: 0 <= j < k < |r| ==> r[j].fact != r[k].fact
  {
    if bs == [] then [] else
    var n := |bs| - 1;
    var r := FirstOfEach(bs[..n]);
    assert forall b :: b in bs <==> b in bs[..n] || b == bs[n];
    if bs[n].fact in FactsOf(bs[..n]) then r
    else
      assert forall b :: b in r ==> b.fact != bs[n].fact;
      r + [bs[n]]
  }

  /** The deduplication with its mutable set. */
  method SelectOnce(valid: seq<Bullet>) returns (selected: seq<Bullet>)
    ensures selected == FirstOfEach(valid)
  {
    var seen: set<FactId> := {};
    selected := [];
    for k := 0 to |valid|
      invariant selected == FirstOfEach(valid[..k]) && seen == FactsOf(valid[..k])
    {
      assert valid[..k + 1][..k] == valid[..k];
      assert FactsOf(valid[..k + 1]) == FactsOf(valid[..k]) + {valid[k].fact} by {
        assert forall b :: b in valid[..k + 1] <==> b in valid[..k] || b == valid[k];
      }
      if valid[k].fact !in seen {
        seen := seen + {valid[k].fact};
        selected := selected + [valid[k]];
      }
    }
    assert valid[..|valid|] == valid;
  }

  function ChosenFor(bs: seq<Bullet>, project: nat): (r: seq<Bullet>)
    ensures forall b :: b in r <==> b in bs && b.project == project
  {
    if bs == [] then [] else
    var n := |bs| - 1;
    assert forall b :: b in bs <==> b in bs[..n] || b == bs[n];
    ChosenFor(bs[..n], project) + (if bs[n].project == project then [bs[n]] else [])
  }

  function BulletIds(bs: seq<Bullet>): (r: seq<ItemId>)
    ensures |r| == |bs| && forall k :: 0 <= k < |r| ==> r[k] == BulletItem(bs[k].fact)
  {
    seq(|bs|, k requires 0 <= k < |bs| => BulletItem(bs[k].fact))
  }

  /** The projects of the draft; `None` if a locked project would be dropped. */
  function DraftProjects(ps: seq<Project>, locked: set<nat>, bs: seq<Bullet>): Option<seq<ProjectContent>>
  {
    if ps == [] then Some([]) else
    var n := |ps| - 1;
    var r, chosen := DraftProjects(ps[..n], locked, bs), ChosenFor(bs, ps[n].id);
    if r.None? then None
    else if chosen == [] then (if ps[n].id in locked then None else r)
    else Some(r.value + [ProjectContent(ProjectItem(ps[n].id), BulletIds(chosen))])
  }

  predicate Chosen(bs: seq<Bullet>, project: nat) { exists k :: 0 <= k < |bs| && bs[k].project == project }

  /** A locked project without a bullet, or no project with one. */
  predicate DropsLocked(ps: seq<Project>, locked: set<nat>, bs: seq<Bullet>)
  {
    exists k :: 0 <= k < |ps| && ps[k].id in locked && !Chosen(bs, ps[k].id)
  }

  predicate ChoosesNothing(ps: seq<Project>, bs: seq<Bullet>)
  {
    forall k :: 0 <= k < |ps| ==> !Chosen(bs, ps[k].id)
  }

  lemma ChosenMeans(bs: seq<Bullet>, project: nat)
    ensures ChosenFor(bs, project) != [] <==> Chosen(bs, project)
  {
    var r := ChosenFor(bs, project);
    if r != [] { assert r[0] in bs; }
    if Chosen(bs, project) {
      var k :| 0 <= k < |bs| && bs[k].project == project;
      assert bs[k] in r;
    }
  }

  lemma {:induction false} DraftProjectsMeans(ps: seq<Project>, locked: set<nat>, bs: seq<Bullet>)
    ensures DraftProjects(ps, locked, bs).None? <==> DropsLocked(ps, locked, bs)
    ensures DraftProjects(ps, locked, bs) == Some([]) ==> ChoosesNothing(ps, bs)
    ensures ChoosesNothing(ps, bs) ==> DraftProjects(ps, locked, bs) in {None, Some([])}
  {
    hide Chosen, ChosenFor;
    if ps != [] {
      var n := |ps| - 1;
      DraftProjectsMeans(ps[..n], locked, bs);
      ChosenMeans(bs, ps[n].id);
      assert forall k :: 0 <= k < n ==> ps[..n][k] == ps[k];
      assert DropsLocked(ps, locked, bs) <==>
             DropsLocked(ps[..n], locked, bs) || (ps[n].id in locked && !Chosen(bs, ps[n].id)) by {
        if DropsLocked(ps[..n], locked, bs) {
          var k :| 0 <= k < n && ps[..n][k].id in locked && !Chosen(bs, ps[..n][k].id);
          assert ps[k].id in locked && !Chosen(bs, ps[k].id);
        }
      }
    }
  }

  /** `_content`; `acceptable` is the verdict on locked items and hard constraints.  Nothing is drafted
      exactly if a locked project would be dropped, or no project has a bullet, or the verdict is bad. */
  method DraftContent(i: Inputs, selected: seq<Bullet>, acceptable: bool) returns (r: Option<Content>)
    ensures r == ContentOf(i, selected, acceptable)
    ensures r.None? <==>
              DropsLocked(i.profile, i.locked, selected) || ChoosesNothing(i.profile, selected) || !acceptable
  {
    ContentMeans(i, selected, acceptable);
    hide DropsLocked, ChoosesNothing, ChosenFor;
    var projects: seq<ProjectContent> := [];
    for n := 0 to |i.profile|
      invariant DraftProjects(i.profile[..n], i.locked, selected) == Some(projects)
    {
      assert i.profile[..n + 1][..n] == i.profile[..n];
      var chosen := ChosenFor(selected, i.profile[n].id);
      if chosen == [] {
        if i.profile[n].id in i.locked {
          DroppedStays(i.profile, i.locked, selected, n + 1);
          return None;
        }
      } else {
        projects := projects + [ProjectContent(ProjectItem(i.profile[n].id), BulletIds(chosen))];
      }
    }
    assert i.profile[..|i.profile|] == i.profile;
    if projects == [] || !acceptable { return None; }
    return Some(Content(projects, i.otherItems));
  }

  lemma {:induction false} DroppedStays(ps: seq<Project>, locked: set<nat>, bs: seq<Bullet>, n: nat)
    requires n <= |ps| && DraftProjects(ps[..n], locked, bs).None?
    ensures DraftProjects(ps, locked, bs).None?
    decreases |ps| - n
  {
    if n < |ps| {
      assert ps[..n + 1][..n] == ps[..n];
      DroppedStays(ps, locked, bs, n + 1);
    } else {
      assert ps[..n] == ps;
    }
  }

  lemma ContentMeans(i: Inputs, selected: seq<Bullet>, acceptable: bool)
    ensures ContentOf(i, selected, acceptable).None? <==>
              DropsLocked(i.profile, i.locked, selected) || ChoosesNothing(i.profile, selected) || !acceptable
  {
    hide DropsLocked, ChoosesNothing, DraftProjects;
    DraftProjectsMeans(i.profile, i.locked, selected);
  }

  function ContentOf(i: Inputs, selected: seq<Bullet>, acceptable: bool): Option<Content>
  {
    var ps := DraftProjects(i.profile, i.locked, selected);
    if ps.None? || ps.value == [] || !acceptable then None else Some(Content(ps.value, i.otherItems))
  }

  function Supporting(bs: seq<Bullet>, ordinal: nat): (r: seq<Bullet>)
    ensures forall b :: b in r <==> b in bs && ordinal in b.ordinals
  {
    if bs == [] then [] else
    var n := |bs| - 1;
    assert forall b :: b in bs <==> b in bs[..n] || b == bs[n];
    Supporting(bs[..n], ordinal) + (if ordinal in bs[n].ordinals then [bs[n]] else [])
  }

  function FactList(bs: seq<Bullet>): (r: seq<FactId>)
    ensures |r| == |bs| && forall k :: 0 <= k < |r| ==> r[k] == bs[k].fact
  {
    seq(|bs|, k requires 0 <= k < |bs| => bs[k].fact)
  }

  /** `_coverage`. */
  function CoverageOf(selection: seq<Bullet>, requirements: nat): (r: seq<Cover>)
    ensures |r| == requirements
    ensures forall k :: 0 <= k < requirements ==>
              r[k] == Cover(k, FactList(Supporting(selection, k)), BulletIds(Supporting(selection, k)))
  {
    if requirements == 0 then [] else
    var n := requirements - 1;
    CoverageOf(selection, n)
    + [Cover(n, FactList(Supporting(selection, n)), BulletIds(Supporting(selection, n)))]
  }

  /** The loop of `_coverage` over the requirements. */
  method BuildCoverage(selection: seq<Bullet>, requirements: nat) returns (result: seq<Cover>)
    ensures result == CoverageOf(selection, requirements)
  {
    result := [];
    for ordinal := 0 to requirements
      invariant result == CoverageOf(selection, ordinal)
    {
      var selected := Supporting(selection, ordinal);
      result := result + [Cover(ordinal, FactList(selected), BulletIds(selected))];
    }
  }

  /** The facts that are not selected, in the order of the inputs. */
  function OmittedOf(facts: seq<Fact>, selected: set<FactId>): (r: seq<FactId>)
    ensures forall id :: id in r <==> id !in selected && exists f :: f in facts && f.version == id
  {
    if facts == [] then [] else
    var n := |facts| - 1;
    var r := OmittedOf(facts[..n], selected);
    assert forall f :: f in facts <==> f in facts[..n] || f == facts[n];
    if facts[n].version in selected then r else r + [facts[n].version]
  }

  /** The candidate that `_write` builds from the bullets of a selection. */
  function Write(i: Inputs, bullets: seq<Bullet>, requirements: nat, acceptable: bool): Candidate
  {
    var selected := FirstOfEach(ValidOnes(bullets, i, requirements));
    var content := ContentOf(i, selected, acceptable);
    var omitted := OmittedOf(i.facts, FactsOf(selected));
    Candidate(content, requirements, CoverageOf(if content.Some? then selected else [], requirements),
              omitted, set id | id in omitted)
  }

  // ---- publish --------------------------------------------------------------

  datatype Publication =
    | CoverageIncomplete
    | CoverageReferencesInvalid
    | CoverageUnbound
    | OmissionUnbound
    | OmissionReasonsIncomplete
    | AlreadyPublished
    | NeedsInput
    | ConstraintsViolated
    | CoverageItemsUnknown
    | Published(version: Version)

  function ItemsOf(c: Content): set<ItemId>
  {
    c.otherItems + (set p | p in c.projects :: p.id) + (set p, b | p in c.projects && b in p.bullets :: b)
  }

  predicate CoverageBound(coverage: seq<Cover>, permitted: set<FactId>)
  {
    forall k, m :: 0 <= k < |coverage| && 0 <= m < |coverage[k].facts| ==> coverage[k].facts[m] in permitted
  }

  predicate CoverageKnown(coverage: seq<Cover>, items: set<ItemId>)
  {
    forall k, m :: 0 <= k < |coverage| && 0 <= m < |coverage[k].items| ==> coverage[k].items[m] in items
  }

  function Ordinals(coverage: seq<Cover>): set<int> { set k | 0 <= k < |coverage| :: coverage[k].ordinal }

  function UpTo(n: nat): (r: set<int>)
    ensures forall k :: k in r <==> 0 <= k < n
  {
    if n == 0 then {} else UpTo(n - 1) + {n - 1}
  }

  /** `permitted` are the session's facts that are still active; `published` says that a first
      version exists; `acceptable` repeats the verdict on locked items and hard constraints. */
  function Publish(c: Candidate, permitted: set<FactId>, published: bool, acceptable: bool): Publication
  {
    if |c.coverage| != c.requirements then CoverageIncomplete
    else if Ordinals(c.coverage) != UpTo(c.requirements) then CoverageReferencesInvalid
    else if !CoverageBound(c.coverage, permitted) then CoverageUnbound
    else if !((set id | id in c.omitted) <= permitted) then OmissionUnbound
    else if c.reasons != (set id | id in c.omitted) then OmissionReasonsIncomplete
    else if published then AlreadyPublished
    else if c.content.None? then NeedsInput
    else if !acceptable then ConstraintsViolated
    else if !CoverageKnown(c.coverage, ItemsOf(c.content.value)) then CoverageItemsUnknown
    else Published(Version(1, None, c.content.value.projects, ItemsOf(c.content.value), permitted, NoFeedback))
  }

  /** The session's row while a candidate is published. */
  class Session {
    var version: Option<Version>
    var revision: nat
    var repairCount: nat

    constructor ()
      ensures version == None && revision == 0 && repairCount == 0
    {
      version, revision, repairCount := None, 0, 0;
    }

    /** The transaction of `publish`: a failed check changes nothing, a first version is
        stored once and counts as one revision. */
    method PublishCandidate(c: Candidate, permitted: set<FactId>, acceptable: bool) returns (r: Publication)
      modifies this`version, this`revision
      ensures r == Publish(c, permitted, old(version).Some?, acceptable)
      ensures version == if r.Published? then Some(r.version) else old(version)
      ensures revision == if r.Published? then old(revision) + 1 else old(revision)
      ensures old(version).Some? ==> version == old(version)
    {
      if |c.coverage| != c.requirements { return CoverageIncomplete; }
      if Ordinals(c.coverage) != UpTo(c.requirements) { return CoverageReferencesInvalid; }
      if !CoverageBound(c.coverage, permitted) { return CoverageUnbound; }
      var omitted := set id | id in c.omitted;
      if !(omitted <= permitted) { return OmissionUnbound; }
      if c.reasons != omitted { return OmissionReasonsIncomplete; }
      if version.Some? { return AlreadyPublished; }
      if c.content.None? { return NeedsInput; }
      if !acceptable { return ConstraintsViolated; }
      var items := ItemsOf(c.content.value);
      if !CoverageKnown(c.coverage, items) { return CoverageItemsUnknown; }
      var first := Version(1, None, c.content.value.projects, items, permitted, NoFeedback);
      version := Some(first);
      revision := revision + 1;
      return Published(first);
    }

    /** `reserve_repair`: a compare-and-set that succeeds once, and only before a version exists. */
    method ReserveRepair() returns (reserved: bool)
      modifies this`repairCount
      ensures reserved <==> old(repairCount) == 0 && version.None?
      ensures repairCount == if reserved then 1 else old(repairCount)
    {
      if repairCount == 0 && version.None? {
        repairCount := 1;
        return true;
      }
      return false;
    }
  }

  // ---- From selection to confirmation ---------------------------------------

  predicate AllBound(i: Inputs, permitted: set<FactId>) { forall f :: f in i.facts ==> f.version in permitted }

  /** The facts that the draft uses. */
  function Used(i: Inputs, bullets: seq<Bullet>, requirements: nat): set<FactId>
  {
    FactsOf(FirstOfEach(ValidOnes(bullets, i, requirements)))
  }

  lemma SelectedAreValid(i: Inputs, bullets: seq<Bullet>, requirements: nat, b: Bullet)
    requires b in FirstOfEach(ValidOnes(bullets, i, requirements))
    ensures ValidBullet(b, i, requirements) && b.fact in Used(i, bullets, requirements)
  {
  }

  /** Every selected bullet supports a requirement, so coverage mentions exactly the facts used. */
  lemma CoverageIsUsed(i: Inputs, bullets: seq<Bullet>, requirements: nat, permitted: set<FactId>)
    ensures
      var selected := FirstOfEach(ValidOnes(bullets, i, requirements));
      CoverageBound(CoverageOf(selected, requirements), permitted) <==> Used(i, bullets, requirements) <= permitted
  {
    var selected := FirstOfEach(ValidOnes(bullets, i, requirements));
    var coverage := CoverageOf(selected, requirements);
    if CoverageBound(coverage, permitted) {
      forall f | f in FactsOf(selected) ensures f in permitted {
        var b :| b in selected && b.fact == f;
        SelectedAreValid(i, bullets, requirements, b);
        var ordinal: nat := b.ordinals[0];
        var supporting := Supporting(selected, ordinal);
        assert ordinal in b.ordinals && b in supporting;
        var m :| 0 <= m < |supporting| && supporting[m] == b;
        assert coverage[ordinal].facts[m] == f;
      }
    }
    if FactsOf(selected) <= permitted {
      forall k, m | 0 <= k < |coverage| && 0 <= m < |coverage[k].facts| ensures coverage[k].facts[m] in permitted {
        assert Supporting(selected, k)[m] in selected;
      }
    }
  }

  /** The bullets of the content are selected facts, and no project is empty. */
  lemma {:induction false} ProjectsAreSelected(ps: seq<Project>, locked: set<nat>, bs: seq<Bullet>)
    requires DraftProjects(ps, locked, bs).Some?
    ensures
      var r := DraftProjects(ps, locked, bs).value;
      forall c :: c in r ==> c.bullets != [] && forall x :: x in c.bullets ==> x.BulletItem? && x.fact in FactsOf(bs)
  {
    if ps != [] {
      var n := |ps| - 1;
      ProjectsAreSelected(ps[..n], locked, bs);
      var chosen := ChosenFor(bs, ps[n].id);
      hide FactsOf;
      forall x | x in BulletIds(chosen) ensures x.BulletItem? && x.fact in FactsOf(bs) {
        var k :| 0 <= k < |chosen| && x == BulletIds(chosen)[k];
        assert chosen[k] in bs;
      }
    }
  }

  /** Every selected fact of a known project is a bullet of the content. */
  lemma {:induction false} ProjectHolds(ps: seq<Project>, locked: set<nat>, bs: seq<Bullet>, b: Bullet, p: Project)
    requires DraftProjects(ps, locked, bs).Some? && b in bs && p in ps && p.id == b.project
    ensures exists c :: c in DraftProjects(ps, locked, bs).value && BulletItem(b.fact) in c.bullets
  {
    var n := |ps| - 1;
    var r := DraftProjects(ps, locked, bs).value;
    if p == ps[n] {
      var chosen := ChosenFor(bs, p.id);
      assert b in chosen;
      var k :| 0 <= k < |chosen| && chosen[k] == b;
      var last := ProjectContent(ProjectItem(p.id), BulletIds(chosen));
      assert last.bullets[k] == BulletItem(b.fact) && last in r;
    } else {
      assert p in ps[..n];
      ProjectHolds(ps[..n], locked, bs, b, p);
      var c :| c in DraftProjects(ps[..n], locked, bs).value && BulletItem(b.fact) in c.bullets;
      assert c in r;
    }
  }

  /** The content's bullets are exactly the selected facts of known projects. */
  lemma ProjectsHold(ps: seq<Project>, locked: set<nat>, bs: seq<Bullet>)
    requires DraftProjects(ps, locked, bs).Some?
    ensures
      var r := DraftProjects(ps, locked, bs).value;
      && (forall c, x :: c in r && x in c.bullets ==> x.BulletItem? && x.fact in FactsOf(bs))
      && (forall b, p :: b in bs && p in ps && p.id == b.project ==>
            exists c :: c in r && BulletItem(b.fact) in c.bullets)
      && (forall c :: c in r ==> c.bullets != [])
  {
    hide DraftProjects, FactsOf;
    ProjectsAreSelected(ps, locked, bs);
    forall b, p | b in bs && p in ps && p.id == b.project
      ensures exists c :: c in DraftProjects(ps, locked, bs).value && BulletItem(b.fact) in c.bullets
    {
      ProjectHolds(ps, locked, bs, b, p);
    }
  }

  lemma CoverageItemsKnown(i: Inputs, bullets: seq<Bullet>, requirements: nat, acceptable: bool)
    requires ContentOf(i, FirstOfEach(ValidOnes(bullets, i, requirements)), acceptable).Some?
    ensures
      var selected := FirstOfEach(ValidOnes(bullets, i, requirements));
      CoverageKnown(CoverageOf(selected, requirements), ItemsOf(ContentOf(i, selected, acceptable).value))
  {
    var selected := FirstOfEach(ValidOnes(bullets, i, requirements));
    var content := ContentOf(i, selected, acceptable).value;
    var coverage := CoverageOf(selected, requirements);
    ProjectsHold(i.profile, i.locked, selected);
    forall k, m | 0 <= k < |coverage| && 0 <= m < |coverage[k].items| ensures coverage[k].items[m] in ItemsOf(content) {
      var b := Supporting(selected, k)[m];
      assert b in selected && coverage[k].items[m] == BulletItem(b.fact);
      SelectedAreValid(i, bullets, requirements, b);
      var p := FindProject(i.profile, b.project).value;
      assert p in i.profile && p.id == b.project;
      var c :| c in content.projects && BulletItem(b.fact) in c.bullets;
    }
  }

  lemma OrdinalsComplete(selection: seq<Bullet>, requirements: nat)
    ensures Ordinals(CoverageOf(selection, requirements)) == UpTo(requirements)
  {
    var coverage := CoverageOf(selection, requirements);
    assert forall k :: 0 <= k < requirements ==> coverage[k].ordinal == k;
  }

  /** The exact outcome of publishing what `_write` built.  Its coverage is complete, its
      references and items are known and its omissions are explained, always; it is refused
      as unbound exactly if a fact it uses or omits is no longer permitted. */
  lemma PublicationOutcome(i: Inputs, bullets: seq<Bullet>, requirements: nat, acceptable: bool,
                           permitted: set<FactId>, published: bool, stillAcceptable: bool)
    ensures
      var c := Write(i, bullets, requirements, acceptable);
      var used := Used(i, bullets, requirements);
      Publish(c, permitted, published, stillAcceptable) ==
        if c.content.Some? && !(used <= permitted) then CoverageUnbound
        else if exists f :: f in i.facts && f.version !in used && f.version !in permitted then OmissionUnbound
        else if published then AlreadyPublished
        else if c.content.None? then NeedsInput
        else if !stillAcceptable then ConstraintsViolated
        else Published(Version(1, None, c.content.value.projects, ItemsOf(c.content.value), permitted, NoFeedback))
    ensures AllBound(i, permitted) ==> Used(i, bullets, requirements) <= permitted
  {
    hide FirstOfEach, ValidOnes, FactsOf, CoverageOf, CoverageBound, CoverageKnown, ContentOf, ItemsOf, Ordinals, UpTo,
      OmittedOf;
    var c := Write(i, bullets, requirements, acceptable);
    var used := Used(i, bullets, requirements);
    CoverageIsUsed(i, bullets, requirements, permitted);
    OrdinalsComplete(FirstOfEach(ValidOnes(bullets, i, requirements)), requirements);
    OrdinalsComplete([], requirements);
    if c.content.Some? { CoverageItemsKnown(i, bullets, requirements, acceptable); }
    else { NothingCovered(requirements, permitted); }
    OmissionIsRest(i.facts, used, permitted);
    if AllBound(i, permitted) { UsedIsBound(i, bullets, requirements, permitted); }
  }

  lemma NothingCovered(requirements: nat, permitted: set<FactId>)
    ensures CoverageBound(CoverageOf([], requirements), permitted)
  {
    forall k | 0 <= k < requirements ensures CoverageOf([], requirements)[k].facts == [] {
      assert Supporting([], k) == [];
    }
  }

  lemma OmissionIsRest(facts: seq<Fact>, used: set<FactId>, permitted: set<FactId>)
    ensures (set id | id in OmittedOf(facts, used)) <= permitted <==>
              !exists f :: f in facts && f.version !in used && f.version !in permitted
  {
    if f :| f in facts && f.version !in used && f.version !in permitted {
      assert f.version in OmittedOf(facts, used);
    }
  }

  lemma UsedIsBound(i: Inputs, bullets: seq<Bullet>, requirements: nat, permitted: set<FactId>)
    requires AllBound(i, permitted)
    ensures Used(i, bullets, requirements) <= permitted
  {
    var selected := FirstOfEach(ValidOnes(bullets, i, requirements));
    forall id | id in FactsOf(selected) ensures id in permitted {
      var b :| b in selected && b.fact == id;
      SelectedAreValid(i, bullets, requirements, b);
      assert FindFact(i.facts, id).value in i.facts;
    }
  }

  // ---- What confirmation finds ----------------------------------------------

  lemma {:induction false} FoldWrites(ops: seq<Op>)
    requires forall k :: 0 <= k < |ops| ==> ops[k].Write?
    ensures forall key :: key in Fold(ops) ==> Op.Write(key, Fold(ops)[key]) in ops
    ensures forall k :: 0 <= k < |ops| ==> ops[k].key in Fold(ops)
  {
    if ops != [] {
      var n := |ops| - 1;
      FoldWrites(ops[..n]);
      assert forall op :: op in ops[..n] ==> op in ops;
      assert ops[n] in ops && forall k :: 0 <= k < n ==> ops[k] == ops[..n][k];
    }
  }

  /** A binding of one bullet to the fact with its identity. */
  predicate Binds(op: Op, snapshot: set<FactId>, b: ItemId)
  {
    op.Write? && op.facts == Matches(snapshot, b) && (op.key.field == Field.Bullet ==> op.key.item == b)
  }

  predicate HasBullet(ps: seq<ProjectContent>, b: ItemId) { exists k :: 0 <= k < |ps| && b in ps[k].bullets }

  lemma {:induction false} BulletOpsBind(snapshot: set<FactId>, bullets: seq<ItemId>)
    ensures forall op :: op in BulletOps(snapshot, bullets) ==> exists b :: b in bullets && Binds(op, snapshot, b)
    ensures forall b :: b in bullets ==>
              Op.Write(Key(b, Field.Bullet), Matches(snapshot, b)) in BulletOps(snapshot, bullets)
  {
    if bullets != [] {
      var n := |bullets| - 1;
      BulletOpsBind(snapshot, bullets[..n]);
      assert forall b :: b in bullets <==> b in bullets[..n] || b == bullets[n];
      var last := Op.Write(Key(bullets[n], Field.Bullet), Matches(snapshot, bullets[n]));
      assert Binds(last, snapshot, bullets[n]);
      forall op | op in BulletOps(snapshot, bullets) ensures exists b :: b in bullets && Binds(op, snapshot, b) {
        if op != last {
          var b :| b in bullets[..n] && Binds(op, snapshot, b);
          assert b in bullets;
        }
      }
    }
  }

  lemma HasBulletGrows(ps: seq<ProjectContent>, b: ItemId)
    requires ps != []
    ensures HasBullet(ps, b) <==> HasBullet(ps[..|ps| - 1], b) || b in ps[|ps| - 1].bullets
  {
    var n := |ps| - 1;
    if HasBullet(ps[..n], b) {
      var k :| 0 <= k < n && b in ps[..n][k].bullets;
      assert b in ps[k].bullets;
    }
    if HasBullet(ps, b) {
      var k :| 0 <= k < |ps| && b in ps[k].bullets;
      assert k < n ==> b in ps[..n][k].bullets;
    }
  }

  lemma ProjectOpBinds(snapshot: set<FactId>, p: ProjectContent, op: Op)
    requires op in ProjectOps(snapshot, p)
    ensures exists b :: b in p.bullets && Binds(op, snapshot, b)
  {
    BulletOpsBind(snapshot, p.bullets);
    if op !in BulletOps(snapshot, p.bullets) {
      assert Binds(op, snapshot, p.bullets[0]);
    }
  }

  lemma {:induction false} BaseOpBinds(snapshot: set<FactId>, ps: seq<ProjectContent>, op: Op)
    requires op in BaseOps(snapshot, ps)
    ensures exists b :: HasBullet(ps, b) && Binds(op, snapshot, b)
  {
    hide Binds, HasBullet, ProjectOps;
    var n := |ps| - 1;
    if op in BaseOps(snapshot, ps[..n]) {
      BaseOpBinds(snapshot, ps[..n], op);
      var b :| HasBullet(ps[..n], b) && Binds(op, snapshot, b);
      HasBulletGrows(ps, b);
    } else {
      ProjectOpBinds(snapshot, ps[n], op);
      var b :| b in ps[n].bullets && Binds(op, snapshot, b);
      HasBulletGrows(ps, b);
    }
  }

  lemma {:induction false} BulletHasOp(snapshot: set<FactId>, ps: seq<ProjectContent>, b: ItemId)
    requires HasBullet(ps, b)
    ensures Op.Write(Key(b, Field.Bullet), Matches(snapshot, b)) in BaseOps(snapshot, ps)
  {
    hide Matches;
    var n := |ps| - 1;
    HasBulletGrows(ps, b);
    if HasBullet(ps[..n], b) { BulletHasOp(snapshot, ps[..n], b); } else { BulletOpsBind(snapshot, ps[n].bullets); }
  }

  lemma BaseOpsBind(snapshot: set<FactId>, ps: seq<ProjectContent>)
    ensures forall op :: op in BaseOps(snapshot, ps) ==> exists b :: HasBullet(ps, b) && Binds(op, snapshot, b)
    ensures forall b :: HasBullet(ps, b) ==>
              Op.Write(Key(b, Field.Bullet), Matches(snapshot, b)) in BaseOps(snapshot, ps)
  {
    hide BaseOps, HasBullet, Binds, Matches;
    forall op | op in BaseOps(snapshot, ps) ensures exists b :: HasBullet(ps, b) && Binds(op, snapshot, b) {
      BaseOpBinds(snapshot, ps, op);
    }
    forall b | HasBullet(ps, b)
      ensures Op.Write(Key(b, Field.Bullet), Matches(snapshot, b)) in BaseOps(snapshot, ps)
    {
      BulletHasOp(snapshot, ps, b);
    }
  }

  lemma MatchesOwn(snapshot: set<FactId>, f: FactId)
    requires f in snapshot
    ensures Matches(snapshot, BulletItem(f)) == {f}
  {
  }

  lemma UsesBind(snapshot: set<FactId>, ps: seq<ProjectContent>, key: Key)
    requires key in Fold(BaseOps(snapshot, ps))
    ensures exists b :: HasBullet(ps, b) && Binds(Op.Write(key, Fold(BaseOps(snapshot, ps))[key]), snapshot, b)
  {
    hide Fold, BaseOps, Binds, HasBullet;
    var ops := BaseOps(snapshot, ps);
    BaseOpsWrite(snapshot, ps);
    BaseOpsBind(snapshot, ps);
    FoldWrites(ops);
  }

  lemma BaseOpsWrite(snapshot: set<FactId>, ps: seq<ProjectContent>)
    ensures forall k :: 0 <= k < |BaseOps(snapshot, ps)| ==> BaseOps(snapshot, ps)[k].Write?
  {
    hide BaseOps;
    BaseOpsBind(snapshot, ps);
    var ops := BaseOps(snapshot, ps);
    forall k | 0 <= k < |ops| ensures ops[k].Write? { assert ops[k] in ops; }
  }

  lemma BulletIsWritten(snapshot: set<FactId>, ps: seq<ProjectContent>, f: FactId)
    requires f in snapshot && HasBullet(ps, BulletItem(f))
    ensures Key(BulletItem(f), Field.Bullet) in Fold(BaseOps(snapshot, ps))
  {
    hide Fold, BaseOps, HasBullet, Binds, Matches;
    var ops := BaseOps(snapshot, ps);
    MatchesOwn(snapshot, f);
    BulletHasOp(snapshot, ps, BulletItem(f));
    BaseOpsWrite(snapshot, ps);
    FoldWrites(ops);
    var k :| 0 <= k < |ops| && ops[k] == Op.Write(Key(BulletItem(f), Field.Bullet), {f});
  }

  lemma BulletIsBound(snapshot: set<FactId>, ps: seq<ProjectContent>, f: FactId)
    requires f in snapshot && HasBullet(ps, BulletItem(f))
    ensures
      var key, uses := Key(BulletItem(f), Field.Bullet), Fold(BaseOps(snapshot, ps));
      key in uses && uses[key] == {f}
  {
    hide Fold, BaseOps, HasBullet;
    BulletIsWritten(snapshot, ps, f);
    MatchesOwn(snapshot, f);
    UsesBind(snapshot, ps, Key(BulletItem(f), Field.Bullet));
  }

  /** The first version binds each bullet to its own fact, so it uses exactly those facts. */
  lemma BaseUses(snapshot: set<FactId>, ps: seq<ProjectContent>, used: set<FactId>)
    requires used <= snapshot
    requires forall b :: HasBullet(ps, b) ==> b.BulletItem? && b.fact in used
    requires forall f :: f in used ==> HasBullet(ps, BulletItem(f))
    ensures UnionOf(Fold(BaseOps(snapshot, ps))) == used
  {
    hide Fold, BaseOps, HasBullet;
    var uses := Fold(BaseOps(snapshot, ps));
    forall f | f in UnionOf(uses) ensures f in used {
      var key :| key in uses && f in uses[key];
      UsesBind(snapshot, ps, key);
      var b :| HasBullet(ps, b) && Binds(Op.Write(key, uses[key]), snapshot, b);
      assert f in Matches(snapshot, b);
    }
    forall f | f in used ensures f in UnionOf(uses) {
      BulletIsBound(snapshot, ps, f);
    }
  }

  /** The generation-to-confirmation theorem: if a draft is published, the confirmation reads
      back exactly the facts that were selected for it. */
  lemma PublishedDraftConfirms(i: Inputs, bullets: seq<Bullet>, requirements: nat, acceptable: bool,
                               permitted: set<FactId>, stillAcceptable: bool, store: map<VersionId, Version>)
    requires Publish(Write(i, bullets, requirements, acceptable), permitted, false, stillAcceptable).Published?
    ensures
      var v := Publish(Write(i, bullets, requirements, acceptable), permitted, false, stillAcceptable).version;
      FactUses(store, v) == Ok(Used(i, bullets, requirements)) && Used(i, bullets, requirements) != {}
  {
    var c, used := Write(i, bullets, requirements, acceptable), Used(i, bullets, requirements);
    PublicationOutcome(i, bullets, requirements, acceptable, permitted, false, stillAcceptable);
    var v := Publish(c, permitted, false, stillAcceptable).version;
    var selected := FirstOfEach(ValidOnes(bullets, i, requirements));
    ContentHolds(i, bullets, requirements, acceptable);
    BaseUses(permitted, v.projects, used);
    forall k, j | 0 <= k < |v.projects| && 0 <= j < |v.projects[k].bullets|
      ensures Resolvable(permitted, v.projects[k].bullets[j])
    {
      assert HasBullet(v.projects, v.projects[k].bullets[j]);
      MatchesOwn(permitted, v.projects[k].bullets[j].fact);
    }
    FirstVersionReads(v, used, store);
  }

  lemma FirstVersionReads(v: Version, used: set<FactId>, store: map<VersionId, Version>)
    requires v.number == 1 && v.parent.None? && used <= v.snapshot
    requires UnionOf(Fold(BaseOps(v.snapshot, v.projects))) == used
    requires forall k, j :: 0 <= k < |v.projects| && 0 <= j < |v.projects[k].bullets| ==>
               Resolvable(v.snapshot, v.projects[k].bullets[j])
    ensures FactUses(store, v) == Ok(used)
  {
    hide Fold, BaseOps, Resolvable, UnionOf;
    assert Chain(store, v) == Ok([v]);
    assert LineageOps([v]) == BaseOps(v.snapshot, v.projects);
  }

  lemma BulletFor(bs: seq<Bullet>, f: FactId) returns (b: Bullet)
    requires f in FactsOf(bs)
    ensures b in bs && b.fact == f
  {
    b :| b in bs && b.fact == f;
  }

  lemma ContentHolds(i: Inputs, bullets: seq<Bullet>, requirements: nat, acceptable: bool)
    requires Write(i, bullets, requirements, acceptable).content.Some?
    ensures
      var ps, used := Write(i, bullets, requirements, acceptable).content.value.projects, Used(i, bullets, requirements);
      && (forall b :: HasBullet(ps, b) ==> b.BulletItem? && b.fact in used)
      && (forall f :: f in used ==> HasBullet(ps, BulletItem(f))) && used != {}
  {
    hide FirstOfEach, ValidOnes, FactsOf, DraftProjects;
    var selected := FirstOfEach(ValidOnes(bullets, i, requirements));
    var used := Used(i, bullets, requirements);
    var ps := Write(i, bullets, requirements, acceptable).content.value.projects;
    ProjectsHold(i.profile, i.locked, selected);
    forall f | f in used ensures HasBullet(ps, BulletItem(f)) {
      var b := BulletFor(selected, f);
      SelectedAreValid(i, bullets, requirements, b);
      var p := FindProject(i.profile, b.project).value;
      assert p in i.profile && p.id == b.project;
      var c :| c in ps && BulletItem(f) in c.bullets;
      var k :| 0 <= k < |ps| && ps[k] == c;
    }
    assert ps[0] in ps && ps[0].bullets[0] in ps[0].bullets;
    assert ps[0].bullets[0].fact in used;
  }
}
