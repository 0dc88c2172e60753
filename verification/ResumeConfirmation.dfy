/** Confirming a version: `_require_confirmable` and `_ConfirmationWriter.apply` of
    `src/app/db/resume_confirmation.py`. */
module ResumeConfirmation {
  import opened Options
  import opened ResumeLineage
  import ResumeDraft

  type ArtifactId = nat
  type Sha = nat
  type ConfirmationId = nat

  datatype Review = PendingReview | Confirmed | Refused

  /** A user's correction that supersedes a fact; `current` is the review of its current version. */
  datatype Correction = Correction(supersedes: FactId, current: Option<Review>)

  datatype Facts = Facts(reviews: map<FactId, Review>, corrections: seq<Correction>)

  datatype Stored = Stored(version: Version, openQuestions: bool, artifact: ArtifactId)

  datatype Confirmation = Confirmation(id: ConfirmationId, artifact: ArtifactId, sha: Sha, actor: nat)

  datatype Command = Command(attested: bool, version: VersionId, artifact: ArtifactId, sha: Sha, actor: nat)

  datatype Refusal =
    | NotAttested
    | VersionMissing
    | ArtifactChanged
    | ArtifactMissing
    | DigestChanged
    | ConfirmationDiffers
    | QuestionsOpen
    | UsesUnreadable(error: Error)
    | NoSupport
    | FactUnconfirmed
    | FactUnderCorrection

  datatype Answer = Receipt(id: ConfirmationId) | Refuse(why: Refusal)

  function Versions(stored: map<VersionId, Stored>): map<VersionId, Version>
  {
    map v | v in stored :: stored[v].version
  }

  predicate Blocks(c: Correction, used: set<FactId>)
  {
    c.supersedes in used && c.current in {Some(PendingReview), Some(Confirmed)}
  }

  predicate AllConfirmed(f: Facts, used: set<FactId>)
  {
    forall id :: id in used ==> id in f.reviews && f.reviews[id] == Confirmed
  }

  predicate UnderCorrection(f: Facts, used: set<FactId>)
  {
    exists k :: 0 <= k < |f.corrections| && Blocks(f.corrections[k], used)
  }

  /** The reason why a version cannot be confirmed, in the order of the checks. */
  function Obstacle(stored: map<VersionId, Stored>, s: Stored, f: Facts): Option<Refusal>
  {
    if s.openQuestions then Some(QuestionsOpen)
    else
      match FactUses(Versions(stored), s.version)
      case Err(e) => Some(UsesUnreadable(e))
      case Ok(used) =>
        if used == {} then Some(NoSupport)
        else if !AllConfirmed(f, used) then Some(FactUnconfirmed)
        else if UnderCorrection(f, used) then Some(FactUnderCorrection)
        else None
  }

  class ConfirmedSession {
    var versions: map<VersionId, Stored>
    var artifacts: map<ArtifactId, Sha>
    var confirmations: map<VersionId, Confirmation>
    var revision: nat

    constructor (versions: map<VersionId, Stored>, artifacts: map<ArtifactId, Sha>)
      ensures this.versions == versions && this.artifacts == artifacts && confirmations == map[] && revision == 0
    {
      this.versions, this.artifacts, confirmations, revision := versions, artifacts, map[], 0;
    }

    /** The command attests the version's artifact as it is stored. */
    predicate Exact(c: Command)
      reads this`versions, this`artifacts
    {
      && c.attested
      && c.version in versions && versions[c.version].artifact == c.artifact
      && c.artifact in artifacts && artifacts[c.artifact] == c.sha
    }

    method RequireConfirmable(s: Stored, f: Facts) returns (why: Option<Refusal>)
      ensures why == Obstacle(versions, s, f)
    {
      if s.openQuestions { return Some(QuestionsOpen); }
      var uses := ActualFactUses(Versions(versions), s.version);
      if uses.Err? { return Some(UsesUnreadable(uses.error)); }
      var used := uses.value;
      if used == {} { return Some(NoSupport); }
      if !AllConfirmed(f, used) { return Some(FactUnconfirmed); }
      for k := 0 to |f.corrections|
        invariant forall j :: 0 <= j < k ==> !Blocks(f.corrections[j], used)
      {
        if Blocks(f.corrections[k], used) { return Some(FactUnderCorrection); }
      }
      return None;
    }

    /** The transaction of a confirmation: the first one is recorded for the exact artifact and
        counts as one revision, a repeated one returns it, and a refusal changes nothing. */
    method Apply(c: Command, f: Facts, confirmationId: ConfirmationId) returns (r: Answer)
      modifies this`confirmations, this`revision
      ensures r.Receipt? ==>
                && Exact(c) && c.version in confirmations && confirmations[c.version].id == r.id
                && confirmations[c.version].artifact == c.artifact && confirmations[c.version].sha == c.sha
      ensures r.Receipt? && c.version !in old(confirmations) ==>
                && Obstacle(versions, versions[c.version], f).None? && revision == old(revision) + 1
                && confirmations ==
                     old(confirmations)[c.version := Confirmation(confirmationId, c.artifact, c.sha, c.actor)]
      ensures r.Refuse? || c.version in old(confirmations) ==>
                confirmations == old(confirmations) && revision == old(revision)
      ensures (Exact(c) && c.version !in old(confirmations) && Obstacle(versions, versions[c.version], f).None?)
              ==> r == Receipt(confirmationId)
      ensures Exact(c) && c.version in old(confirmations) ==>
                var first := old(confirmations)[c.version];
                r == if first.artifact == c.artifact && first.sha == c.sha then Receipt(first.id)
                     else Refuse(ConfirmationDiffers)
      ensures Exact(c) && c.version !in old(confirmations) && Obstacle(versions, versions[c.version], f).Some? ==>
                r == Refuse(Obstacle(versions, versions[c.version], f).value)
      ensures !Exact(c) ==>
                r == Refuse(if !c.attested then NotAttested
                            else if c.version !in versions then VersionMissing
                            else if versions[c.version].artifact != c.artifact then ArtifactChanged
                            else if c.artifact !in artifacts then ArtifactMissing
                            else DigestChanged)
    {
      if !c.attested { return Refuse(NotAttested); }
      if c.version !in versions { return Refuse(VersionMissing); }
      var stored := versions[c.version];
      if stored.artifact != c.artifact { return Refuse(ArtifactChanged); }
      if stored.artifact !in artifacts { return Refuse(ArtifactMissing); }
      var sha := artifacts[stored.artifact];
      if sha != c.sha { return Refuse(DigestChanged); }
      if c.version in confirmations {
        var existing := confirmations[c.version];
        if existing.artifact != stored.artifact || existing.sha != sha { return Refuse(ConfirmationDiffers); }
        return Receipt(existing.id);
      }
      var why := RequireConfirmable(stored, f);
      if why.Some? { return Refuse(why.value); }
      confirmations := confirmations[c.version := Confirmation(confirmationId, stored.artifact, sha, c.actor)];
      revision := revision + 1;
      return Receipt(confirmationId);
    }
  }

  /** A freshly published draft without questions can be confirmed exactly if every fact that was
      selected for it is still confirmed and not under correction. */
  lemma DraftIsConfirmable(i: ResumeDraft.Inputs, bullets: seq<ResumeDraft.Bullet>, requirements: nat,
                           acceptable: bool, permitted: set<FactId>, stillAcceptable: bool,
                           stored: map<VersionId, Stored>, s: Stored, f: Facts)
    requires
      var p := ResumeDraft.Publish(ResumeDraft.Write(i, bullets, requirements, acceptable), permitted, false,
                                   stillAcceptable);
      p.Published? && s.version == p.version
    requires !s.openQuestions
    ensures
      var used := ResumeDraft.Used(i, bullets, requirements);
      Obstacle(stored, s, f).None? <==> AllConfirmed(f, used) && !UnderCorrection(f, used)
  {
    hide AllConfirmed, UnderCorrection, FactUses, ResumeDraft.Publish, ResumeDraft.Write;
    ResumeDraft.PublishedDraftConfirms(i, bullets, requirements, acceptable, permitted, stillAcceptable,
                                       Versions(stored));
  }

  /** Which obstacle is named when there are several: open questions before anything about the facts, an
      unreadable history before missing support, a fact that is not confirmed before one under correction. */
  lemma ObstacleIsFirst(stored: map<VersionId, Stored>, s: Stored, f: Facts)
    ensures
      var why, uses := Obstacle(stored, s, f), FactUses(Versions(stored), s.version);
      var unconfirmed := uses.Ok? && exists id :: id in uses.value && !(id in f.reviews && f.reviews[id] == Confirmed);
      && (why == Some(QuestionsOpen) <==> s.openQuestions)
      && (forall e :: why == Some(UsesUnreadable(e)) <==> !s.openQuestions && uses == Err(e))
      && (why == Some(NoSupport) <==> !s.openQuestions && uses == Ok({}))
      && (why == Some(FactUnconfirmed) <==> !s.openQuestions && unconfirmed)
      && (why.Some? ==> why.value in {QuestionsOpen, NoSupport, FactUnconfirmed, FactUnderCorrection}
                        || why.value.UsesUnreadable?)
  {
    hide FactUses, UnderCorrection;
  }

  /** The versions as the history reads them. */
  lemma VersionsAreStored(stored: map<VersionId, Stored>, v: VersionId)
    ensures v in Versions(stored) <==> v in stored
    ensures v in stored ==> Versions(stored)[v] == stored[v].version
  {
  }

  /** In general: exactly if no question is open and the facts of the version's live writes are
      some, all confirmed, and none under correction. */
  lemma ConfirmableMeans(stored: map<VersionId, Stored>, s: Stored, f: Facts)
    ensures
      var uses := FactUses(Versions(stored), s.version);
      Obstacle(stored, s, f).None? <==>
        && !s.openQuestions && uses.Ok? && uses.value != {}
        && (forall id :: id in uses.value ==> id in f.reviews && f.reviews[id] == Confirmed)
        && (forall c :: c in f.corrections && c.supersedes in uses.value ==>
              c.current == None || c.current == Some(Refused))
  {
    hide FactUses;
    var uses := FactUses(Versions(stored), s.version);
    if uses.Ok? && UnderCorrection(f, uses.value) {
      var k :| 0 <= k < |f.corrections| && Blocks(f.corrections[k], uses.value);
      assert f.corrections[k] in f.corrections;
    } else if uses.Ok? {
      forall c | c in f.corrections && c.supersedes in uses.value ensures c.current == None || c.current == Some(Refused)
      {
        var k :| 0 <= k < |f.corrections| && f.corrections[k] == c;
        assert !Blocks(f.corrections[k], uses.value);
        match c.current { case None => case Some(PendingReview) => case Some(Confirmed) => case Some(Refused) => }
      }
    }
  }
}
