/** The end of a research run: the writer's report is checked against the evidence
    (`_validate_writer_grounding`) and then assembled by `finalize`. */
module Report {
  import opened Options
  import opened Keyed
  import opened ResearchPasses
  import opened ResearchProofs

  const LIMITATION_LIMIT: nat := 8

  datatype Citation = Citation(source: SourceId, evidence: EvidenceId)

  datatype Claim = Claim(id: nat, citations: seq<Citation>)

  datatype Limitation = InsufficientEvidence(text: nat) | OtherLimitation(text: nat)

  datatype WriterOutput = WriterOutput(
    summary: seq<Claim>,
    findings: seq<Claim>,
    draft: Option<seq<Claim>>,
    limitations: seq<Limitation>)

  datatype WriterInput = WriterInput(
    includeDraft: bool,
    evidence: seq<Evidence>,
    documentEvidence: seq<Evidence>,
    sufficient: bool,
    limitations: seq<Limitation>)

  function AllClaims(w: WriterOutput): seq<Claim>
  {
    w.summary + w.findings + (if w.draft.Some? then w.draft.value else [])
  }

  predicate Insufficient(ls: seq<Limitation>) { exists i :: 0 <= i < |ls| && ls[i].InsufficientEvidence? }

  /** `_merge_limitations`. */
  function MergeLimitations(first: seq<Limitation>, second: seq<Limitation>): (r: seq<Limitation>)
    ensures first <= r && forall l :: l in r <==> l in first || l in second
  {
    if second == [] then first else
    var n := |second| - 1;
    var r := MergeLimitations(first, second[..n]);
    assert forall l :: l in second <==> l in second[..n] || l == second[n];
    if second[n] in r then r else r + [second[n]]
  }

  // ---- Grounding ------------------------------------------------------------

  /** The evidence exists and belongs to the source that is cited. */
  predicate Resolves(evidence: seq<Evidence>, c: Citation)
  {
    var e := Lookup(evidence, c.evidence); e.Some? && e.value.source == c.source
  }

  predicate ClaimResolves(evidence: seq<Evidence>, claim: Claim)
  {
    forall k :: 0 <= k < |claim.citations| ==> Resolves(evidence, claim.citations[k])
  }

  predicate DistinctClaims(claims: seq<Claim>)
  {
    forall i, j :: 0 <= i < j < |claims| ==> claims[i].id != claims[j].id
  }

  /** The shape a report must have for what the validation found. */
  predicate ShapeFits(w: WriterOutput, i: WriterInput)
  {
    && (!i.includeDraft ==> w.draft.None?)
    && if i.sufficient then
         && !Insufficient(w.limitations) && (w.summary != [] || w.findings != [])
         && (i.includeDraft ==> w.draft.Some? && w.draft.value != [])
       else w.limitations == [] && w.summary == [] && w.findings == [] && w.draft.None?
  }

  predicate Grounded(w: WriterOutput, i: WriterInput)
  {
    var claims, evidence := AllClaims(w), i.evidence + i.documentEvidence;
    && ShapeFits(w, i) && DistinctClaims(claims)
    && (forall k :: 0 <= k < |claims| ==> ClaimResolves(evidence, claims[k]))
    && |MergeLimitations(i.limitations, w.limitations)| <= LIMITATION_LIMIT
  }

  /** `_validate_writer_grounding`: accepts exactly the grounded reports. */
  method ValidateGrounding(w: WriterOutput, i: WriterInput) returns (accepted: bool)
    ensures accepted <==> Grounded(w, i)
  {
    if !i.includeDraft && w.draft.Some? { return false; }
    if i.sufficient {
      for k := 0 to |w.limitations|
        invariant forall j :: 0 <= j < k ==> !w.limitations[j].InsufficientEvidence?
      {
        if w.limitations[k].InsufficientEvidence? { return false; }
      }
      if w.summary == [] && w.findings == [] { return false; }
      if i.includeDraft && (w.draft.None? || w.draft.value == []) { return false; }
    } else if w.limitations != [] || w.summary != [] || w.findings != [] || w.draft.Some? {
      return false;
    }
    var cited := ValidateClaims(AllClaims(w), i.evidence + i.documentEvidence);
    if !cited { return false; }
    var merged := i.limitations;
    for k := 0 to |w.limitations|
      invariant merged == MergeLimitations(i.limitations, w.limitations[..k])
    {
      assert w.limitations[..k + 1][..k] == w.limitations[..k];
      if w.limitations[k] !in merged { merged := merged + [w.limitations[k]]; }
    }
    assert w.limitations[..|w.limitations|] == w.limitations;
    return |merged| <= LIMITATION_LIMIT;
  }

  /** The loops over the claims and their citations. */
  method ValidateClaims(claims: seq<Claim>, evidence: seq<Evidence>) returns (ok: bool)
    ensures ok <==> DistinctClaims(claims) && forall k :: 0 <= k < |claims| ==> ClaimResolves(evidence, claims[k])
  {
    var byId: map<EvidenceId, SourceId> := map[];
    for i := 0 to |evidence|
      invariant forall id :: id in byId <==> Has(evidence[..i], id)
      invariant forall id :: id in byId ==> byId[id] == Lookup(evidence[..i], id).value.source
    {
      assert evidence[..i + 1][..i] == evidence[..i];
      byId := byId[evidence[i].id := evidence[i].body.source];
    }
    assert evidence[..|evidence|] == evidence;
    var seen: set<nat> := {};
    for k := 0 to |claims|
      invariant forall id :: id in seen <==> exists j :: 0 <= j < k && claims[j].id == id
      invariant forall i, j :: 0 <= i < j < k ==> claims[i].id != claims[j].id
      invariant forall j :: 0 <= j < k ==> ClaimResolves(evidence, claims[j])
    {
      if claims[k].id in seen { return false; }
      seen := seen + {claims[k].id};
      for m := 0 to |claims[k].citations|
        invariant forall j :: 0 <= j < m ==> Resolves(evidence, claims[k].citations[j])
      {
        var c := claims[k].citations[m];
        if c.evidence !in byId || byId[c.evidence] != c.source {
          assert !ClaimResolves(evidence, claims[k]);
          return false;
        }
      }
    }
    return true;
  }

  // ---- finalize -------------------------------------------------------------

  datatype SourceType = Web | WorkspaceDocument

  function TypeOfSource(s: SourceId): SourceType { if s.WebSource? then Web else WorkspaceDocument }

  function TypeOfEvidence(e: EvidenceId): SourceType { if e.Snippet? then Web else WorkspaceDocument }

  datatype ReportCitation = ReportCitation(kind: SourceType, source: SourceId, evidence: EvidenceId)

  datatype ReportClaim = ReportClaim(id: nat, citations: seq<ReportCitation>)

  datatype ReportOutput = ReportOutput(
    sufficient: bool,
    summary: seq<ReportClaim>,
    findings: seq<ReportClaim>,
    draft: Option<seq<ReportClaim>>,
    evidence: seq<Evidence>,
    sources: seq<Source>,
    limitations: seq<Limitation>)

  /** The conversion looks the evidence of every citation up; a missing one is a `KeyError`. */
  function ConvertCitations(evidence: seq<Evidence>, cs: seq<Citation>): (r: Option<seq<ReportCitation>>)
    ensures r.Some? <==> forall k :: 0 <= k < |cs| ==> Has(evidence, cs[k].evidence)
    ensures r.Some? ==> |r.value| == |cs| && forall k :: 0 <= k < |cs| ==>
              r.value[k] == ReportCitation(TypeOfEvidence(cs[k].evidence), cs[k].source, cs[k].evidence)
  {
    if cs == [] then Some([]) else
    var n := |cs| - 1;
    var r := ConvertCitations(evidence, cs[..n]);
    if r.None? || !Has(evidence, cs[n].evidence) then
      assert forall k :: 0 <= k < n ==> cs[..n][k] == cs[k];
      None
    else Some(r.value + [ReportCitation(TypeOfEvidence(cs[n].evidence), cs[n].source, cs[n].evidence)])
  }

  function ConvertClaims(evidence: seq<Evidence>, claims: seq<Claim>): (r: Option<seq<ReportClaim>>)
    ensures (forall k :: 0 <= k < |claims| ==> ConvertCitations(evidence, claims[k].citations).Some?) ==> r.Some?
    ensures r.Some? ==> |r.value| == |claims| && forall k :: 0 <= k < |claims| ==>
              ConvertCitations(evidence, claims[k].citations) == Some(r.value[k].citations)
              && r.value[k].id == claims[k].id
  {
    if claims == [] then Some([]) else
    var n := |claims| - 1;
    var r, c := ConvertClaims(evidence, claims[..n]), ConvertCitations(evidence, claims[n].citations);
    if r.None? || c.None? then
      assert forall k :: 0 <= k < n ==> claims[..n][k] == claims[k];
      None
    else Some(r.value + [ReportClaim(claims[n].id, c.value)])
  }

  /** `finalize` for the current schema, before the output contract is checked. */
  function Assemble(f: Facts, sufficient: bool, limitations: seq<Limitation>, w: WriterOutput): Option<ReportOutput>
  {
    var evidence := f.evidence + f.documentEvidence;
    var summary, findings := ConvertClaims(evidence, w.summary), ConvertClaims(evidence, w.findings);
    var draft := if w.draft.Some? then ConvertClaims(evidence, w.draft.value) else Some([]);
    if summary.None? || findings.None? || draft.None? then None
    else Some(ReportOutput(sufficient, summary.value, findings.value,
                           if w.draft.Some? then draft else None,
                           evidence, f.sources + f.documentSources,
                           MergeLimitations(limitations, w.limitations)))
  }

  function ReportClaims(r: ReportOutput): seq<ReportClaim>
  {
    r.summary + r.findings + (if r.draft.Some? then r.draft.value else [])
  }

  /** `output_must_be_internally_consistent` on a citation. */
  predicate CitationValid(r: ReportOutput, c: ReportCitation)
  {
    var e := Lookup(r.evidence, c.evidence);
    && Has(r.sources, c.source) && e.Some?
    && TypeOfSource(c.source) == c.kind && TypeOfEvidence(c.evidence) == c.kind && e.value.source == c.source
  }

  predicate EvidenceValid(r: ReportOutput, e: Evidence)
  {
    Has(r.sources, e.body.source) && TypeOfSource(e.body.source) == TypeOfEvidence(e.id)
  }

  /** The clause of the output contract that depends on whether the evidence suffices. */
  predicate ShapeValid(r: ReportOutput)
  {
    if r.sufficient then
      r.sources != [] && r.evidence != [] && (r.summary != [] || r.findings != []) && !Insufficient(r.limitations)
    else r.summary == [] && r.findings == [] && r.draft.None? && Insufficient(r.limitations)
  }

  /** The contract of the final output. */
  predicate OutputValid(r: ReportOutput)
  {
    var claims := ReportClaims(r);
    && UniqueIds(r.sources) && UniqueIds(r.evidence)
    && |r.sources| <= SOURCE_LIMIT && |r.evidence| <= EVIDENCE_LIMIT && |r.limitations| <= LIMITATION_LIMIT
    && (forall k :: 0 <= k < |r.evidence| ==> EvidenceValid(r, r.evidence[k]))
    && (forall i, j :: 0 <= i < j < |claims| ==> claims[i].id != claims[j].id)
    && (forall k, m :: 0 <= k < |claims| && 0 <= m < |claims[k].citations| ==> CitationValid(r, claims[k].citations[m]))
    && ShapeValid(r)
  }

  // ---- A grounded report is always delivered --------------------------------

  /** Web and document identities never meet, so the two halves of a sound state join. */
  lemma HalvesJoin(f: Facts)
    requires FactsOk(f)
    ensures UniqueIds(f.sources + f.documentSources) && UniqueIds(f.evidence + f.documentEvidence)
  {
    var s, e := f.sources + f.documentSources, f.evidence + f.documentEvidence;
    forall i, j | 0 <= i < j < |s| ensures s[i].id != s[j].id {}
    forall i, j | 0 <= i < j < |e| ensures e[i].id != e[j].id {}
  }

  /** Every piece of evidence has its source, of its own type. */
  lemma EvidenceHasSource(f: Facts, k: nat)
    requires FactsOk(f) && k < |f.evidence + f.documentEvidence|
    ensures
      var e := (f.evidence + f.documentEvidence)[k];
      Has(f.sources + f.documentSources, e.body.source) && TypeOfSource(e.body.source) == TypeOfEvidence(e.id)
  {
    var e := (f.evidence + f.documentEvidence)[k];
    assert k < |f.evidence| ==> e == f.evidence[k];
    assert k >= |f.evidence| ==> e == f.documentEvidence[k - |f.evidence|];
    LookupJoin(f.sources, f.documentSources, e.body.source);
  }

  lemma CitationIsValid(f: Facts, r: ReportOutput, c: Citation)
    requires FactsOk(f) && r.evidence == f.evidence + f.documentEvidence && r.sources == f.sources + f.documentSources
    requires Resolves(r.evidence, c)
    ensures Has(r.evidence, c.evidence)
    ensures CitationValid(r, ReportCitation(TypeOfEvidence(c.evidence), c.source, c.evidence))
  {
    hide FactsOk;
    var body := Lookup(r.evidence, c.evidence).value;
    var k :| 0 <= k < |r.evidence| && r.evidence[k] == Item(c.evidence, body);
    EvidenceHasSource(f, k);
  }

  lemma ClaimsConvert(evidence: seq<Evidence>, claims: seq<Claim>)
    requires forall k :: 0 <= k < |claims| ==> ClaimResolves(evidence, claims[k])
    ensures ConvertClaims(evidence, claims).Some?
  {
    forall k | 0 <= k < |claims| ensures ConvertCitations(evidence, claims[k].citations).Some? {
      assert ClaimResolves(evidence, claims[k]);
      assert forall m :: 0 <= m < |claims[k].citations| ==> Resolves(evidence, claims[k].citations[m]);
    }
  }

  /** The writer's claims and the report's correspond one to one. */
  lemma ClaimsCorrespond(f: Facts, sufficient: bool, limitations: seq<Limitation>, w: WriterOutput)
    requires Assemble(f, sufficient, limitations, w).Some?
    ensures
      var r := Assemble(f, sufficient, limitations, w).value;
      var a, b := AllClaims(w), ReportClaims(r);
      |a| == |b| && forall k :: 0 <= k < |a| ==>
        a[k].id == b[k].id && ConvertCitations(r.evidence, a[k].citations) == Some(b[k].citations)
  {
    hide ConvertClaims, ConvertCitations;
  }

  lemma PartConverts(evidence: seq<Evidence>, claims: seq<Claim>, from: nat, part: seq<Claim>)
    requires forall k :: 0 <= k < |claims| ==> ClaimResolves(evidence, claims[k])
    requires from + |part| <= |claims| && part == claims[from..from + |part|]
    ensures ConvertClaims(evidence, part).Some?
  {
    hide ConvertClaims, ClaimResolves;
    forall k | 0 <= k < |part| ensures ClaimResolves(evidence, part[k]) { assert part[k] == claims[from + k]; }
    ClaimsConvert(evidence, part);
  }

  lemma AssembleSucceeds(f: Facts, i: WriterInput, w: WriterOutput)
    requires i.evidence == f.evidence && i.documentEvidence == f.documentEvidence && Grounded(w, i)
    ensures Assemble(f, i.sufficient, i.limitations, w).Some?
  {
    hide ConvertClaims, ClaimResolves, ShapeFits, DistinctClaims, MergeLimitations;
    var claims, evidence := AllClaims(w), f.evidence + f.documentEvidence;
    PartConverts(evidence, claims, 0, w.summary);
    PartConverts(evidence, claims, |w.summary|, w.findings);
    if w.draft.Some? { PartConverts(evidence, claims, |w.summary| + |w.findings|, w.draft.value); }
  }

  /** A claim of the report, its citations and so the report's evidence and sources. */
  lemma CitationsAreValid(f: Facts, i: WriterInput, w: WriterOutput, k: nat, m: nat)
    requires FactsOk(f) && i.evidence == f.evidence && i.documentEvidence == f.documentEvidence && Grounded(w, i)
    requires Assemble(f, i.sufficient, i.limitations, w).Some?
    requires
      var r := Assemble(f, i.sufficient, i.limitations, w).value;
      k < |ReportClaims(r)| && m < |ReportClaims(r)[k].citations|
    ensures
      var r := Assemble(f, i.sufficient, i.limitations, w).value;
      CitationValid(r, ReportClaims(r)[k].citations[m]) && r.evidence != [] && r.sources != []
  {
    hide FactsOk, ConvertClaims, CitationValid, Resolves;
    var r := Assemble(f, i.sufficient, i.limitations, w).value;
    ClaimsCorrespond(f, i.sufficient, i.limitations, w);
    var claim := AllClaims(w)[k];
    assert ClaimResolves(r.evidence, claim);
    assert Resolves(r.evidence, claim.citations[m]);
    CitationIsValid(f, r, claim.citations[m]);
    SomethingIsThere(r, ReportClaims(r)[k].citations[m]);
  }

  lemma SomethingIsThere(r: ReportOutput, c: ReportCitation)
    requires CitationValid(r, c)
    ensures r.evidence != [] && r.sources != []
  {
  }

  lemma InsufficientIsMember(ls: seq<Limitation>)
    ensures Insufficient(ls) <==> exists l :: l in ls && l.InsufficientEvidence?
  {
    if l :| l in ls && l.InsufficientEvidence? {
      var k :| 0 <= k < |ls| && ls[k] == l;
    }
  }

  lemma LimitationsAreValid(i: WriterInput, w: WriterOutput)
    requires ShapeFits(w, i) && (i.sufficient <==> !Insufficient(i.limitations))
    ensures Insufficient(MergeLimitations(i.limitations, w.limitations)) <==> !i.sufficient
  {
    InsufficientIsMember(i.limitations);
    InsufficientIsMember(w.limitations);
    InsufficientIsMember(MergeLimitations(i.limitations, w.limitations));
    hide Insufficient;
  }

  lemma ShapeIsValid(f: Facts, i: WriterInput, w: WriterOutput)
    requires FactsOk(f) && i.evidence == f.evidence && i.documentEvidence == f.documentEvidence
    requires i.sufficient <==> !Insufficient(i.limitations)
    requires forall k :: 0 <= k < |AllClaims(w)| ==> AllClaims(w)[k].citations != []
    requires Grounded(w, i) && Assemble(f, i.sufficient, i.limitations, w).Some?
    ensures ShapeValid(Assemble(f, i.sufficient, i.limitations, w).value)
  {
    hide FactsOk, ConvertCitations, ClaimResolves, Insufficient, CitationValid;
    var r := Assemble(f, i.sufficient, i.limitations, w).value;
    LimitationsAreValid(i, w);
    ClaimsCorrespond(f, i.sufficient, i.limitations, w);
    if i.sufficient {
      assert AllClaims(w)[0].citations != [];
      CitationsMatch(r.evidence, AllClaims(w)[0], ReportClaims(r)[0]);
      CitationsAreValid(f, i, w, 0, 0);
    }
  }

  lemma CitationsMatch(evidence: seq<Evidence>, a: Claim, b: ReportClaim)
    requires ConvertCitations(evidence, a.citations) == Some(b.citations)
    ensures |b.citations| == |a.citations|
  {
  }

  /** A report that grounding accepts on a sound state is assembled without a missing key and
      meets every rule of the output contract, the limits on all sources and evidence
      included. */
  lemma GroundedReportIsDelivered(f: Facts, i: WriterInput, w: WriterOutput)
    requires FactsOk(f) && i.evidence == f.evidence && i.documentEvidence == f.documentEvidence
    requires i.sufficient <==> !Insufficient(i.limitations)
    requires forall k :: 0 <= k < |AllClaims(w)| ==> AllClaims(w)[k].citations != []
    requires Grounded(w, i)
    ensures
      var r := Assemble(f, i.sufficient, i.limitations, w);
      r.Some? && OutputValid(r.value)
  {
    hide FactsOk, CitationValid, EvidenceValid, UniqueIds, MergeLimitations, ConvertClaims, ConvertCitations,
      ClaimResolves, ShapeFits, ShapeValid, Insufficient, Has, Lookup;
    AssembleSucceeds(f, i, w);
    var r := Assemble(f, i.sufficient, i.limitations, w).value;
    ClaimsCorrespond(f, i.sufficient, i.limitations, w);
    ShapeIsValid(f, i, w);
    HalvesJoin(f);
    CountsFollow(f);
    forall k | 0 <= k < |r.evidence| ensures EvidenceValid(r, r.evidence[k]) { EvidenceIsValid(f, r, k); }
    forall k, m | 0 <= k < |ReportClaims(r)| && 0 <= m < |ReportClaims(r)[k].citations|
      ensures CitationValid(r, ReportClaims(r)[k].citations[m])
    {
      CitationsAreValid(f, i, w, k, m);
    }
  }

  lemma EvidenceIsValid(f: Facts, r: ReportOutput, k: nat)
    requires FactsOk(f) && r.evidence == f.evidence + f.documentEvidence && r.sources == f.sources + f.documentSources
    requires k < |r.evidence|
    ensures EvidenceValid(r, r.evidence[k])
  {
    hide FactsOk;
    EvidenceHasSource(f, k);
  }

  datatype Mode = ResearchMode | ApplicationMode

  /** `_has_valid_application_draft`. */
  predicate ValidDraft(mode: Mode, f: Facts, i: WriterInput, resumeDocument: bool, w: WriterOutput)
  {
    && mode == ApplicationMode && i.includeDraft && resumeDocument && i.sufficient && w.draft.Some?
    && forall k :: 0 <= k < |w.draft.value| ==> ClaimResolves(f.evidence + f.documentEvidence, w.draft.value[k])
  }

  /** After grounding, the draft check decides nothing but the route: a grounded report has a
      valid draft exactly if the run is an application with a resume and enough evidence that
      asked for a draft. */
  lemma GroundedDraftIsValid(mode: Mode, f: Facts, i: WriterInput, resumeDocument: bool, w: WriterOutput)
    requires i.evidence == f.evidence && i.documentEvidence == f.documentEvidence && Grounded(w, i)
    ensures ValidDraft(mode, f, i, resumeDocument, w) <==>
              mode == ApplicationMode && i.includeDraft && resumeDocument && i.sufficient
  {
    hide ClaimResolves;
    if w.draft.Some? {
      var claims := AllClaims(w);
      assert forall k :: 0 <= k < |w.draft.value| ==> w.draft.value[k] == claims[|w.summary| + |w.findings| + k];
    }
  }
}
