/** What a delivered report says: which writer outputs are grounded, in terms of the evidence that was
    found, and that the report repeats every claim, citation and limitation of a grounded one. */
module ReportContents {
  import opened Options
  import opened Keyed
  import opened ResearchPasses
  import opened ResearchProofs
  import opened Report

  // ---- Which reports are grounded -------------------------------------------

  /** The citation names a piece of evidence that was found, and the source it was found in. */
  predicate Found(evidence: seq<Evidence>, c: Citation)
  {
    exists k :: 0 <= k < |evidence| && evidence[k].id == c.evidence && evidence[k].body.source == c.source
  }

  predicate AllFound(evidence: seq<Evidence>, claims: seq<Claim>)
  {
    forall k, m :: 0 <= k < |claims| && 0 <= m < |claims[k].citations| ==> Found(evidence, claims[k].citations[m])
  }

  lemma ResolvingIsFinding(evidence: seq<Evidence>, c: Citation)
    requires UniqueIds(evidence)
    ensures Resolves(evidence, c) <==> Found(evidence, c)
  {
    if k :| 0 <= k < |evidence| && evidence[k].id == c.evidence && evidence[k].body.source == c.source {
      LookupUnique(evidence, k);
    }
  }

  /** The limitations of the writer that the input does not have yet. */
  function Added(i: WriterInput, w: WriterOutput): set<Limitation>
  {
    set l | l in w.limitations && l !in i.limitations
  }

  lemma {:induction false} LimitationsAreCounted(first: seq<Limitation>, second: seq<Limitation>)
    ensures |MergeLimitations(first, second)| == |first| + |set l | l in second && l !in first|
  {
    if second != [] {
      var n := |second| - 1;
      LimitationsAreCounted(first, second[..n]);
      var before := set l | l in second[..n] && l !in first;
      assert forall l :: l in second <==> l in second[..n] || l == second[n];
      if second[n] in MergeLimitations(first, second[..n]) {
        assert (set l | l in second && l !in first) == before;
      } else {
        assert (set l | l in second && l !in first) == before + {second[n]};
      }
    }
  }

  /** The limitations keep their order: those of the input, then those that the writer adds, each at the
      place of its first mention. */
  lemma {:induction false} LimitationsStayInOrder(first: seq<Limitation>, second: seq<Limitation>, k: nat)
    requires |first| <= k < |MergeLimitations(first, second)|
    ensures
      var r := MergeLimitations(first, second);
      exists j :: 0 <= j < |second| && second[j] == r[k] && r[k] !in r[..k]
                  && forall x :: 0 <= x < j ==> second[x] in r[..k]
  {
    var r, n := MergeLimitations(first, second), |second| - 1;
    var before := MergeLimitations(first, second[..n]);
    if k < |before| {
      LimitationsStayInOrder(first, second[..n], k);
      assert r[..k] == before[..k];
      var j :| 0 <= j < n && second[..n][j] == before[k] && forall x :: 0 <= x < j ==> second[..n][x] in before[..k];
      assert forall x :: 0 <= x < j ==> second[x] == second[..n][x];
      assert second[j] == r[k];
    } else {
      assert r[..k] == before;
      assert forall x :: 0 <= x < n ==> second[x] == second[..n][x];
      assert forall x :: 0 <= x < n ==> second[..n][x] in before;
    }
  }

  /** On a sound state a report is grounded exactly if its claims have distinct identities and cite evidence
      that was found, with its source, and it says something if there is enough evidence, with a draft
      where one was asked for, and nothing if there is not; the limitations stay within their limit. */
  lemma GroundedMeans(f: Facts, i: WriterInput, w: WriterOutput)
    requires FactsOk(f) && i.evidence == f.evidence && i.documentEvidence == f.documentEvidence
    ensures
      Grounded(w, i) <==>
        && (forall j, k :: 0 <= j < k < |AllClaims(w)| ==> AllClaims(w)[j].id != AllClaims(w)[k].id)
        && AllFound(f.evidence + f.documentEvidence, AllClaims(w))
        && (w.draft.Some? ==> i.includeDraft && i.sufficient)
        && (i.sufficient ==>
              && |w.summary| + |w.findings| > 0
              && (i.includeDraft ==> w.draft.Some? && |w.draft.value| > 0)
              && forall l :: l in w.limitations ==> l.OtherLimitation?)
        && (!i.sufficient ==> |w.summary| + |w.findings| + |w.limitations| == 0)
        && |i.limitations| + |Added(i, w)| <= 8
  {
    var evidence := f.evidence + f.documentEvidence;
    HalvesJoin(f);
    hide FactsOk, UniqueIds, Found, Resolves;
    forall c ensures Resolves(evidence, c) <==> Found(evidence, c) { ResolvingIsFinding(evidence, c); }
    LimitationsAreCounted(i.limitations, w.limitations);
    InsufficientIsMember(w.limitations);
    hide Insufficient, MergeLimitations;
    ClaimsAreFound(evidence, AllClaims(w));
  }

  lemma ClaimsAreFound(evidence: seq<Evidence>, claims: seq<Claim>)
    requires forall c :: Resolves(evidence, c) <==> Found(evidence, c)
    ensures (forall k :: 0 <= k < |claims| ==> ClaimResolves(evidence, claims[k])) <==> AllFound(evidence, claims)
  {
    hide Resolves, Found;
    if AllFound(evidence, claims) {
      forall k | 0 <= k < |claims| ensures ClaimResolves(evidence, claims[k]) {
        forall m | 0 <= m < |claims[k].citations| ensures Resolves(evidence, claims[k].citations[m]) {
          assert Found(evidence, claims[k].citations[m]);
        }
      }
    }
    if forall k :: 0 <= k < |claims| ==> ClaimResolves(evidence, claims[k]) {
      forall k, m | 0 <= k < |claims| && 0 <= m < |claims[k].citations|
        ensures Found(evidence, claims[k].citations[m])
      {
        assert ClaimResolves(evidence, claims[k]);
        assert Resolves(evidence, claims[k].citations[m]);
      }
    }
  }

  // ---- What a delivered report repeats --------------------------------------

  /** The claim with the same identity and the same citations, each labelled with the kind of its source. */
  predicate Repeats(a: Claim, b: ReportClaim)
  {
    && b.id == a.id && |b.citations| == |a.citations|
    && forall m :: 0 <= m < |a.citations| ==>
         b.citations[m] == ReportCitation(if a.citations[m].source.WebSource? then Web else WorkspaceDocument,
                                          a.citations[m].source, a.citations[m].evidence)
  }

  predicate AllRepeated(a: seq<Claim>, b: seq<ReportClaim>)
  {
    |b| == |a| && forall k :: 0 <= k < |a| ==> Repeats(a[k], b[k])
  }

  lemma {:induction false} ClaimsAreRepeated(f: Facts, claims: seq<Claim>)
    requires FactsOk(f) && ConvertClaims(f.evidence + f.documentEvidence, claims).Some?
    requires forall k :: 0 <= k < |claims| ==> ClaimResolves(f.evidence + f.documentEvidence, claims[k])
    ensures AllRepeated(claims, ConvertClaims(f.evidence + f.documentEvidence, claims).value)
  {
    var evidence := f.evidence + f.documentEvidence;
    var r := ConvertClaims(evidence, claims).value;
    hide FactsOk, Resolves;
    forall k | 0 <= k < |claims| ensures Repeats(claims[k], r[k]) {
      assert ClaimResolves(evidence, claims[k]);
      forall m | 0 <= m < |claims[k].citations|
        ensures TypeOfEvidence(claims[k].citations[m].evidence) ==
                  if claims[k].citations[m].source.WebSource? then Web else WorkspaceDocument
      {
        assert Resolves(evidence, claims[k].citations[m]);
        KindOfSource(f, claims[k].citations[m]);
      }
    }
  }

  lemma KindOfSource(f: Facts, c: Citation)
    requires FactsOk(f) && Resolves(f.evidence + f.documentEvidence, c)
    ensures TypeOfEvidence(c.evidence) == if c.source.WebSource? then Web else WorkspaceDocument
  {
    var evidence := f.evidence + f.documentEvidence;
    var body := Lookup(evidence, c.evidence).value;
    var k :| 0 <= k < |evidence| && evidence[k] == Item(c.evidence, body);
    assert k < |f.evidence| ==> evidence[k] == f.evidence[k];
    assert k >= |f.evidence| ==> evidence[k] == f.documentEvidence[k - |f.evidence|];
  }

  /** The report of a grounded output repeats each of its parts claim by claim and citation by citation,
      lists all sources and evidence that were found, web before documents, and carries the limitations
      of the input followed by what the writer added. */
  lemma DeliveredReportRepeats(f: Facts, i: WriterInput, w: WriterOutput)
    requires FactsOk(f) && i.evidence == f.evidence && i.documentEvidence == f.documentEvidence && Grounded(w, i)
    ensures
      var r := Assemble(f, i.sufficient, i.limitations, w);
      && r.Some? && r.value.sufficient == i.sufficient
      && AllRepeated(w.summary, r.value.summary) && AllRepeated(w.findings, r.value.findings)
      && (r.value.draft.Some? <==> w.draft.Some?)
      && (w.draft.Some? ==> AllRepeated(w.draft.value, r.value.draft.value))
      && r.value.sources == f.sources + f.documentSources && r.value.evidence == f.evidence + f.documentEvidence
      && i.limitations <= r.value.limitations
      && (forall l :: l in r.value.limitations <==> l in i.limitations || l in w.limitations)
      && |r.value.limitations| == |i.limitations| + |Added(i, w)|
  {
    hide FactsOk, ClaimResolves, ShapeFits, DistinctClaims, AllRepeated, ConvertClaims, MergeLimitations;
    AssembleSucceeds(f, i, w);
    LimitationsAreCounted(i.limitations, w.limitations);
    var claims := AllClaims(w);
    PartIsRepeated(f, claims, 0, w.summary);
    PartIsRepeated(f, claims, |w.summary|, w.findings);
    if w.draft.Some? { PartIsRepeated(f, claims, |w.summary| + |w.findings|, w.draft.value); }
  }

  lemma PartIsRepeated(f: Facts, claims: seq<Claim>, from: nat, part: seq<Claim>)
    requires FactsOk(f) && from + |part| <= |claims| && part == claims[from..from + |part|]
    requires forall k :: 0 <= k < |claims| ==> ClaimResolves(f.evidence + f.documentEvidence, claims[k])
    ensures
      var r := ConvertClaims(f.evidence + f.documentEvidence, part);
      r.Some? && AllRepeated(part, r.value)
  {
    hide FactsOk, ClaimResolves, AllRepeated, ConvertClaims;
    PartConverts(f.evidence + f.documentEvidence, claims, from, part);
    forall k | 0 <= k < |part| ensures ClaimResolves(f.evidence + f.documentEvidence, part[k]) {
      assert part[k] == claims[from + k];
    }
    ClaimsAreRepeated(f, part);
  }

  // ---- The contract of the final output -------------------------------------

  /** The kind of a source and of a piece of evidence. */
  function KindOf(s: SourceId): SourceType
  {
    match s case WebSource(_) => Web case DocumentSource(_) => WorkspaceDocument
  }

  function KindOfEvidence(e: EvidenceId): SourceType
  {
    match e case Snippet(_, _) => Web case Chunk(_) => WorkspaceDocument
  }

  predicate Listed(r: ReportOutput, s: SourceId) { exists k :: 0 <= k < |r.sources| && r.sources[k].id == s }

  /** The citation is labelled as its source is, names a listed source, and evidence from that source. */
  predicate Cites(r: ReportOutput, c: ReportCitation)
  {
    && c.kind == KindOf(c.source) && c.kind == KindOfEvidence(c.evidence) && Listed(r, c.source)
    && exists k :: 0 <= k < |r.evidence| && r.evidence[k].id == c.evidence && r.evidence[k].body.source == c.source
  }

  predicate AllCited(r: ReportOutput, claims: seq<ReportClaim>)
  {
    forall k, m :: 0 <= k < |claims| && 0 <= m < |claims[k].citations| ==> Cites(r, claims[k].citations[m])
  }

  /** The output contract accepts exactly reports whose sources, evidence and claims have distinct identities
      within their limits, whose evidence names a listed source of its kind, whose citations hold, and
      that say something, on some evidence, exactly if the evidence sufficed. */
  lemma OutputMeans(r: ReportOutput)
    ensures
      var claims := r.summary + r.findings + (if r.draft.Some? then r.draft.value else []);
      OutputValid(r) <==>
        && (forall j, k :: 0 <= j < k < |r.sources| ==> r.sources[j].id != r.sources[k].id)
        && (forall j, k :: 0 <= j < k < |r.evidence| ==> r.evidence[j].id != r.evidence[k].id)
        && (forall j, k :: 0 <= j < k < |claims| ==> claims[j].id != claims[k].id)
        && |r.sources| <= 64 && |r.evidence| <= 128 && |r.limitations| <= 8
        && (forall k :: 0 <= k < |r.evidence| ==>
              && Listed(r, r.evidence[k].body.source)
              && KindOf(r.evidence[k].body.source) == KindOfEvidence(r.evidence[k].id))
        && AllCited(r, claims)
        && (r.sufficient ==>
              && r.sources != [] && r.evidence != [] && |r.summary| + |r.findings| > 0
              && forall l :: l in r.limitations ==> l.OtherLimitation?)
        && (!r.sufficient ==>
              && |r.summary| + |r.findings| == 0 && r.draft.None?
              && exists l :: l in r.limitations && l.InsufficientEvidence?)
  {
    InsufficientIsMember(r.limitations);
    if UniqueIds(r.evidence) { CitationsMean(r); }
    EvidenceMeans(r);
    hide Insufficient, CitationValid, EvidenceValid, Cites, AllCited, Listed, Has;
  }

  lemma CitationsMean(r: ReportOutput)
    requires UniqueIds(r.evidence)
    ensures
      var claims := ReportClaims(r);
      AllCited(r, claims) <==>
        forall k, m :: 0 <= k < |claims| && 0 <= m < |claims[k].citations| ==> CitationValid(r, claims[k].citations[m])
  {
    hide UniqueIds, CitationValid, Cites, ReportClaims;
    forall c ensures CitationValid(r, c) <==> Cites(r, c) { CitingMeans(r, c); }
  }

  lemma EvidenceMeans(r: ReportOutput)
    ensures
      (forall k :: 0 <= k < |r.evidence| ==> EvidenceValid(r, r.evidence[k])) <==>
        forall k :: 0 <= k < |r.evidence| ==>
          && Listed(r, r.evidence[k].body.source)
          && KindOf(r.evidence[k].body.source) == KindOfEvidence(r.evidence[k].id)
  {
    hide Has, Listed;
    forall s ensures Has(r.sources, s) <==> Listed(r, s) { ListedIsThere(r, s); }
  }

  lemma ListedIsThere(r: ReportOutput, s: SourceId)
    ensures Has(r.sources, s) <==> Listed(r, s)
  {
    if k :| 0 <= k < |r.sources| && r.sources[k].id == s { HasIsMember(r.sources, k); }
  }

  lemma CitingMeans(r: ReportOutput, c: ReportCitation)
    requires UniqueIds(r.evidence)
    ensures CitationValid(r, c) <==> Cites(r, c)
  {
    ListedIsThere(r, c.source);
    hide Listed;
    if k :| 0 <= k < |r.evidence| && r.evidence[k].id == c.evidence && r.evidence[k].body.source == c.source {
      LookupUnique(r.evidence, k);
    }
  }
}
