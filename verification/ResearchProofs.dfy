/** The producer and the reducers of the research state agree over every pass. */
module ResearchProofs {
  import opened Options
  import opened Keyed
  import opened ResearchPasses
  import AgentLoop
  import ToolSerializer

  // ---- Invariant of the state -----------------------------------------------

  predicate WebSourcesOk(sources: seq<Source>)
  {
    forall i :: 0 <= i < |sources| ==>
      sources[i].id.WebSource? && sources[i].body.WebPage? && sources[i].body.url == sources[i].id.url
  }

  predicate WebEvidenceOk(sources: seq<Source>, evidence: seq<Evidence>)
  {
    forall i :: 0 <= i < |evidence| ==>
      && evidence[i].id.Snippet? && evidence[i].id.source.WebSource?
      && evidence[i].body == EvidenceBody(evidence[i].id.source, 0)
      && Has(sources, evidence[i].id.source)
  }

  predicate DocumentsOk(sources: seq<Source>)
  {
    forall i :: 0 <= i < |sources| ==>
      && sources[i].id.DocumentSource? && sources[i].body.Document?
      && sources[i].body.document == sources[i].id.document
  }

  predicate ChunksOk(sources: seq<Source>, evidence: seq<Evidence>)
  {
    forall i :: 0 <= i < |evidence| ==>
      evidence[i].id.Chunk? && evidence[i].body.source.DocumentSource? && Has(sources, evidence[i].body.source)
  }

  /** Identities are unique, evidence resolves to its source, every call is numbered, and
      every item was brought by one of at most eight calls. */
  predicate FactsOk(f: Facts)
  {
    && UniqueIds(f.sources) && UniqueIds(f.evidence) && UniqueIds(f.documentSources) && UniqueIds(f.documentEvidence)
    && WebSourcesOk(f.sources) && WebEvidenceOk(f.sources, f.evidence)
    && DocumentsOk(f.documentSources) && ChunksOk(f.documentSources, f.documentEvidence)
    && Ordinals(f.searchCalls, 1) && Ordinals(f.documentCalls, 1)
    && |f.sources| <= WEB_RESULTS * |f.searchCalls| && |f.evidence| <= WEB_RESULTS * |f.searchCalls|
    && |f.documentSources| <= DOCUMENT_RESULTS * |f.documentCalls|
    && |f.documentEvidence| <= DOCUMENT_RESULTS * |f.documentCalls|
    && |f.documentSources| <= DOCUMENT_SOURCE_LIMIT
    && |f.searchCalls| + |f.documentCalls| <= CALL_LIMIT
  }

  /** What a pass has found beside a sound state. */
  predicate WebFound(old_: Facts, f: Facts, room: nat)
  {
    && UniqueIds(old_.sources + f.sources) && UniqueIds(old_.evidence + f.evidence)
    && WebSourcesOk(f.sources) && WebEvidenceOk(old_.sources + f.sources, f.evidence)
    && |f.sources| <= room && |f.evidence| <= room
  }

  predicate DocumentsFound(f: Facts, room: nat)
  {
    && UniqueIds(f.documentSources) && UniqueIds(f.documentEvidence)
    && DocumentsOk(f.documentSources) && ChunksOk(f.documentSources, f.documentEvidence)
    && |f.documentSources| <= room && |f.documentEvidence| <= room
  }

  predicate CallsFound(old_: Facts, f: Facts, pass: nat)
  {
    && Ordinals(f.searchCalls, |old_.searchCalls| + 1) && Ordinals(f.documentCalls, |old_.documentCalls| + 1)
    && (forall i :: 0 <= i < |f.searchCalls| ==> f.searchCalls[i].pass == pass)
  }

  predicate FoundOk(old_: Facts, f: Facts, pass: nat, n: nat)
  {
    && WebFound(old_, f, WEB_RESULTS * |f.searchCalls|) && DocumentsFound(f, DOCUMENT_RESULTS * |f.documentCalls|)
    && CallsFound(old_, f, pass) && |f.searchCalls| + |f.documentCalls| == n
  }

  // ---- Extraction -----------------------------------------------------------

  lemma ResolvesLonger(sources: seq<Source>, more: seq<Source>, evidence: seq<Evidence>)
    requires WebEvidenceOk(sources, evidence)
    ensures WebEvidenceOk(sources + more, evidence)
  {
    forall i | 0 <= i < |evidence| ensures Has(sources + more, evidence[i].id.source) {
      LookupJoin(sources, more, evidence[i].id.source);
    }
  }

  lemma AppendNew<K, B>(old_: seq<Item<K, B>>, found: seq<Item<K, B>>, a: Item<K, B>)
    requires UniqueIds(old_ + found) && !Has(old_ + found, a.id)
    ensures UniqueIds(old_ + (found + [a])) && Has(old_ + (found + [a]), a.id)
  {
    LookupLast(old_ + found, a);
    assert old_ + (found + [a]) == old_ + found + [a];
  }

  /** The sources after one search result. */
  function SourcesWith(all: seq<Source>, found: seq<Source>, r: WebResult): seq<Source>
  {
    if Lookup(all, WebSource(r.url)).None? then found + [SourceOf(r)] else found
  }

  lemma SourceFits(old_: seq<Source>, found: seq<Source>, evidence: seq<Evidence>, r: WebResult)
    requires UniqueIds(old_ + found) && WebSourcesOk(old_) && WebSourcesOk(found)
    requires WebEvidenceOk(old_ + found, evidence)
    ensures
      var known := Lookup(old_ + found, WebSource(r.url));
      known.Some? ==> known.value.WebPage? && known.value.url == r.url
    ensures
      var grown := SourcesWith(old_ + found, found, r);
      && UniqueIds(old_ + grown) && WebSourcesOk(grown) && WebEvidenceOk(old_ + grown, evidence)
      && Has(old_ + grown, WebSource(r.url))
  {
    hide UniqueIds;
    var s, all := SourceOf(r), old_ + found;
    assert WebSourcesOk(all);
    if Lookup(all, s.id).None? {
      AppendNew(old_, found, s);
      ResolvesLonger(all, [s], evidence);
      assert all + [s] == old_ + (found + [s]);
    }
  }

  lemma EvidenceFits(sources: seq<Source>, old_: seq<Evidence>, found: seq<Evidence>, r: WebResult)
    requires UniqueIds(old_ + found) && WebEvidenceOk(sources, old_) && WebEvidenceOk(sources, found)
    requires r.snippet.Some? && Has(sources, WebSource(r.url))
    ensures
      var e := EvidenceOf(r);
      var known := Lookup(old_ + found, e.id);
      if known.Some? then known.value == e.body
      else UniqueIds(old_ + (found + [e])) && WebEvidenceOk(sources, found + [e])
  {
    hide UniqueIds;
    var e := EvidenceOf(r);
    assert WebEvidenceOk(sources, old_ + found);
    if Lookup(old_ + found, e.id).None? { AppendNew(old_, found, e); }
  }

  /** A search result never contradicts what is known: its identity determines what is compared. */
  lemma WebResultFits(old_: Facts, f: Facts, r: WebResult, room: nat)
    requires FactsOk(old_) && WebFound(old_, f, room)
    ensures
      var p := AddWebResult(old_, f, r);
      p.Parsed? && WebFound(old_, p.facts, room + 1)
      && p.facts == f.(sources := p.facts.sources, evidence := p.facts.evidence)
  {
    var grown := SourcesWith(old_.sources + f.sources, f.sources, r);
    SourceFits(old_.sources, f.sources, f.evidence, r);
    OldEvidenceOk(old_, grown);
    if r.snippet.Some? { EvidenceFits(old_.sources + grown, old_.evidence, f.evidence, r); }
    hide UniqueIds, WebSourcesOk, WebEvidenceOk, Lookup, FactsOk, EvidenceOf;
  }

  lemma OldEvidenceOk(old_: Facts, found: seq<Source>)
    requires FactsOk(old_)
    ensures WebEvidenceOk(old_.sources + found, old_.evidence) && WebSourcesOk(old_.sources)
  {
    ResolvesLonger(old_.sources, found, old_.evidence);
  }

  lemma {:induction false} WebResultsFit(old_: Facts, f: Facts, rs: seq<WebResult>, room: nat)
    requires FactsOk(old_) && WebFound(old_, f, room)
    ensures
      var p := AddWebResults(old_, f, rs);
      p.Parsed? && WebFound(old_, p.facts, room + |rs|)
      && p.facts == f.(sources := p.facts.sources, evidence := p.facts.evidence)
  {
    hide FactsOk, WebFound, AddWebResult;
    if rs != [] {
      var n := |rs| - 1;
      WebResultsFit(old_, f, rs[..n], room);
      WebResultFits(old_, AddWebResults(old_, f, rs[..n]).facts, rs[n], room + n);
    }
  }

  lemma DocumentFits(f: Facts, d: DocumentResult, room: nat)
    requires DocumentsFound(f, room)
    ensures
      var g := AddDocument(f, d);
      DocumentsFound(g, room + 1)
      && g == f.(documentSources := g.documentSources, documentEvidence := g.documentEvidence)
  {
    var s, e := DocumentOf(d), ChunkOf(d);
    LookupLast(f.documentSources, s);
    LookupLast(f.documentEvidence, e);
  }

  lemma {:induction false} DocumentsFit(f: Facts, ds: seq<DocumentResult>, room: nat)
    requires DocumentsFound(f, room)
    ensures
      var g := AddDocuments(f, ds);
      DocumentsFound(g, room + |ds|)
      && g == f.(documentSources := g.documentSources, documentEvidence := g.documentEvidence)
  {
    hide DocumentsFound, AddDocument;
    if ds != [] {
      var n := |ds| - 1;
      DocumentsFit(f, ds[..n], room);
      DocumentFits(AddDocuments(f, ds[..n]), ds[n], room + n);
    }
  }

  lemma MoreRoom(old_: Facts, f: Facts, room: nat, more: nat)
    requires room <= more
    ensures WebFound(old_, f, room) ==> WebFound(old_, f, more)
    ensures DocumentsFound(f, room) ==> DocumentsFound(f, more)
  {
  }

  lemma CallsGrow(old_: Facts, f: Facts, pass: nat)
    requires CallsFound(old_, f, pass)
    ensures CallsFound(old_, f.(searchCalls :=
              f.searchCalls + [CallTrace(pass, |old_.searchCalls| + |f.searchCalls| + 1)]), pass)
    ensures CallsFound(old_, f.(documentCalls :=
              f.documentCalls + [CallTrace(pass, |old_.documentCalls| + |f.documentCalls| + 1)]), pass)
  {
  }

  lemma CallsRead(old_: Facts, f: Facts, g: Facts, pass: nat)
    requires CallsFound(old_, f, pass) && g.searchCalls == f.searchCalls && g.documentCalls == f.documentCalls
    ensures CallsFound(old_, g, pass)
  {
  }

  lemma SearchFits(old_: Facts, f: Facts, rs: seq<WebResult>, pass: nat, n: nat)
    requires FactsOk(old_) && FoundOk(old_, f, pass, n) && |rs| <= WEB_RESULTS
    ensures var p := AddExchange(old_, f, Searched(rs), pass); p.Parsed? && FoundOk(old_, p.facts, pass, n + 1)
  {
    hide FactsOk, WebFound, DocumentsFound, CallsFound, AddWebResults;
    var room := WEB_RESULTS * |f.searchCalls|;
    WebResultsFit(old_, f, rs, room);
    var g, t := AddWebResults(old_, f, rs).facts, AddExchange(old_, f, Searched(rs), pass).facts;
    CallsRead(old_, f, g, pass);
    CallsGrow(old_, g, pass);
    MoreRoom(old_, g, room + |rs|, room + WEB_RESULTS);
    WebReads(old_, g, t, room + WEB_RESULTS);
    DocumentReads(f, t, DOCUMENT_RESULTS * |f.documentCalls|);
  }

  lemma RetrievalFits(old_: Facts, f: Facts, ds: seq<DocumentResult>, pass: nat, n: nat)
    requires FactsOk(old_) && FoundOk(old_, f, pass, n) && |ds| <= DOCUMENT_RESULTS
    ensures var p := AddExchange(old_, f, Retrieved(ds), pass); p.Parsed? && FoundOk(old_, p.facts, pass, n + 1)
  {
    hide FactsOk, WebFound, DocumentsFound, CallsFound, AddDocuments;
    var room := DOCUMENT_RESULTS * |f.documentCalls|;
    DocumentsFit(f, ds, room);
    var g, t := AddDocuments(f, ds), AddExchange(old_, f, Retrieved(ds), pass).facts;
    CallsRead(old_, f, g, pass);
    CallsGrow(old_, g, pass);
    MoreRoom(old_, g, room + |ds|, room + DOCUMENT_RESULTS);
    DocumentReads(g, t, room + DOCUMENT_RESULTS);
    WebReads(old_, f, t, WEB_RESULTS * |f.searchCalls|);
  }

  lemma ExchangeFits(old_: Facts, f: Facts, x: ToolOutput, pass: nat, n: nat)
    requires FactsOk(old_) && FoundOk(old_, f, pass, n) && WithinContract(x)
    ensures var p := AddExchange(old_, f, x, pass); p.Parsed? && FoundOk(old_, p.facts, pass, n + 1)
  {
    hide FactsOk, FoundOk, AddExchange;
    match x
    case Searched(rs) => SearchFits(old_, f, rs, pass, n);
    case Retrieved(ds) => RetrievalFits(old_, f, ds, pass, n);
  }

  lemma WebReads(old_: Facts, f: Facts, g: Facts, room: nat)
    requires WebFound(old_, f, room) && g.sources == f.sources && g.evidence == f.evidence
    ensures WebFound(old_, g, room)
  {
  }

  lemma DocumentReads(f: Facts, g: Facts, room: nat)
    requires DocumentsFound(f, room)
    requires g.documentSources == f.documentSources && g.documentEvidence == f.documentEvidence
    ensures DocumentsFound(g, room)
  {
  }

  predicate Readable(xs: seq<ToolOutput>) { forall i :: 0 <= i < |xs| ==> WithinContract(xs[i]) }

  lemma ReadableLast(xs: seq<ToolOutput>)
    requires xs != []
    ensures Readable(xs) <==> Readable(xs[..|xs| - 1]) && WithinContract(xs[|xs| - 1])
  {
  }

  /** From a sound state every readable trace parses, and what it finds is sound beside it. */
  lemma {:induction false} ExchangesFit(old_: Facts, xs: seq<ToolOutput>, pass: nat)
    requires FactsOk(old_)
    ensures
      var p := AddExchanges(old_, xs, pass);
      if Readable(xs) then p.Parsed? && FoundOk(old_, p.facts, pass, |xs|) else p == Refused(InvalidTrace)
  {
    if xs == [] {
      assert old_.sources + [] == old_.sources && old_.evidence + [] == old_.evidence;
    } else {
      hide FactsOk, FoundOk, AddExchange, Readable, WithinContract;
      var n := |xs| - 1;
      ExchangesFit(old_, xs[..n], pass);
      ReadableLast(xs);
      if Readable(xs) { ExchangeFits(old_, AddExchanges(old_, xs[..n], pass).facts, xs[n], pass, n); }
    }
  }

  // ---- Merging --------------------------------------------------------------

  lemma DisjointMerges<K, B>(existing: seq<Item<K, B>>, additions: seq<Item<K, B>>, limit: nat)
    requires UniqueIds(existing + additions)
    ensures Merge(existing, additions, limit) ==
              if |existing + additions| > limit then Overflow else Ok(existing + additions)
  {
    PartsAreUnique(existing, additions);
    MergeMeans(existing, additions);
    AllAreNew(existing, additions);
  }

  lemma PartsAreUnique<K, B>(a: seq<Item<K, B>>, b: seq<Item<K, B>>)
    requires UniqueIds(a + b)
    ensures UniqueIds(a) && UniqueIds(b) && forall i :: 0 <= i < |b| ==> !Has(a, b[i].id)
  {
    var ab := a + b;
    forall i, j | 0 <= i < j < |a| ensures a[i].id != a[j].id { assert ab[i].id != ab[j].id; }
    forall i, j | 0 <= i < j < |b| ensures b[i].id != b[j].id { assert ab[|a| + i].id != ab[|a| + j].id; }
    forall i | 0 <= i < |b| ensures !Has(a, b[i].id) {
      forall j | 0 <= j < |a| ensures a[j].id != b[i].id { assert ab[j].id != ab[|a| + i].id; }
    }
  }

  lemma {:induction false} AllAreNew<K, B>(existing: seq<Item<K, B>>, additions: seq<Item<K, B>>)
    requires forall i :: 0 <= i < |additions| ==> !Has(existing, additions[i].id)
    ensures New(existing, additions) == additions
  {
    if additions != [] { AllAreNew(existing, additions[..|additions| - 1]); }
  }

  // ---- A pass ---------------------------------------------------------------

  predicate Fits(old_: Facts, xs: seq<ToolOutput>, reported: nat)
  {
    |xs| == reported && |old_.searchCalls| + |old_.documentCalls| + |xs| <= CALL_LIMIT && Readable(xs)
  }

  /** What a readable pass finds. */
  function FoundBy(old_: Facts, xs: seq<ToolOutput>, pass: nat): Facts
    requires FactsOk(old_) && Readable(xs)
  {
    ExchangesFit(old_, xs, pass);
    AddExchanges(old_, xs, pass).facts
  }

  /** The state after a pass without contradictions. */
  function Joined(old_: Facts, f: Facts): Facts
  {
    Facts(old_.sources + f.sources, old_.evidence + f.evidence, old_.searchCalls + f.searchCalls,
          old_.documentSources + New(old_.documentSources, f.documentSources),
          old_.documentEvidence + New(old_.documentEvidence, f.documentEvidence),
          old_.documentCalls + f.documentCalls)
  }

  lemma WebMerges(old_: Facts, f: Facts, pass: nat, n: nat)
    requires FactsOk(old_) && FoundOk(old_, f, pass, n) && |old_.searchCalls| + |old_.documentCalls| + n <= CALL_LIMIT
    ensures Merge(old_.sources, f.sources, SOURCE_LIMIT) == Ok(old_.sources + f.sources)
    ensures Merge(old_.evidence, f.evidence, EVIDENCE_LIMIT) == Ok(old_.evidence + f.evidence)
    ensures EvidenceResolves(old_.sources + f.sources, old_.evidence + f.evidence)
    ensures |f.sources| <= SOURCE_LIMIT && |f.evidence| <= EVIDENCE_LIMIT
  {
    DisjointMerges(old_.sources, f.sources, SOURCE_LIMIT);
    DisjointMerges(old_.evidence, f.evidence, EVIDENCE_LIMIT);
    ResolvesLonger(old_.sources, f.sources, old_.evidence);
    hide Merge, UniqueIds, Lookup;
  }

  lemma TracesMerge(old_: Facts, f: Facts, pass: nat, n: nat)
    requires FactsOk(old_) && FoundOk(old_, f, pass, n) && |old_.searchCalls| + |old_.documentCalls| + n <= CALL_LIMIT
    ensures TracesFit(old_, f, pass)
    ensures Ordinals(old_.searchCalls + f.searchCalls, 1) && Ordinals(old_.documentCalls + f.documentCalls, 1)
    ensures |f.documentEvidence| <= EVIDENCE_LIMIT
  {
    hide WebFound, UniqueIds, WebSourcesOk, WebEvidenceOk, DocumentsOk, ChunksOk;
  }

  lemma DocumentsMerge(old_: Facts, f: Facts, pass: nat, n: nat)
    requires FactsOk(old_) && FoundOk(old_, f, pass, n) && |old_.searchCalls| + |old_.documentCalls| + n <= CALL_LIMIT
    ensures
      var t := Joined(old_, f);
      && Merge(old_.documentSources, f.documentSources, SOURCE_LIMIT) ==
           (if !Agree(old_.documentSources, f.documentSources) then Conflict else Ok(t.documentSources))
      && Merge(old_.documentEvidence, f.documentEvidence, EVIDENCE_LIMIT) ==
           (if !Agree(old_.documentEvidence, f.documentEvidence) then Conflict else Ok(t.documentEvidence))
      && UniqueIds(t.documentSources) && UniqueIds(t.documentEvidence)
      && |t.documentSources| <= DOCUMENT_RESULTS * |t.documentCalls|
      && |t.documentEvidence| <= DOCUMENT_RESULTS * |t.documentCalls|
  {
    MergeMeans(old_.documentSources, f.documentSources);
    MergeMeans(old_.documentEvidence, f.documentEvidence);
    NewIsUnique(old_.documentSources, f.documentSources);
    NewIsUnique(old_.documentEvidence, f.documentEvidence);
    hide MergeInto, Agree, UniqueIds, Lookup, WebFound, WebSourcesOk, WebEvidenceOk, DocumentsOk, ChunksOk;
  }

  lemma DocumentsStaySound(old_: Facts, f: Facts, pass: nat, n: nat)
    requires FactsOk(old_) && FoundOk(old_, f, pass, n)
    ensures
      var t := Joined(old_, f);
      DocumentsOk(t.documentSources) && ChunksOk(t.documentSources, t.documentEvidence)
  {
    var t := Joined(old_, f);
    NewIsUnique(old_.documentSources, f.documentSources);
    forall i | 0 <= i < |t.documentSources|
      ensures
        var s := t.documentSources[i];
        s.id.DocumentSource? && s.body.Document? && s.body.document == s.id.document
    {
      assert t.documentSources[i] in old_.documentSources || t.documentSources[i] in f.documentSources;
    }
    forall i | 0 <= i < |t.documentEvidence|
      ensures
        var e := t.documentEvidence[i];
        e.id.Chunk? && e.body.source.DocumentSource? && Has(t.documentSources, e.body.source)
    {
      assert t.documentEvidence[i] in old_.documentEvidence || t.documentEvidence[i] in f.documentEvidence;
    }
  }

  /** The outcome of a pass on a sound state, by what its extraction found: the web side never
      conflicts, never lacks a source and never overflows, and the document side decides. */
  lemma PassOutcome(old_: Facts, xs: seq<ToolOutput>, reported: nat, pass: nat)
    requires FactsOk(old_)
    ensures
      var r := ResearchAgent(old_, xs, reported, pass);
      if !Fits(old_, xs, reported) then r == Refused(InvalidTrace)
      else
        var f := FoundBy(old_, xs, pass);
        if |f.documentSources| > DOCUMENT_SOURCE_LIMIT then r == Refused(ContractOverflow)
        else if !Agree(old_.documentSources, f.documentSources) then r == Refused(SourceConflict)
        else if !Agree(old_.documentEvidence, f.documentEvidence) then r == Refused(EvidenceConflict)
        else if |Joined(old_, f).documentSources| > DOCUMENT_SOURCE_LIMIT then r == Refused(StateOverflow)
        else r == Parsed(Joined(old_, f)) && FactsOk(Joined(old_, f))
  {
    ExchangesFit(old_, xs, pass);
    if Fits(old_, xs, reported) {
      var f := FoundBy(old_, xs, pass);
      WebMerges(old_, f, pass, |xs|);
      TracesMerge(old_, f, pass, |xs|);
      DocumentsMerge(old_, f, pass, |xs|);
      OutputFits(old_, f, pass, |xs|);
      hide Merge, FoundOk, TracesFit, EvidenceResolves, Agree, AddExchanges, UniqueIds, Joined;
      if |Joined(old_, f).documentSources| <= DOCUMENT_SOURCE_LIMIT { JoinedIsSound(old_, f, pass, |xs|); }
      JoinedParts(old_, f);
    }
  }

  lemma JoinedParts(old_: Facts, f: Facts)
    ensures
      var t := Joined(old_, f);
      t == Facts(old_.sources + f.sources, old_.evidence + f.evidence, old_.searchCalls + f.searchCalls,
                 t.documentSources, t.documentEvidence, old_.documentCalls + f.documentCalls)
  {
  }

  lemma OutputFits(old_: Facts, f: Facts, pass: nat, n: nat)
    requires FactsOk(old_) && FoundOk(old_, f, pass, n) && |old_.searchCalls| + |old_.documentCalls| + n <= CALL_LIMIT
    ensures FitsOutput(f) <==> |f.documentSources| <= DOCUMENT_SOURCE_LIMIT
    ensures UniqueIds(old_.sources) && UniqueIds(old_.evidence)
  {
    WebMerges(old_, f, pass, n);
    TracesMerge(old_, f, pass, n);
    hide UniqueIds, Merge, WebFound, DocumentsFound, WebSourcesOk, WebEvidenceOk, DocumentsOk, ChunksOk;
  }

  lemma JoinedIsSound(old_: Facts, f: Facts, pass: nat, n: nat)
    requires FactsOk(old_) && FoundOk(old_, f, pass, n) && |old_.searchCalls| + |old_.documentCalls| + n <= CALL_LIMIT
    requires |Joined(old_, f).documentSources| <= DOCUMENT_SOURCE_LIMIT
    ensures FactsOk(Joined(old_, f))
  {
    DocumentsMerge(old_, f, pass, n);
    DocumentsStaySound(old_, f, pass, n);
    TracesMerge(old_, f, pass, n);
    ResolvesLonger(old_.sources, f.sources, old_.evidence);
    hide UniqueIds, Merge, Agree, Lookup, New, DocumentsOk, ChunksOk, Ordinals;
  }

  // ---- Both passes ----------------------------------------------------------

  /** Eight calls of at most eight results bound everything, and web sources and documents
      share the calls, so that the report's limits on all sources and evidence hold too. */
  lemma CountsFollow(f: Facts)
    requires FactsOk(f)
    ensures |f.sources| <= SOURCE_LIMIT && |f.evidence| <= EVIDENCE_LIMIT
    ensures |f.sources| + |f.documentSources| <= SOURCE_LIMIT
    ensures |f.evidence| + |f.documentEvidence| <= EVIDENCE_LIMIT
  {
    hide UniqueIds, WebSourcesOk, WebEvidenceOk, DocumentsOk, ChunksOk, Ordinals;
  }

  /** Whatever the two passes of a run bring, an accepted state is sound. */
  lemma TwoPasses(first: seq<ToolOutput>, second: seq<ToolOutput>)
    ensures
      var a := ResearchAgent(NOTHING, first, |first|, 1);
      a.Parsed? ==>
        && FactsOk(a.facts)
        && var b := ResearchAgent(a.facts, second, |second|, 2); b.Parsed? ==> FactsOk(b.facts)
  {
    hide FactsOk, ResearchAgent, Joined, Agree;
    assert FactsOk(NOTHING) by { NothingIsSound(); }
    PassOutcome(NOTHING, first, |first|, 1);
    var a := ResearchAgent(NOTHING, first, |first|, 1);
    if a.Parsed? { PassOutcome(a.facts, second, |second|, 2); }
  }

  lemma NothingIsSound()
    ensures FactsOk(NOTHING)
  {
  }

  /** `_research_pass_control`: a pass gets the tool calls that earlier passes left. */
  function PassBudget(l: AgentLoop.Limits, used: nat): AgentLoop.Limits
  {
    var calls := if used < l.maxToolCalls then l.maxToolCalls - used else 0;
    l.(maxToolCalls := calls, maxToolResults := if l.maxToolResults < calls then l.maxToolResults else calls)
  }

  /** A pass may use exactly the tool calls that earlier passes left, results as far as their own limit goes,
      and its model calls and iterations are not touched. */
  lemma PassGetsTheRest(l: AgentLoop.Limits, used: nat)
    ensures
      var p := PassBudget(l, used);
      && p.maxModelCalls == l.maxModelCalls && p.maxIterations == l.maxIterations
      && (used <= l.maxToolCalls ==> p.maxToolCalls + used == l.maxToolCalls)
      && (used >= l.maxToolCalls ==> p.maxToolCalls == 0)
      && p.maxToolResults <= p.maxToolCalls && p.maxToolResults <= l.maxToolResults
      && (p.maxToolResults == p.maxToolCalls || p.maxToolResults == l.maxToolResults)
  {
  }

  /** Two passes, each with its own loop and schedule, stay within one budget of tool calls. */
  lemma PassesShareTheBudget(l: AgentLoop.Limits, first: seq<ToolSerializer.Step>, second: seq<ToolSerializer.Step>)
    ensures
      var a := ToolSerializer.Run(ToolSerializer.START, PassBudget(l, 0), first).gate.c;
      var b := ToolSerializer.Run(ToolSerializer.START, PassBudget(l, a.toolCalls), second).gate.c;
      a.toolCalls + b.toolCalls <= l.maxToolCalls && b.toolResults <= b.toolCalls
  {
    hide ToolSerializer.Run;
    ToolSerializer.BudgetsHold(PassBudget(l, 0), first);
    var a := ToolSerializer.Run(ToolSerializer.START, PassBudget(l, 0), first).gate.c;
    ToolSerializer.BudgetsHold(PassBudget(l, a.toolCalls), second);
  }
}
