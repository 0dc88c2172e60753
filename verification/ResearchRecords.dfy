/** What a research pass leaves in the state, in terms of what the tools answered: every page, snippet,
    document and chunk that was mentioned, bound to its source, and nothing else. */
module ResearchRecords {
  import opened Options
  import opened Keyed
  import opened ResearchPasses
  import opened ResearchProofs
  import opened ResearchDocuments

  // ---- Mentions -------------------------------------------------------------

  /** All web results of a pass, in order. */
  function WebMentions(xs: seq<ToolOutput>): seq<WebResult>
  {
    if xs == [] then [] else
    var x := xs[|xs| - 1];
    WebMentions(xs[..|xs| - 1]) + (if x.Searched? then x.results else [])
  }

  /** How many of the calls were searches. */
  function Searches(xs: seq<ToolOutput>): (n: nat)
    ensures n <= |xs|
  {
    if xs == [] then 0 else Searches(xs[..|xs| - 1]) + (if xs[|xs| - 1].Searched? then 1 else 0)
  }

  predicate FirstOfPage(rs: seq<WebResult>, k: nat)
  {
    k < |rs| && forall j :: 0 <= j < k ==> rs[j].url != rs[k].url
  }

  function PageOf(r: WebResult): Source { Item(WebSource(r.url), WebPage(r.url, r.details)) }

  function SnippetId(r: WebResult): EvidenceId
    requires r.snippet.Some?
  {
    Snippet(WebSource(r.url), r.snippet.value)
  }

  function SnippetOf(r: WebResult): Evidence
    requires r.snippet.Some?
  {
    Item(SnippetId(r), EvidenceBody(WebSource(r.url), 0))
  }

  /** The first result of each page, in order. */
  function Pages(rs: seq<WebResult>): seq<Source>
  {
    if rs == [] then [] else
    var ps, p := Pages(rs[..|rs| - 1]), PageOf(rs[|rs| - 1]);
    if Has(ps, p.id) then ps else ps + [p]
  }

  /** Each snippet once, in order. */
  function Snippets(rs: seq<WebResult>): seq<Evidence>
  {
    if rs == [] then [] else
    var es, r := Snippets(rs[..|rs| - 1]), rs[|rs| - 1];
    if r.snippet.None? || Has(es, SnippetId(r)) then es else es + [SnippetOf(r)]
  }

  // ---- Keys of what is collected --------------------------------------------

  function PageIds(rs: seq<WebResult>): set<SourceId> { set k | 0 <= k < |rs| :: WebSource(rs[k].url) }

  function SnippetIds(rs: seq<WebResult>): set<EvidenceId>
  {
    set k | 0 <= k < |rs| && rs[k].snippet.Some? :: Snippet(WebSource(rs[k].url), rs[k].snippet.value)
  }

  lemma IdsOfLast(rs: seq<WebResult>)
    requires rs != []
    ensures
      var n := |rs| - 1;
      && PageIds(rs) == PageIds(rs[..n]) + {WebSource(rs[n].url)}
      && SnippetIds(rs) == SnippetIds(rs[..n]) + (if rs[n].snippet.Some? then {SnippetId(rs[n])} else {})
  {
    var n := |rs| - 1;
    assert forall k :: 0 <= k < n ==> rs[..n][k] == rs[k];
  }

  lemma {:induction false} PagesAreMentioned(rs: seq<WebResult>)
    ensures UniqueIds(Pages(rs)) && IdsOf(Pages(rs)) == PageIds(rs)
  {
    if rs != [] {
      hide UniqueIds, Lookup, IdsOf, PageIds, SnippetIds;
      var n := |rs| - 1;
      var ps, p := Pages(rs[..n]), PageOf(rs[n]);
      PagesAreMentioned(rs[..n]);
      IdsOfLast(rs);
      HasMeans(ps, p.id);
      IdsGrow(ps, p);
      LookupLast(ps, p);
    }
  }

  /** The page that is kept of each URL is the one of its first result. */
  lemma {:induction false} FirstPageIsKept(rs: seq<WebResult>, k: nat)
    requires FirstOfPage(rs, k)
    ensures PageOf(rs[k]) in Pages(rs)
  {
    hide Lookup, IdsOf;
    var n := |rs| - 1;
    assert forall j :: 0 <= j < n ==> rs[..n][j] == rs[j];
    if k < n {
      FirstPageIsKept(rs[..n], k);
    } else {
      PagesAreMentioned(rs[..n]);
      HasMeans(Pages(rs[..n]), PageOf(rs[n]).id);
    }
  }

  lemma {:induction false} SnippetsAreMentioned(rs: seq<WebResult>)
    ensures UniqueIds(Snippets(rs)) && IdsOf(Snippets(rs)) == SnippetIds(rs)
  {
    if rs != [] {
      hide UniqueIds, Lookup, IdsOf, PageIds, SnippetIds;
      var n := |rs| - 1;
      var es := Snippets(rs[..n]);
      SnippetsAreMentioned(rs[..n]);
      IdsOfLast(rs);
      if rs[n].snippet.Some? {
        HasMeans(es, SnippetId(rs[n]));
        IdsGrow(es, SnippetOf(rs[n]));
        LookupLast(es, SnippetOf(rs[n]));
      }
    }
  }

  // ---- What the extraction collects -----------------------------------------

  /** The extraction holds what is new in the results so far. */
  predicate Collected(old_: Facts, f: Facts, rs: seq<WebResult>)
  {
    f.sources == New(old_.sources, Pages(rs)) && f.evidence == New(old_.evidence, Snippets(rs))
  }

  lemma KnownOrCollected<K, B>(existing: seq<Item<K, B>>, additions: seq<Item<K, B>>, id: K)
    requires UniqueIds(existing) && UniqueIds(additions)
    ensures Has(existing + New(existing, additions), id) <==> Has(existing, id) || Has(additions, id)
  {
    NewIsUnique(existing, additions);
  }

  lemma NewLast<K, B>(existing: seq<Item<K, B>>, additions: seq<Item<K, B>>, a: Item<K, B>)
    ensures New(existing, additions + [a]) == New(existing, additions) + (if Has(existing, a.id) then [] else [a])
  {
    assert (additions + [a])[..|additions|] == additions;
  }

  lemma PagesLast(rs: seq<WebResult>, r: WebResult)
    ensures Pages(rs + [r]) == if Has(Pages(rs), PageOf(r).id) then Pages(rs) else Pages(rs) + [PageOf(r)]
    ensures
      Snippets(rs + [r]) ==
        if r.snippet.None? || Has(Snippets(rs), SnippetId(r)) then Snippets(rs) else Snippets(rs) + [SnippetOf(r)]
  {
    hide Has;
    assert (rs + [r])[..|rs|] == rs;
  }

  lemma ResultCollects(old_: Facts, f: Facts, before: seq<WebResult>, r: WebResult)
    requires UniqueIds(old_.sources) && UniqueIds(old_.evidence) && Collected(old_, f, before)
    ensures
      var p := AddWebResult(old_, f, r);
      p.Parsed? ==>
        && Collected(old_, p.facts, before + [r])
        && p.facts.searchCalls == f.searchCalls && p.facts.documentCalls == f.documentCalls
  {
    PagesAreMentioned(before);
    SnippetsAreMentioned(before);
    PagesLast(before, r);
    hide UniqueIds, IdsOf, Pages, Snippets, New, Lookup;
    KnownOrCollected(old_.sources, Pages(before), PageOf(r).id);
    NewLast(old_.sources, Pages(before), PageOf(r));
    if r.snippet.Some? {
      KnownOrCollected(old_.evidence, Snippets(before), SnippetId(r));
      NewLast(old_.evidence, Snippets(before), SnippetOf(r));
    }
  }

  lemma {:induction false} ResultsCollect(old_: Facts, f: Facts, before: seq<WebResult>, rs: seq<WebResult>)
    requires UniqueIds(old_.sources) && UniqueIds(old_.evidence) && Collected(old_, f, before)
    ensures
      var p := AddWebResults(old_, f, rs);
      p.Parsed? ==>
        && Collected(old_, p.facts, before + rs)
        && p.facts.searchCalls == f.searchCalls && p.facts.documentCalls == f.documentCalls
  {
    if rs == [] {
      assert before + rs == before;
    } else {
      hide AddWebResult, Collected, UniqueIds, Lookup;
      var n := |rs| - 1;
      var p := AddWebResults(old_, f, rs[..n]);
      ResultsCollect(old_, f, before, rs[..n]);
      MentionsLast(before, rs);
      if p.Parsed? { ResultCollects(old_, p.facts, before + rs[..n], rs[n]); }
    }
  }

  lemma MentionsLast(before: seq<WebResult>, rs: seq<WebResult>)
    requires rs != []
    ensures before + rs == before + rs[..|rs| - 1] + [rs[|rs| - 1]]
  {
  }

  lemma {:induction false} DocumentsLeaveWeb(f: Facts, ds: seq<DocumentResult>)
    ensures var g := AddDocuments(f, ds); g.sources == f.sources && g.evidence == f.evidence
    ensures
      var g := AddDocuments(f, ds); g.searchCalls == f.searchCalls && g.documentCalls == f.documentCalls
  {
    hide Has;
    if ds != [] { DocumentsLeaveWeb(f, ds[..|ds| - 1]); }
  }

  /** The calls that a pass adds: numbered on from those of earlier passes, under its own number. */
  function Traces(pass: nat, known: nat, n: nat): seq<CallTrace>
  {
    seq(n, j requires 0 <= j < n => CallTrace(pass, known + j + 1))
  }

  lemma {:induction false} PassCollectsWeb(old_: Facts, xs: seq<ToolOutput>, pass: nat)
    requires UniqueIds(old_.sources) && UniqueIds(old_.evidence)
    ensures
      var p := AddExchanges(old_, xs, pass);
      p.Parsed? ==>
        && Collected(old_, p.facts, WebMentions(xs))
        && p.facts.searchCalls == Traces(pass, |old_.searchCalls|, Searches(xs))
        && p.facts.documentCalls == Traces(pass, |old_.documentCalls|, |xs| - Searches(xs))
  {
    if xs != [] {
      hide AddExchange, Collected, WithinContract, UniqueIds, Traces, WebMentions, Searches;
      var n := |xs| - 1;
      PassCollectsWeb(old_, xs[..n], pass);
      var p := AddExchanges(old_, xs[..n], pass);
      if p.Parsed? && AddExchange(old_, p.facts, xs[n], pass).Parsed? {
        ExchangeRecords(old_, p.facts, xs, pass);
      }
    } else {
      assert Collected(old_, NOTHING, []);
    }
  }

  lemma ExchangeRecords(old_: Facts, f: Facts, xs: seq<ToolOutput>, pass: nat)
    requires UniqueIds(old_.sources) && UniqueIds(old_.evidence) && xs != []
    requires
      var before := xs[..|xs| - 1];
      && Collected(old_, f, WebMentions(before))
      && f.searchCalls == Traces(pass, |old_.searchCalls|, Searches(before))
      && f.documentCalls == Traces(pass, |old_.documentCalls|, |before| - Searches(before))
    requires AddExchange(old_, f, xs[|xs| - 1], pass).Parsed?
    ensures
      var g := AddExchange(old_, f, xs[|xs| - 1], pass).facts;
      && Collected(old_, g, WebMentions(xs))
      && g.searchCalls == Traces(pass, |old_.searchCalls|, Searches(xs))
      && g.documentCalls == Traces(pass, |old_.documentCalls|, |xs| - Searches(xs))
  {
    hide AddDocuments, AddWebResults, AddExchange, Collected, UniqueIds, Traces;
    var n := |xs| - 1;
    var x, before := xs[n], WebMentions(xs[..n]);
    assert before + [] == before;
    TracesGrow(pass, |old_.searchCalls|, Searches(xs[..n]));
    TracesGrow(pass, |old_.documentCalls|, n - Searches(xs[..n]));
    ExchangeNumbers(old_, f, x, pass);
    CollectedReads(old_, WebMentions(xs));
    if x.Searched? { ResultsCollect(old_, f, before, x.results); } else { DocumentsLeaveWeb(f, x.documents); }
  }

  lemma TracesGrow(pass: nat, known: nat, n: nat)
    ensures |Traces(pass, known, n)| == n
    ensures Traces(pass, known, n + 1) == Traces(pass, known, n) + [CallTrace(pass, known + n + 1)]
  {
  }

  /** The numbering does not touch what was collected. */
  lemma CollectedReads(old_: Facts, rs: seq<WebResult>)
    ensures
      forall f: Facts, g: Facts :: Collected(old_, f, rs) && g.sources == f.sources && g.evidence == f.evidence ==>
        Collected(old_, g, rs)
  {
  }

  lemma ExchangeNumbers(old_: Facts, f: Facts, x: ToolOutput, pass: nat)
    ensures
      var p := AddExchange(old_, f, x, pass);
      if x.Malformed? then p.Refused?
      else if x.Retrieved? then
        var g := AddDocuments(f, x.documents);
        && p.Parsed? && p.facts.sources == g.sources && p.facts.evidence == g.evidence
        && p.facts.searchCalls == g.searchCalls
        && p.facts.documentCalls ==
             g.documentCalls + [CallTrace(pass, |old_.documentCalls| + |g.documentCalls| + 1)]
      else
        var q := AddWebResults(old_, f, x.results);
        p.Parsed? ==>
          && q.Parsed? && p.facts.sources == q.facts.sources && p.facts.evidence == q.facts.evidence
          && p.facts.documentCalls == q.facts.documentCalls
          && p.facts.searchCalls ==
               q.facts.searchCalls + [CallTrace(pass, |old_.searchCalls| + |q.facts.searchCalls| + 1)]
  {
    hide AddDocuments, AddWebResults;
  }

  // ---- The documents --------------------------------------------------------

  lemma {:induction false} FirstDocumentIsKept(ds: seq<DocumentResult>, k: nat)
    requires FirstOfDocument(ds, k)
    ensures Item(DocumentSource(ds[k].document), Document(ds[k].document, ds[k].name)) in Sources(ds)
  {
    hide Lookup, Has;
    var n := |ds| - 1;
    assert forall j :: 0 <= j < n ==> ds[..n][j] == ds[j];
    if k < n { FirstDocumentIsKept(ds[..n], k); } else { FirstIsNew(ds); }
  }

  lemma {:induction false} FirstChunkIsKept(ds: seq<DocumentResult>, k: nat)
    requires FirstOfChunk(ds, k)
    ensures Item(Chunk(ds[k].chunk), EvidenceBody(DocumentSource(ds[k].document), ds[k].details)) in Chunks(ds)
  {
    hide Lookup, Has;
    var n := |ds| - 1;
    assert forall j :: 0 <= j < n ==> ds[..n][j] == ds[j];
    if k < n { FirstChunkIsKept(ds[..n], k); } else { FirstIsNew(ds); }
  }

  function ChunkIds(ds: seq<DocumentResult>): set<EvidenceId> { set k | 0 <= k < |ds| :: Chunk(ds[k].chunk) }

  lemma {:induction false} ChunksAreCollected(ds: seq<DocumentResult>)
    ensures IdsOf(Chunks(ds)) == ChunkIds(ds)
  {
    if ds != [] {
      hide Lookup, IdsOf;
      var n := |ds| - 1;
      var es, e := Chunks(ds[..n]), ChunkOf(ds[n]);
      ChunksAreCollected(ds[..n]);
      assert forall j :: 0 <= j < n ==> ds[..n][j] == ds[j];
      assert ChunkIds(ds) == ChunkIds(ds[..n]) + {Chunk(ds[n].chunk)};
      HasMeans(es, e.id);
      IdsGrow(es, e);
    }
  }

  lemma KeptOrKnown<K, B>(existing: seq<Item<K, B>>, additions: seq<Item<K, B>>, a: Item<K, B>)
    requires a in additions
    ensures Has(existing, a.id) || a in New(existing, additions)
  {
    if !Has(existing, a.id) { NewKeeps(existing, additions, a); }
  }

  lemma {:induction false} NewKeeps<K, B>(existing: seq<Item<K, B>>, additions: seq<Item<K, B>>, a: Item<K, B>)
    requires a in additions && !Has(existing, a.id)
    ensures a in New(existing, additions)
  {
    hide Has;
    var n := |additions| - 1;
    if a in additions[..n] {
      NewKeeps(existing, additions[..n], a);
    } else {
      assert additions == additions[..n] + [additions[n]];
      var r := New(existing, additions);
      assert r[|r| - 1] == a;
    }
  }

  // ---- What a pass leaves ---------------------------------------------------

  /** An accepted pass keeps all that was known and makes known exactly the pages that its searches
      returned and the snippets they quoted: a new page with the details of its first result, a
      snippet bound to the page it was quoted from. */
  lemma PassRecordsWeb(old_: Facts, xs: seq<ToolOutput>, reported: nat, pass: nat)
    requires FactsOk(old_) && ResearchAgent(old_, xs, reported, pass).Parsed?
    ensures
      var t, rs := ResearchAgent(old_, xs, reported, pass).facts, WebMentions(xs);
      && old_.sources <= t.sources && old_.evidence <= t.evidence
      && IdsOf(t.sources) == IdsOf(old_.sources) + (set k | 0 <= k < |rs| :: WebSource(rs[k].url))
      && IdsOf(t.evidence) ==
           IdsOf(old_.evidence)
           + (set k | 0 <= k < |rs| && rs[k].snippet.Some? :: Snippet(WebSource(rs[k].url), rs[k].snippet.value))
      && (forall k: nat :: FirstOfPage(rs, k) && WebSource(rs[k].url) !in IdsOf(old_.sources) ==>
            Item(WebSource(rs[k].url), WebPage(rs[k].url, rs[k].details)) in t.sources)
      && (forall k :: 0 <= k < |rs| && rs[k].snippet.Some? ==>
            Item(Snippet(WebSource(rs[k].url), rs[k].snippet.value), EvidenceBody(WebSource(rs[k].url), 0))
              in t.evidence)
  {
    hide ResearchAgent, Agree, Pages, Snippets, IdsOf, UniqueIds, Lookup, AddExchanges, Collected;
    var t, rs := ResearchAgent(old_, xs, reported, pass).facts, WebMentions(xs);
    PassOutcome(old_, xs, reported, pass);
    ExchangesFit(old_, xs, pass);
    PassCollectsWeb(old_, xs, pass);
    JoinedIsCollected(old_, xs, pass);
    PagesAreMentioned(rs);
    SnippetsAreMentioned(rs);
    NewIds(old_.sources, Pages(rs));
    NewIds(old_.evidence, Snippets(rs));
    forall k: nat | FirstOfPage(rs, k) && WebSource(rs[k].url) !in IdsOf(old_.sources)
      ensures Item(WebSource(rs[k].url), WebPage(rs[k].url, rs[k].details)) in t.sources
    {
      FirstPageIsKept(rs, k);
      HasMeans(old_.sources, WebSource(rs[k].url));
      KeptOrKnown(old_.sources, Pages(rs), PageOf(rs[k]));
    }
    forall k | 0 <= k < |rs| && rs[k].snippet.Some?
      ensures Item(Snippet(WebSource(rs[k].url), rs[k].snippet.value), EvidenceBody(WebSource(rs[k].url), 0))
                in t.evidence
    {
      assert SnippetId(rs[k]) in IdsOf(t.evidence);
      SnippetIsBound(t, SnippetId(rs[k]));
    }
  }

  lemma JoinedIsCollected(old_: Facts, xs: seq<ToolOutput>, pass: nat)
    requires FactsOk(old_) && Readable(xs) && AddExchanges(old_, xs, pass).Parsed?
    requires Collected(old_, AddExchanges(old_, xs, pass).facts, WebMentions(xs))
    ensures
      var t, rs := Joined(old_, FoundBy(old_, xs, pass)), WebMentions(xs);
      && t.sources == old_.sources + New(old_.sources, Pages(rs))
      && t.evidence == old_.evidence + New(old_.evidence, Snippets(rs))
  {
    hide FactsOk, Readable, Pages, Snippets, New, AddExchanges;
  }

  lemma SnippetIsBound(t: Facts, id: EvidenceId)
    requires FactsOk(t) && id in IdsOf(t.evidence) && id.Snippet?
    ensures Item(id, EvidenceBody(id.source, 0)) in t.evidence
  {
    var i :| 0 <= i < |t.evidence| && t.evidence[i].id == id;
  }

  /** The same for documents: exactly the documents and chunks that were retrieved become known beside
      those known before, each with the contents of its first mention. */
  lemma PassRecordsDocuments(old_: Facts, xs: seq<ToolOutput>, reported: nat, pass: nat)
    requires FactsOk(old_) && ResearchAgent(old_, xs, reported, pass).Parsed?
    ensures
      var t, ds := ResearchAgent(old_, xs, reported, pass).facts, Mentions(xs);
      && old_.documentSources <= t.documentSources && old_.documentEvidence <= t.documentEvidence
      && IdsOf(t.documentSources) ==
           IdsOf(old_.documentSources) + (set k | 0 <= k < |ds| :: DocumentSource(ds[k].document))
      && IdsOf(t.documentEvidence) == IdsOf(old_.documentEvidence) + (set k | 0 <= k < |ds| :: Chunk(ds[k].chunk))
      && (forall k: nat :: FirstOfDocument(ds, k) ==>
            Item(DocumentSource(ds[k].document), Document(ds[k].document, ds[k].name)) in t.documentSources)
      && (forall k: nat :: FirstOfChunk(ds, k) ==>
            Item(Chunk(ds[k].chunk), EvidenceBody(DocumentSource(ds[k].document), ds[k].details))
              in t.documentEvidence)
  {
    hide FactsOk, ResearchAgent, Agree, Sources, Chunks, IdsOf, UniqueIds, NamesAgree, ChunksAgree, Lookup, Readable;
    var t, ds := ResearchAgent(old_, xs, reported, pass).facts, Mentions(xs);
    PassOutcome(old_, xs, reported, pass);
    OutputsDecide(old_, xs, reported, pass);
    FoundDocuments(old_, xs, pass);
    SourcesAreNamed(ds);
    ChunksAreCollected(ds);
    NewIds(old_.documentSources, Sources(ds));
    NewIds(old_.documentEvidence, Chunks(ds));
    assert Named(ds) == set k | 0 <= k < |ds| :: DocumentSource(ds[k].document);
    forall k: nat | FirstOfDocument(ds, k)
      ensures Item(DocumentSource(ds[k].document), Document(ds[k].document, ds[k].name)) in t.documentSources
    {
      FirstDocumentIsKept(ds, k);
      KeptOrKnown(old_.documentSources, Sources(ds), DocumentOf(ds[k]));
      KnownNameAgrees(old_.documentSources, ds, k);
    }
    forall k: nat | FirstOfChunk(ds, k)
      ensures Item(Chunk(ds[k].chunk), EvidenceBody(DocumentSource(ds[k].document), ds[k].details))
                in t.documentEvidence
    {
      FirstChunkIsKept(ds, k);
      KeptOrKnown(old_.documentEvidence, Chunks(ds), ChunkOf(ds[k]));
      KnownChunkAgrees(old_.documentEvidence, ds, k);
    }
  }

  lemma KnownNameAgrees(known: seq<Source>, ds: seq<DocumentResult>, k: nat)
    requires NamesAgree(known, ds) && FirstOfDocument(ds, k)
    ensures Has(known, DocumentOf(ds[k]).id) ==> DocumentOf(ds[k]) in known
  {
    assert NameAgrees(known, ds, k);
  }

  lemma KnownChunkAgrees(known: seq<Evidence>, ds: seq<DocumentResult>, k: nat)
    requires ChunksAgree(known, ds) && FirstOfChunk(ds, k)
    ensures Has(known, ChunkOf(ds[k]).id) ==> ChunkOf(ds[k]) in known
  {
    assert ChunkAgrees(known, ds, k);
  }

  /** Every call of an accepted pass is recorded once, under its pass, numbered on from earlier passes. */
  lemma PassRecordsCalls(old_: Facts, xs: seq<ToolOutput>, reported: nat, pass: nat)
    requires FactsOk(old_) && ResearchAgent(old_, xs, reported, pass).Parsed?
    ensures
      var t, n := ResearchAgent(old_, xs, reported, pass).facts, Searches(xs);
      && t.searchCalls == old_.searchCalls + Traces(pass, |old_.searchCalls|, n)
      && t.documentCalls == old_.documentCalls + Traces(pass, |old_.documentCalls|, |xs| - n)
  {
    hide FactsOk, ResearchAgent, Agree, AddExchanges, Collected, Traces, Readable, FoundOk;
    PassOutcome(old_, xs, reported, pass);
    ExchangesFit(old_, xs, pass);
    SoundHasUniqueIds(old_);
    PassCollectsWeb(old_, xs, pass);
    JoinedParts(old_, FoundBy(old_, xs, pass));
  }

  lemma SoundHasUniqueIds(f: Facts)
    requires FactsOk(f)
    ensures UniqueIds(f.sources) && UniqueIds(f.evidence)
  {
  }

  // ---- When a pass is accepted ----------------------------------------------

  /** The outputs keep to the contracts of the tools: none malformed, at most eight results of a search and
      five of a retrieval. */
  predicate KeepsToContract(xs: seq<ToolOutput>)
  {
    forall k :: 0 <= k < |xs| ==>
      match xs[k]
      case Searched(results) => |results| <= 8
      case Retrieved(documents) => |documents| <= 5
      case Malformed => false
  }

  /** What is known about a document or chunk is what its first mention says. */
  ghost predicate MentionsAgree(old_: Facts, ds: seq<DocumentResult>)
  {
    && (forall k: nat, i: nat ::
          FirstOfDocument(ds, k) && i < |old_.documentSources|
          && old_.documentSources[i].id == DocumentSource(ds[k].document) ==>
            old_.documentSources[i].body == Document(ds[k].document, ds[k].name))
    && forall k: nat, i: nat ::
         FirstOfChunk(ds, k) && i < |old_.documentEvidence| && old_.documentEvidence[i].id == Chunk(ds[k].chunk) ==>
           old_.documentEvidence[i].body == EvidenceBody(DocumentSource(ds[k].document), ds[k].details)
  }

  /** A pass over a sound state is accepted exactly if it reports its calls, all passes together make at most
      eight, the outputs keep to their contracts, no known document or chunk is first mentioned with
      other contents, and at most eight documents are named, or known afterwards. */
  lemma PassIsAccepted(old_: Facts, xs: seq<ToolOutput>, reported: nat, pass: nat)
    requires FactsOk(old_)
    ensures
      var ds := Mentions(xs);
      var named := set k | 0 <= k < |ds| :: DocumentSource(ds[k].document);
      ResearchAgent(old_, xs, reported, pass).Parsed? <==>
        && |xs| == reported && |old_.searchCalls| + |old_.documentCalls| + |xs| <= 8
        && KeepsToContract(xs) && MentionsAgree(old_, ds)
        && |named| <= 8 && |IdsOf(old_.documentSources) + named| <= 8
  {
    var ds := Mentions(xs);
    assert Named(ds) == set k | 0 <= k < |ds| :: DocumentSource(ds[k].document);
    OutputsDecide(old_, xs, reported, pass);
    AgreementMeans(old_, ds);
    assert KeepsToContract(xs) <==> Readable(xs);
    hide FactsOk, ResearchAgent, NamesAgree, ChunksAgree, MentionsAgree, Readable, KeepsToContract, Named, IdsOf;
  }

  lemma AgreementMeans(old_: Facts, ds: seq<DocumentResult>)
    requires FactsOk(old_)
    ensures
      NamesAgree(old_.documentSources, ds) && ChunksAgree(old_.documentEvidence, ds) <==> MentionsAgree(old_, ds)
  {
    SoundDocumentsAreUnique(old_);
    hide FactsOk, UniqueIds, Lookup, FirstOfDocument, FirstOfChunk;
    forall k: nat | k < |ds|
      ensures NameAgrees(old_.documentSources, ds, k) <==>
                forall i: nat ::
                  FirstOfDocument(ds, k) && i < |old_.documentSources|
                  && old_.documentSources[i].id == DocumentSource(ds[k].document) ==>
                    old_.documentSources[i].body == Document(ds[k].document, ds[k].name)
    {
      KnownMeans(old_.documentSources, DocumentOf(ds[k]));
    }
    forall k: nat | k < |ds|
      ensures ChunkAgrees(old_.documentEvidence, ds, k) <==>
                forall i: nat ::
                  FirstOfChunk(ds, k) && i < |old_.documentEvidence|
                  && old_.documentEvidence[i].id == Chunk(ds[k].chunk) ==>
                    old_.documentEvidence[i].body == EvidenceBody(DocumentSource(ds[k].document), ds[k].details)
    {
      KnownMeans(old_.documentEvidence, ChunkOf(ds[k]));
    }
    FirstIsInRange(ds);
  }

  lemma FirstIsInRange(ds: seq<DocumentResult>)
    ensures forall k: nat :: FirstOfDocument(ds, k) || FirstOfChunk(ds, k) ==> k < |ds|
  {
  }

  lemma SoundDocumentsAreUnique(f: Facts)
    requires FactsOk(f)
    ensures UniqueIds(f.documentSources) && UniqueIds(f.documentEvidence)
  {
  }

  lemma KnownMeans<K, B>(known: seq<Item<K, B>>, a: Item<K, B>)
    requires UniqueIds(known)
    ensures
      (Has(known, a.id) ==> Lookup(known, a.id) == Some(a.body)) <==>
        forall i: nat :: i < |known| && known[i].id == a.id ==> known[i].body == a.body
  {
    if Has(known, a.id) {
      var i :| 0 <= i < |known| && known[i] == Item(a.id, Lookup(known, a.id).value);
      LookupUnique(known, i);
      forall j: nat | j < |known| && known[j].id == a.id ensures j == i { assert known[i].id == known[j].id; }
    }
  }

  /** Whatever the state was, sound or not, what the node accepts has passed its checks: known identities were
      unique, all calls are numbered from one and within the limit, the new searches belong to this pass,
      every piece of web evidence has its source, and the limits on sources, evidence and documents hold. */
  lemma AcceptedIsChecked(old_: Facts, xs: seq<ToolOutput>, reported: nat, pass: nat)
    requires ResearchAgent(old_, xs, reported, pass).Parsed?
    ensures
      var t := ResearchAgent(old_, xs, reported, pass).facts;
      && UniqueIds(old_.sources) && UniqueIds(old_.evidence)
      && (forall k :: 0 <= k < |t.searchCalls| ==> t.searchCalls[k].ordinal == k + 1)
      && (forall k :: 0 <= k < |t.documentCalls| ==> t.documentCalls[k].ordinal == k + 1)
      && |t.searchCalls| <= 8 && |t.documentCalls| <= 8 && old_.searchCalls <= t.searchCalls
      && (forall k :: |old_.searchCalls| <= k < |t.searchCalls| ==> t.searchCalls[k].pass == pass)
      && (forall k :: 0 <= k < |t.evidence| ==> t.evidence[k].body.source in IdsOf(t.sources))
      && |t.sources| <= 64 && |t.evidence| <= 128 && |t.documentSources| <= 8 && |t.documentEvidence| <= 128
  {
    hide Parse, UniqueIds, MergeInto, Lookup, IdsOf;
    ParsedFromUnique(old_, xs, reported, pass);
    var t, f := ResearchAgent(old_, xs, reported, pass).facts, Parse(old_, xs, reported, pass).facts;
    assert TracesFit(old_, f, pass) && t.searchCalls == old_.searchCalls + f.searchCalls;
    forall k | 0 <= k < |t.evidence| ensures t.evidence[k].body.source in IdsOf(t.sources) {
      HasMeans(t.sources, t.evidence[k].body.source);
    }
  }

  lemma ParsedFromUnique(old_: Facts, xs: seq<ToolOutput>, reported: nat, pass: nat)
    requires Parse(old_, xs, reported, pass).Parsed?
    ensures UniqueIds(old_.sources) && UniqueIds(old_.evidence)
  {
    hide AddExchanges;
  }
}
