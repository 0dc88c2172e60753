/** The document side of a research pass, in terms of what the tools answered: exactly which outputs a
    pass refuses, and that outputs read from stable documents are never refused. */
module ResearchDocuments {
  import opened Options
  import opened Keyed
  import opened ResearchPasses
  import opened ResearchProofs

  // ---- Mentions -------------------------------------------------------------

  /** All document results of a pass, in order. */
  function Mentions(xs: seq<ToolOutput>): seq<DocumentResult>
  {
    if xs == [] then [] else
    var x := xs[|xs| - 1];
    Mentions(xs[..|xs| - 1]) + (if x.Retrieved? then x.documents else [])
  }

  /** The result is the first of its document, the first of its chunk. */
  predicate FirstOfDocument(ds: seq<DocumentResult>, k: nat)
  {
    k < |ds| && forall j :: 0 <= j < k ==> ds[j].document != ds[k].document
  }

  predicate FirstOfChunk(ds: seq<DocumentResult>, k: nat)
  {
    k < |ds| && forall j :: 0 <= j < k ==> ds[j].chunk != ds[k].chunk
  }

  /** A known document is first mentioned by its known name, a known chunk with its known contents. */
  predicate NameAgrees(known: seq<Source>, ds: seq<DocumentResult>, k: nat)
    requires k < |ds|
  {
    var s := DocumentOf(ds[k]);
    FirstOfDocument(ds, k) && Has(known, s.id) ==> Lookup(known, s.id) == Some(s.body)
  }

  predicate ChunkAgrees(known: seq<Evidence>, ds: seq<DocumentResult>, k: nat)
    requires k < |ds|
  {
    var e := ChunkOf(ds[k]);
    FirstOfChunk(ds, k) && Has(known, e.id) ==> Lookup(known, e.id) == Some(e.body)
  }

  predicate NamesAgree(known: seq<Source>, ds: seq<DocumentResult>)
  {
    forall k :: 0 <= k < |ds| ==> NameAgrees(known, ds, k)
  }

  predicate ChunksAgree(known: seq<Evidence>, ds: seq<DocumentResult>)
  {
    forall k :: 0 <= k < |ds| ==> ChunkAgrees(known, ds, k)
  }

  function Named(ds: seq<DocumentResult>): set<SourceId> { set k | 0 <= k < |ds| :: DocumentOf(ds[k]).id }

  function IdsOf<K(==), B>(items: seq<Item<K, B>>): set<K> { set i | 0 <= i < |items| :: items[i].id }

  // ---- What the extraction collects -----------------------------------------

  /** The first result of each document, of each chunk. */
  function Sources(ds: seq<DocumentResult>): seq<Source>
  {
    if ds == [] then [] else
    var r, s := Sources(ds[..|ds| - 1]), DocumentOf(ds[|ds| - 1]);
    if Has(r, s.id) then r else r + [s]
  }

  function Chunks(ds: seq<DocumentResult>): seq<Evidence>
  {
    if ds == [] then [] else
    var r, e := Chunks(ds[..|ds| - 1]), ChunkOf(ds[|ds| - 1]);
    if Has(r, e.id) then r else r + [e]
  }

  lemma DocumentCollects(f: Facts, before: seq<DocumentResult>, d: DocumentResult)
    requires f.documentSources == Sources(before) && f.documentEvidence == Chunks(before)
    ensures
      var g := AddDocument(f, d);
      g.documentSources == Sources(before + [d]) && g.documentEvidence == Chunks(before + [d])
  {
    hide Has;
    assert (before + [d])[..|before|] == before;
  }

  lemma SplitLast(before: seq<DocumentResult>, ds: seq<DocumentResult>)
    requires ds != []
    ensures before + ds == before + ds[..|ds| - 1] + [ds[|ds| - 1]]
  {
  }

  lemma {:induction false} DocumentsCollect(f: Facts, before: seq<DocumentResult>, ds: seq<DocumentResult>)
    requires f.documentSources == Sources(before) && f.documentEvidence == Chunks(before)
    ensures
      var g := AddDocuments(f, ds);
      g.documentSources == Sources(before + ds) && g.documentEvidence == Chunks(before + ds)
  {
    if ds == [] {
      assert before + ds == before;
    } else {
      hide AddDocument, Sources, Chunks, Has, Lookup;
      var n := |ds| - 1;
      DocumentsCollect(f, before, ds[..n]);
      DocumentCollects(AddDocuments(f, ds[..n]), before + ds[..n], ds[n]);
      SplitLast(before, ds);
    }
  }

  lemma {:induction false} ResultsLeaveDocuments(old_: Facts, f: Facts, rs: seq<WebResult>)
    ensures
      var p := AddWebResults(old_, f, rs);
      p.Parsed? ==> p.facts.documentSources == f.documentSources && p.facts.documentEvidence == f.documentEvidence
  {
    hide Lookup;
    if rs != [] { ResultsLeaveDocuments(old_, f, rs[..|rs| - 1]); }
  }

  lemma ExchangeCollects(old_: Facts, f: Facts, x: ToolOutput, pass: nat)
    ensures
      var p := AddExchange(old_, f, x, pass);
      var g := if x.Retrieved? then AddDocuments(f, x.documents) else f;
      p.Parsed? ==>
        p.facts.documentSources == g.documentSources && p.facts.documentEvidence == g.documentEvidence
  {
    hide AddDocuments, AddWebResults;
    if x.Searched? { ResultsLeaveDocuments(old_, f, x.results); }
  }

  lemma {:induction false} PassCollects(old_: Facts, xs: seq<ToolOutput>, pass: nat)
    ensures
      var p := AddExchanges(old_, xs, pass);
      p.Parsed? ==>
        p.facts.documentSources == Sources(Mentions(xs)) && p.facts.documentEvidence == Chunks(Mentions(xs))
  {
    if xs != [] {
      hide AddDocuments, AddExchange, Sources, Chunks, WithinContract;
      var n := |xs| - 1;
      var x, p := xs[n], AddExchanges(old_, xs[..n], pass);
      PassCollects(old_, xs[..n], pass);
      if p.Parsed? {
        ExchangeCollects(old_, p.facts, x, pass);
        assert Mentions(xs[..n]) + [] == Mentions(xs[..n]);
        if x.Retrieved? { DocumentsCollect(p.facts, Mentions(xs[..n]), x.documents); }
      }
    } else {
      assert Sources([]) == [] && Chunks([]) == [];
    }
  }

  lemma {:induction false} HasMeans<K, B>(items: seq<Item<K, B>>, id: K)
    ensures Has(items, id) <==> id in IdsOf(items)
  {
    if items != [] {
      var n := |items| - 1;
      HasMeans(items[..n], id);
      assert items == items[..n] + [items[n]];
      LookupLast(items[..n], items[n]);
      IdsGrow(items[..n], items[n]);
    }
  }

  lemma IdsGrow<K, B>(items: seq<Item<K, B>>, a: Item<K, B>)
    ensures IdsOf(items + [a]) == IdsOf(items) + {a.id}
  {
    var all := items + [a];
    assert all[|items|] == a;
    assert forall i :: 0 <= i < |items| ==> all[i] == items[i];
  }

  lemma NamedGrows(ds: seq<DocumentResult>)
    requires ds != []
    ensures Named(ds) == Named(ds[..|ds| - 1]) + {DocumentOf(ds[|ds| - 1]).id}
  {
    var n := |ds| - 1;
    assert forall i :: 0 <= i < n ==> ds[..n][i] == ds[i];
  }

  /** The collected documents are those that are named, each once. */
  lemma {:induction false} SourcesAreNamed(ds: seq<DocumentResult>)
    ensures IdsOf(Sources(ds)) == Named(ds) && |Sources(ds)| == |Named(ds)|
  {
    if ds != [] {
      hide Lookup;
      var n := |ds| - 1;
      SourcesAreNamed(ds[..n]);
      NamedGrows(ds);
      HasMeans(Sources(ds[..n]), DocumentOf(ds[n]).id);
      IdsGrow(Sources(ds[..n]), DocumentOf(ds[n]));
    }
  }

  lemma {:induction false} ChunksAreMentioned(ds: seq<DocumentResult>, chunk: nat)
    ensures Has(Chunks(ds), Chunk(chunk)) <==> exists k :: 0 <= k < |ds| && ds[k].chunk == chunk
  {
    if ds != [] {
      hide Lookup;
      var n := |ds| - 1;
      ChunksAreMentioned(ds[..n], chunk);
      ChunksAreMentioned(ds[..n], ds[n].chunk);
      LookupLast(Chunks(ds[..n]), ChunkOf(ds[n]));
      assert forall k :: 0 <= k < n ==> ds[..n][k] == ds[k];
    }
  }

  lemma FirstIsNew(ds: seq<DocumentResult>)
    requires ds != []
    ensures
      var n := |ds| - 1;
      && (FirstOfDocument(ds, n) <==> !Has(Sources(ds[..n]), DocumentOf(ds[n]).id))
      && (FirstOfChunk(ds, n) <==> !Has(Chunks(ds[..n]), ChunkOf(ds[n]).id))
  {
    hide Lookup, Has, Sources, Chunks;
    var n := |ds| - 1;
    SourcesAreNamed(ds[..n]);
    HasMeans(Sources(ds[..n]), DocumentOf(ds[n]).id);
    ChunksAreMentioned(ds[..n], ds[n].chunk);
    assert forall j :: 0 <= j < n ==> ds[..n][j] == ds[j];
  }

  lemma NameAgreesAsBefore(known: seq<Source>, ds: seq<DocumentResult>, n: nat, k: nat)
    requires k < n <= |ds|
    ensures NameAgrees(known, ds[..n], k) <==> NameAgrees(known, ds, k)
  {
    hide Lookup, Has;
    assert forall j :: 0 <= j <= k ==> ds[..n][j] == ds[j];
  }

  lemma ChunkAgreesAsBefore(known: seq<Evidence>, ds: seq<DocumentResult>, n: nat, k: nat)
    requires k < n <= |ds|
    ensures ChunkAgrees(known, ds[..n], k) <==> ChunkAgrees(known, ds, k)
  {
    hide Lookup, Has;
    assert forall j :: 0 <= j <= k ==> ds[..n][j] == ds[j];
  }

  lemma NamesAgreeLast(known: seq<Source>, ds: seq<DocumentResult>)
    requires ds != []
    ensures NamesAgree(known, ds) <==> NamesAgree(known, ds[..|ds| - 1]) && NameAgrees(known, ds, |ds| - 1)
  {
    hide NameAgrees;
    var n := |ds| - 1;
    forall k | 0 <= k < n ensures NameAgrees(known, ds[..n], k) <==> NameAgrees(known, ds, k) {
      NameAgreesAsBefore(known, ds, n, k);
    }
  }

  lemma ChunksAgreeLast(known: seq<Evidence>, ds: seq<DocumentResult>)
    requires ds != []
    ensures ChunksAgree(known, ds) <==> ChunksAgree(known, ds[..|ds| - 1]) && ChunkAgrees(known, ds, |ds| - 1)
  {
    hide ChunkAgrees;
    var n := |ds| - 1;
    forall k | 0 <= k < n ensures ChunkAgrees(known, ds[..n], k) <==> ChunkAgrees(known, ds, k) {
      ChunkAgreesAsBefore(known, ds, n, k);
    }
  }

  /** What a pass collects agrees with what is known exactly if the first mentions do. */
  lemma {:induction false} SourcesAgree(known: seq<Source>, ds: seq<DocumentResult>)
    ensures Agree(known, Sources(ds)) <==> NamesAgree(known, ds)
  {
    if ds != [] {
      hide Agree, NamesAgree, FirstOfDocument, Lookup;
      var n := |ds| - 1;
      SourcesAgree(known, ds[..n]);
      FirstIsNew(ds);
      AgreeLast(known, Sources(ds[..n]), DocumentOf(ds[n]));
      NamesAgreeLast(known, ds);
    }
  }

  lemma {:induction false} EvidenceAgrees(known: seq<Evidence>, ds: seq<DocumentResult>)
    ensures Agree(known, Chunks(ds)) <==> ChunksAgree(known, ds)
  {
    if ds != [] {
      hide Agree, ChunksAgree, FirstOfChunk, Lookup;
      var n := |ds| - 1;
      EvidenceAgrees(known, ds[..n]);
      FirstIsNew(ds);
      AgreeLast(known, Chunks(ds[..n]), ChunkOf(ds[n]));
      ChunksAgreeLast(known, ds);
    }
  }

  // ---- The exact outcome ----------------------------------------------------

  lemma {:induction false} UniqueAreCounted<K, B>(items: seq<Item<K, B>>)
    requires UniqueIds(items)
    ensures |IdsOf(items)| == |items|
  {
    if items != [] {
      var n := |items| - 1;
      UniqueAreCounted(items[..n]);
      IdsGrow(items[..n], items[n]);
      assert items == items[..n] + [items[n]];
    }
  }

  lemma {:induction false} NewIds<K, B>(existing: seq<Item<K, B>>, additions: seq<Item<K, B>>)
    ensures IdsOf(existing + New(existing, additions)) == IdsOf(existing) + IdsOf(additions)
  {
    if additions == [] {
      assert existing + New(existing, additions) == existing;
    } else {
      hide IdsOf, Has;
      var n := |additions| - 1;
      var a, before := additions[n], existing + New(existing, additions[..n]);
      NewIds(existing, additions[..n]);
      IdsGrow(additions[..n], a);
      assert additions == additions[..n] + [a];
      HasMeans(existing, a.id);
      if !Has(existing, a.id) {
        IdsGrow(before, a);
        assert existing + New(existing, additions) == before + [a];
      } else {
        assert existing + New(existing, additions) == before;
      }
    }
  }

  /** The documents known after a pass are those known before and those it names. */
  lemma DocumentsAreCounted(old_: Facts, ds: seq<DocumentResult>)
    requires UniqueIds(old_.documentSources)
    ensures |old_.documentSources + New(old_.documentSources, Sources(ds))|
              == |IdsOf(old_.documentSources) + Named(ds)|
  {
    hide Has, Lookup, New;
    SourcesAreNamed(ds);
    SourcesAreUnique(ds);
    NewIsUnique(old_.documentSources, Sources(ds));
    NewIds(old_.documentSources, Sources(ds));
    UniqueAreCounted(old_.documentSources + New(old_.documentSources, Sources(ds)));
  }

  lemma {:induction false} SourcesAreUnique(ds: seq<DocumentResult>)
    ensures UniqueIds(Sources(ds))
  {
    if ds != [] {
      hide Lookup;
      SourcesAreUnique(ds[..|ds| - 1]);
      LookupLast(Sources(ds[..|ds| - 1]), DocumentOf(ds[|ds| - 1]));
    }
  }

  /** The exact outcome of a pass on a sound state, in terms of what the tools answered: the web side
      never matters; a pass with a readable trace is refused exactly if it names more than eight
      documents, or first mentions a known document or chunk with other contents, or makes more than
      eight documents known; and what it leaves is sound. */
  lemma OutputsDecide(old_: Facts, xs: seq<ToolOutput>, reported: nat, pass: nat)
    requires FactsOk(old_)
    ensures
      var r, ds := ResearchAgent(old_, xs, reported, pass), Mentions(xs);
      if !Fits(old_, xs, reported) then r == Refused(InvalidTrace)
      else if |Named(ds)| > DOCUMENT_SOURCE_LIMIT then r == Refused(ContractOverflow)
      else if !NamesAgree(old_.documentSources, ds) then r == Refused(SourceConflict)
      else if !ChunksAgree(old_.documentEvidence, ds) then r == Refused(EvidenceConflict)
      else if |IdsOf(old_.documentSources) + Named(ds)| > DOCUMENT_SOURCE_LIMIT then r == Refused(StateOverflow)
      else r.Parsed? && FactsOk(r.facts)
  {
    hide FactsOk, ResearchAgent, Agree, NamesAgree, ChunksAgree, Sources, Chunks, New, UniqueIds;
    PassOutcome(old_, xs, reported, pass);
    if Fits(old_, xs, reported) {
      var ds := Mentions(xs);
      FoundDocuments(old_, xs, pass);
      SourcesAreNamed(ds);
      SourcesAgree(old_.documentSources, ds);
      EvidenceAgrees(old_.documentEvidence, ds);
      SoundIsUnique(old_);
      DocumentsAreCounted(old_, ds);
    }
  }

  lemma FoundDocuments(old_: Facts, xs: seq<ToolOutput>, pass: nat)
    requires FactsOk(old_) && Readable(xs)
    ensures
      var f := FoundBy(old_, xs, pass);
      f.documentSources == Sources(Mentions(xs)) && f.documentEvidence == Chunks(Mentions(xs))
  {
    hide FactsOk, Readable, FoundOk, Sources, Chunks;
    ExchangesFit(old_, xs, pass);
    PassCollects(old_, xs, pass);
  }

  lemma SoundIsUnique(f: Facts)
    requires FactsOk(f)
    ensures UniqueIds(f.documentSources)
  {
  }

  // ---- Stable documents -----------------------------------------------------

  /** The documents in the scope of a run and the chunks they were cut into, which do not change. */
  datatype Library = Library(names: map<nat, nat>, chunks: map<nat, (nat, nat)>)

  predicate InLibrary(lib: Library, d: DocumentResult)
  {
    && d.document in lib.names && lib.names[d.document] == d.name
    && d.chunk in lib.chunks && lib.chunks[d.chunk] == (d.document, d.details)
  }

  /** All results of the pass are read from the library. */
  predicate ReadFrom(lib: Library, ds: seq<DocumentResult>)
  {
    forall k :: 0 <= k < |ds| ==> InLibrary(lib, ds[k])
  }

  predicate SourceFrom(lib: Library, s: Source)
  {
    s.id.DocumentSource? && s.id.document in lib.names && s.body == Document(s.id.document, lib.names[s.id.document])
  }

  predicate ChunkFrom(lib: Library, e: Evidence)
  {
    && e.id.Chunk? && e.id.chunk in lib.chunks
    && e.body == EvidenceBody(DocumentSource(lib.chunks[e.id.chunk].0), lib.chunks[e.id.chunk].1)
  }

  /** What is known was read from the library. */
  predicate KnownFrom(lib: Library, f: Facts)
  {
    && (forall i :: 0 <= i < |f.documentSources| ==> SourceFrom(lib, f.documentSources[i]))
    && (forall i :: 0 <= i < |f.documentEvidence| ==> ChunkFrom(lib, f.documentEvidence[i]))
  }

  lemma StableAgrees(lib: Library, f: Facts, ds: seq<DocumentResult>)
    requires KnownFrom(lib, f) && ReadFrom(lib, ds)
    ensures NamesAgree(f.documentSources, ds) && ChunksAgree(f.documentEvidence, ds)
  {
    forall k | 0 <= k < |ds|
      ensures NameAgrees(f.documentSources, ds, k) && ChunkAgrees(f.documentEvidence, ds, k)
    {
      assert InLibrary(lib, ds[k]);
    }
  }

  /** A library of at most eight documents never makes more than eight known. */
  lemma StableIsFew(lib: Library, f: Facts, ds: seq<DocumentResult>)
    requires KnownFrom(lib, f) && ReadFrom(lib, ds)
    ensures |Named(ds)| <= |lib.names| && |IdsOf(f.documentSources) + Named(ds)| <= |lib.names|
  {
    var all := set x | x in lib.names :: DocumentSource(x);
    forall id | id in Named(ds) ensures id in all {
      var k :| 0 <= k < |ds| && DocumentOf(ds[k]).id == id;
      assert InLibrary(lib, ds[k]);
    }
    forall id | id in IdsOf(f.documentSources) ensures id in all {
      var i :| 0 <= i < |f.documentSources| && f.documentSources[i].id == id;
      assert SourceFrom(lib, f.documentSources[i]);
    }
    DocumentsAreFew(lib.names.Keys);
    assert all == set x | x in lib.names.Keys :: DocumentSource(x);
    SmallerSet(Named(ds), all);
    SmallerSet(IdsOf(f.documentSources) + Named(ds), all);
  }

  lemma DocumentsAreFew(names: set<nat>)
    ensures |set x | x in names :: DocumentSource(x)| == |names|
    decreases |names|
  {
    var all := set x | x in names :: DocumentSource(x);
    if names == {} {
      assert all == {};
    } else {
      var x :| x in names;
      var rest := names - {x};
      DocumentsAreFew(rest);
      assert all == (set y | y in rest :: DocumentSource(y)) + {DocumentSource(x)};
    }
  }

  lemma SmallerSet<T>(a: set<T>, b: set<T>)
    requires a <= b
    ensures |a| <= |b|
    decreases |a|
  {
    if a != {} {
      var x :| x in a;
      SmallerSet(a - {x}, b - {x});
    }
  }

  lemma {:induction false} CollectedFrom(lib: Library, ds: seq<DocumentResult>)
    requires ReadFrom(lib, ds)
    ensures forall i :: 0 <= i < |Sources(ds)| ==> SourceFrom(lib, Sources(ds)[i])
    ensures forall i :: 0 <= i < |Chunks(ds)| ==> ChunkFrom(lib, Chunks(ds)[i])
  {
    if ds != [] {
      hide Has;
      CollectedFrom(lib, ds[..|ds| - 1]);
      assert InLibrary(lib, ds[|ds| - 1]);
    }
  }

  lemma JoinedFrom(lib: Library, old_: Facts, f: Facts)
    requires KnownFrom(lib, old_) && KnownFrom(lib, f)
    ensures KnownFrom(lib, Joined(old_, f))
  {
    hide Has, SourceFrom, ChunkFrom;
    var t := Joined(old_, f);
    forall i | 0 <= i < |t.documentSources| ensures SourceFrom(lib, t.documentSources[i]) {
      assert t.documentSources[i] in old_.documentSources || t.documentSources[i] in f.documentSources;
    }
    forall i | 0 <= i < |t.documentEvidence| ensures ChunkFrom(lib, t.documentEvidence[i]) {
      assert t.documentEvidence[i] in old_.documentEvidence || t.documentEvidence[i] in f.documentEvidence;
    }
  }

  /** A pass whose results are read from at most eight stable documents is never refused, as long as its
      trace is readable and within the limit of calls. */
  lemma StablePassIsAccepted(lib: Library, old_: Facts, xs: seq<ToolOutput>, pass: nat)
    requires FactsOk(old_) && KnownFrom(lib, old_) && |lib.names| <= DOCUMENT_SOURCE_LIMIT
    requires Fits(old_, xs, |xs|) && ReadFrom(lib, Mentions(xs))
    ensures
      var r := ResearchAgent(old_, xs, |xs|, pass);
      && r.Parsed? && FactsOk(r.facts) && KnownFrom(lib, r.facts)
      && |r.facts.searchCalls| + |r.facts.documentCalls| == |old_.searchCalls| + |old_.documentCalls| + |xs|
  {
    hide FactsOk, ResearchAgent, NamesAgree, ChunksAgree, KnownFrom, ReadFrom, Sources, Chunks, Joined, Readable, Agree;
    StableAgrees(lib, old_, Mentions(xs));
    StableIsFew(lib, old_, Mentions(xs));
    OutputsDecide(old_, xs, |xs|, pass);
    PassOutcome(old_, xs, |xs|, pass);
    var f := FoundBy(old_, xs, pass);
    FoundDocuments(old_, xs, pass);
    FoundFrom(lib, f, Mentions(xs));
    JoinedFrom(lib, old_, f);
    CallsAdd(old_, xs, pass);
  }

  lemma FoundFrom(lib: Library, f: Facts, ds: seq<DocumentResult>)
    requires ReadFrom(lib, ds) && f.documentSources == Sources(ds) && f.documentEvidence == Chunks(ds)
    ensures KnownFrom(lib, f)
  {
    hide ReadFrom, Sources, Chunks;
    CollectedFrom(lib, ds);
  }

  lemma CallsAdd(old_: Facts, xs: seq<ToolOutput>, pass: nat)
    requires FactsOk(old_) && Readable(xs)
    ensures
      var t := Joined(old_, FoundBy(old_, xs, pass));
      |t.searchCalls| + |t.documentCalls| == |old_.searchCalls| + |old_.documentCalls| + |xs|
  {
    hide FactsOk, Readable, WebFound, DocumentsFound, CallsFound;
    ExchangesFit(old_, xs, pass);
  }

  /** So a whole run with stable documents is never refused: both passes go through. */
  lemma StableRunIsAccepted(lib: Library, first: seq<ToolOutput>, second: seq<ToolOutput>)
    requires |lib.names| <= DOCUMENT_SOURCE_LIMIT && Readable(first) && Readable(second)
    requires |first| + |second| <= CALL_LIMIT && ReadFrom(lib, Mentions(first)) && ReadFrom(lib, Mentions(second))
    ensures
      var a := ResearchAgent(NOTHING, first, |first|, 1);
      && a.Parsed? && FactsOk(a.facts)
      && var b := ResearchAgent(a.facts, second, |second|, 2); b.Parsed? && FactsOk(b.facts)
  {
    assert KnownFrom(lib, NOTHING);
    NothingIsSound();
    hide FactsOk, ResearchAgent, KnownFrom, ReadFrom, Readable;
    StablePassIsAccepted(lib, NOTHING, first, 1);
    StablePassIsAccepted(lib, ResearchAgent(NOTHING, first, |first|, 1).facts, second, 2);
  }
}
