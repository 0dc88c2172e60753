/** The research state of `src/app/agents/research_graph.py`: what a pass of the research agent
    extracts from its transcript, how the graph merges it, and what the final report needs. */
module Keyed {
  import opened Options

  datatype Item<K, B> = Item(id: K, body: B)

  function Lookup<K(==), B>(items: seq<Item<K, B>>, id: K): (r: Option<B>)
    ensures r.Some? ==> exists i :: 0 <= i < |items| && items[i] == Item(id, r.value)
    ensures r.None? ==> forall i :: 0 <= i < |items| ==> items[i].id != id
  {
    if items == [] then None
    else if items[|items| - 1].id == id then Some(items[|items| - 1].body)
    else Lookup(items[..|items| - 1], id)
  }

  predicate UniqueIds<K(==), B>(items: seq<Item<K, B>>)
  {
    forall i, j :: 0 <= i < j < |items| ==> items[i].id != items[j].id
  }

  predicate Has<K(==), B>(items: seq<Item<K, B>>, id: K) { Lookup(items, id).Some? }

  lemma HasIsMember<K, B>(items: seq<Item<K, B>>, i: nat)
    requires i < |items|
    ensures Has(items, items[i].id)
  {
  }

  lemma LookupUnique<K, B>(items: seq<Item<K, B>>, i: nat)
    requires i < |items| && UniqueIds(items)
    ensures Lookup(items, items[i].id) == Some(items[i].body)
  {
    HasIsMember(items, i);
  }

  lemma LookupJoin<K, B>(a: seq<Item<K, B>>, b: seq<Item<K, B>>, id: K)
    ensures Has(a + b, id) <==> Has(a, id) || Has(b, id)
    ensures UniqueIds(a + b) && Has(a, id) ==> Lookup(a + b, id) == Lookup(a, id)
    ensures UniqueIds(a + b) && Has(b, id) ==> Lookup(a + b, id) == Lookup(b, id)
  {
    var ab := a + b;
    if Has(a, id) {
      var i :| 0 <= i < |a| && a[i] == Item(id, Lookup(a, id).value);
      assert ab[i] == a[i];
      if UniqueIds(ab) { LookupUnique(ab, i); }
    }
    if Has(b, id) {
      var i :| 0 <= i < |b| && b[i] == Item(id, Lookup(b, id).value);
      assert ab[|a| + i] == b[i];
      if UniqueIds(ab) { LookupUnique(ab, |a| + i); }
    }
    if Has(ab, id) {
      var i :| 0 <= i < |ab| && ab[i] == Item(id, Lookup(ab, id).value);
      if i < |a| { HasIsMember(a, i); } else { HasIsMember(b, i - |a|); }
    }
  }

  // ---- Merging --------------------------------------------------------------

  datatype Merged<K, B> = Ok(items: seq<Item<K, B>>) | Conflict | Overflow

  /** Add what is new, refuse what contradicts. */
  function MergeInto<K(==), B(==)>(merged: seq<Item<K, B>>, additions: seq<Item<K, B>>)
    : Option<seq<Item<K, B>>>
  {
    if additions == [] then Some(merged) else
    var n := |additions| - 1;
    var r := MergeInto(merged, additions[..n]);
    if r.None? then None
    else match Lookup(r.value, additions[n].id)
      case None => Some(r.value + [additions[n]])
      case Some(body) => if body == additions[n].body then r else None
  }

  function Merge<K(==), B(==)>(existing: seq<Item<K, B>>, additions: seq<Item<K, B>>, limit: nat): Merged<K, B>
  {
    var r := MergeInto(existing, additions);
    if r.None? then Conflict else if |r.value| > limit then Overflow else Ok(r.value)
  }

  /** `_merge_sources` and `_merge_evidence`: a list that grows and a dictionary beside it. */
  method MergeById<K(==), B(==)>(existing: seq<Item<K, B>>, additions: seq<Item<K, B>>, limit: nat)
    returns (r: Merged<K, B>)
    requires UniqueIds(existing)
    ensures r == Merge(existing, additions, limit)
  {
    var merged := existing;
    var byId: map<K, B> := map[];
    for i := 0 to |existing|
      invariant forall id :: id in byId <==> Has(existing[..i], id)
      invariant forall id :: id in byId ==> byId[id] == Lookup(existing[..i], id).value
    {
      assert existing[..i + 1][..i] == existing[..i];
      byId := byId[existing[i].id := existing[i].body];
    }
    assert existing[..|existing|] == existing;
    for i := 0 to |additions|
      invariant MergeInto(existing, additions[..i]) == Some(merged)
      invariant forall id :: id in byId <==> Has(merged, id)
      invariant forall id :: id in byId ==> byId[id] == Lookup(merged, id).value
    {
      var item := additions[i];
      assert additions[..i + 1][..i] == additions[..i];
      if item.id !in byId {
        byId := byId[item.id := item.body];
        assert (merged + [item])[..|merged|] == merged;
        merged := merged + [item];
      } else if byId[item.id] != item.body {
        ConflictStays(existing, additions, i + 1);
        return Conflict;
      }
    }
    assert additions[..|additions|] == additions;
    return if |merged| > limit then Overflow else Ok(merged);
  }

  lemma {:induction false} ConflictStays<K, B>(existing: seq<Item<K, B>>, additions: seq<Item<K, B>>, n: nat)
    requires n <= |additions| && MergeInto(existing, additions[..n]).None?
    ensures MergeInto(existing, additions).None?
    decreases |additions| - n
  {
    if n < |additions| {
      assert additions[..n + 1][..n] == additions[..n];
      ConflictStays(existing, additions, n + 1);
    } else {
      assert additions[..n] == additions;
    }
  }

  /** Additions that agree with what exists. */
  predicate Agree<K(==), B(==)>(existing: seq<Item<K, B>>, additions: seq<Item<K, B>>)
  {
    forall i :: 0 <= i < |additions| && Has(existing, additions[i].id) ==>
      Lookup(existing, additions[i].id) == Some(additions[i].body)
  }

  /** The additions whose identities are new. */
  function New<K(==), B>(existing: seq<Item<K, B>>, additions: seq<Item<K, B>>): (r: seq<Item<K, B>>)
    ensures |r| <= |additions| && forall i :: 0 <= i < |r| ==> r[i] in additions && !Has(existing, r[i].id)
  {
    if additions == [] then [] else
    var n := |additions| - 1;
    New(existing, additions[..n]) + (if Has(existing, additions[n].id) then [] else [additions[n]])
  }

  /** One more item at the end. */
  lemma LookupLast<K, B>(items: seq<Item<K, B>>, a: Item<K, B>)
    ensures forall id :: Lookup(items + [a], id) == if id == a.id then Some(a.body) else Lookup(items, id)
    ensures UniqueIds(items) && !Has(items, a.id) ==> UniqueIds(items + [a])
  {
    assert (items + [a])[..|items|] == items;
    if UniqueIds(items) && !Has(items, a.id) {
      forall i | 0 <= i < |items| ensures items[i].id != a.id { HasIsMember(items, i); }
    }
  }

  lemma LastIsApart<K, B>(additions: seq<Item<K, B>>)
    requires additions != [] && UniqueIds(additions)
    ensures
      var n := |additions| - 1;
      UniqueIds(additions[..n]) && !Has(additions[..n], additions[n].id) && additions == additions[..n] + [additions[n]]
  {
    var n := |additions| - 1;
    assert additions == additions[..n] + [additions[n]];
  }

  lemma {:induction false} NewIsUnique<K, B>(existing: seq<Item<K, B>>, additions: seq<Item<K, B>>)
    requires UniqueIds(existing) && UniqueIds(additions)
    ensures UniqueIds(existing + New(existing, additions))
    ensures forall id :: Lookup(existing + New(existing, additions), id) ==
              if Has(existing, id) then Lookup(existing, id) else Lookup(additions, id)
  {
    hide UniqueIds, Lookup;
    var all := existing + New(existing, additions);
    if additions == [] {
      assert all == existing;
      assert forall id: K :: Lookup<K, B>([], id).None? by { LookupNothing<K, B>(); }
    } else {
      var n := |additions| - 1;
      var init, a := additions[..n], additions[n];
      LastIsApart(additions);
      NewIsUnique(existing, init);
      LookupLast(init, a);
      if Has(existing, a.id) {
        assert all == existing + New(existing, init);
      } else {
        assert all == existing + New(existing, init) + [a];
        LookupLast(existing + New(existing, init), a);
      }
    }
  }

  lemma LookupNothing<K, B>()
    ensures forall id: K :: Lookup<K, B>([], id).None?
  {
  }

  lemma AgreeLast<K, B>(existing: seq<Item<K, B>>, init: seq<Item<K, B>>, a: Item<K, B>)
    ensures Agree(existing, init + [a]) <==>
              Agree(existing, init) && (Has(existing, a.id) ==> Lookup(existing, a.id) == Some(a.body))
  {
    var all := init + [a];
    assert forall i :: 0 <= i < |init| ==> all[i] == init[i];
    assert all[|init|] == a;
  }

  /** A merge of distinct additions fails exactly on a contradiction with what exists, and else
      keeps what exists and adds exactly what is new. */
  lemma {:induction false} MergeMeans<K, B>(existing: seq<Item<K, B>>, additions: seq<Item<K, B>>)
    requires UniqueIds(existing) && UniqueIds(additions)
    ensures MergeInto(existing, additions) ==
              if Agree(existing, additions) then Some(existing + New(existing, additions)) else None
  {
    if additions == [] {
      assert existing + New(existing, additions) == existing;
    } else {
      hide UniqueIds, Lookup, Agree;
      var n := |additions| - 1;
      var init, a := additions[..n], additions[n];
      LastIsApart(additions);
      MergeMeans(existing, init);
      NewIsUnique(existing, init);
      AgreeLast(existing, init, a);
      if Has(existing, a.id) {
        assert New(existing, additions) == New(existing, init);
      } else {
        assert existing + New(existing, additions) == existing + New(existing, init) + [a];
      }
    }
  }
}

module ResearchPasses {
  import opened Options
  import opened Keyed

  const CALL_LIMIT: nat := 8
  const WEB_RESULTS: nat := 8
  const DOCUMENT_RESULTS: nat := 5
  const SOURCE_LIMIT: nat := 64
  const EVIDENCE_LIMIT: nat := 128
  const DOCUMENT_SOURCE_LIMIT: nat := 8

  /** A web source is identified by its canonical URL, a workspace document by its identity. */
  datatype SourceId = WebSource(url: nat) | DocumentSource(document: nat)

  /** `web_evidence_id` digests source and snippet; a chunk has its own identity. */
  datatype EvidenceId = Snippet(source: SourceId, text: nat) | Chunk(chunk: nat)

  datatype SourceBody = WebPage(url: nat, details: nat) | Document(document: nat, name: nat)

  datatype EvidenceBody = EvidenceBody(source: SourceId, details: nat)

  type Source = Item<SourceId, SourceBody>
  type Evidence = Item<EvidenceId, EvidenceBody>

  datatype CallTrace = CallTrace(pass: nat, ordinal: nat)

  /** What the graph state holds of the research so far. */
  datatype Facts = Facts(
    sources: seq<Source>,
    evidence: seq<Evidence>,
    searchCalls: seq<CallTrace>,
    documentSources: seq<Source>,
    documentEvidence: seq<Evidence>,
    documentCalls: seq<CallTrace>)

  const NOTHING: Facts := Facts([], [], [], [], [], [])

  // ---- Tool outputs ---------------------------------------------------------

  datatype WebResult = WebResult(url: nat, details: nat, snippet: Option<nat>)

  datatype DocumentResult = DocumentResult(document: nat, name: nat, chunk: nat, details: nat)

  /** One exchange of the transcript, decoded; `Malformed` is whatever the contracts refuse. */
  datatype ToolOutput =
    | Searched(results: seq<WebResult>)
    | Retrieved(documents: seq<DocumentResult>)
    | Malformed

  predicate WithinContract(x: ToolOutput)
  {
    match x
    case Searched(results) => |results| <= WEB_RESULTS
    case Retrieved(documents) => |documents| <= DOCUMENT_RESULTS
    case Malformed => false
  }

  datatype PassError = InvalidTrace | SourceConflict | EvidenceConflict | ContractOverflow | TraceConflict
    | MissingSource | StateOverflow

  datatype Parsed = Parsed(facts: Facts) | Refused(error: PassError)

  // ---- _research_outputs_from_transcript ------------------------------------

  function SourceOf(r: WebResult): Source { Item(WebSource(r.url), WebPage(r.url, r.details)) }

  function EvidenceOf(r: WebResult): Evidence
    requires r.snippet.Some?
  {
    Item(Snippet(WebSource(r.url), r.snippet.value), EvidenceBody(WebSource(r.url), 0))
  }

  /** One search result: new identities are collected, known ones compared. */
  function AddWebResult(old_: Facts, found: Facts, r: WebResult): Parsed
  {
    var s := SourceOf(r);
    var known := Lookup(old_.sources + found.sources, s.id);
    if known.Some? && (!known.value.WebPage? || known.value.url != r.url) then Refused(SourceConflict)
    else
      var f1 := if known.None? then found.(sources := found.sources + [s]) else found;
      if r.snippet.None? then Parsed(f1)
      else
        var e := EvidenceOf(r);
        match Lookup(old_.evidence + found.evidence, e.id)
        case None => Parsed(f1.(evidence := f1.evidence + [e]))
        case Some(body) => if body == e.body then Parsed(f1) else Refused(EvidenceConflict)
  }

  function AddWebResults(old_: Facts, found: Facts, rs: seq<WebResult>): Parsed
  {
    if rs == [] then Parsed(found) else
    match AddWebResults(old_, found, rs[..|rs| - 1])
    case Refused(e) => Refused(e)
    case Parsed(f) => AddWebResult(old_, f, rs[|rs| - 1])
  }

  function DocumentOf(d: DocumentResult): Source { Item(DocumentSource(d.document), Document(d.document, d.name)) }

  function ChunkOf(d: DocumentResult): Evidence
  {
    Item(Chunk(d.chunk), EvidenceBody(DocumentSource(d.document), d.details))
  }

  /** One document result: compared with this pass only, and the first one stays. */
  function AddDocument(found: Facts, d: DocumentResult): Facts
  {
    var s, e := DocumentOf(d), ChunkOf(d);
    var f1 := if Has(found.documentSources, s.id) then found
              else found.(documentSources := found.documentSources + [s]);
    if Has(found.documentEvidence, e.id) then f1 else f1.(documentEvidence := f1.documentEvidence + [e])
  }

  function AddDocuments(found: Facts, ds: seq<DocumentResult>): Facts
  {
    if ds == [] then found else AddDocument(AddDocuments(found, ds[..|ds| - 1]), ds[|ds| - 1])
  }

  function AddExchange(old_: Facts, found: Facts, x: ToolOutput, pass: nat): Parsed
  {
    match x
    case Malformed => Refused(InvalidTrace)
    case Retrieved(ds) =>
      var f := AddDocuments(found, ds);
      Parsed(f.(documentCalls :=
        f.documentCalls + [CallTrace(pass, |old_.documentCalls| + |f.documentCalls| + 1)]))
    case Searched(rs) =>
      match AddWebResults(old_, found, rs)
      case Refused(e) => Refused(e)
      case Parsed(f) =>
        Parsed(f.(searchCalls := f.searchCalls + [CallTrace(pass, |old_.searchCalls| + |f.searchCalls| + 1)]))
  }

  function AddExchanges(old_: Facts, xs: seq<ToolOutput>, pass: nat): Parsed
  {
    if xs == [] then Parsed(NOTHING) else
    match AddExchanges(old_, xs[..|xs| - 1], pass)
    case Refused(e) => Refused(e)
    case Parsed(f) =>
      if !WithinContract(xs[|xs| - 1]) then Refused(InvalidTrace) else AddExchange(old_, f, xs[|xs| - 1], pass)
  }

  /** The whole extraction, with the contract of the node's output. */
  function Parse(old_: Facts, xs: seq<ToolOutput>, reported: nat, pass: nat): Parsed
  {
    if |xs| != reported then Refused(InvalidTrace)
    else if |old_.searchCalls| + |old_.documentCalls| + |xs| > CALL_LIMIT then Refused(InvalidTrace)
    else if !UniqueIds(old_.sources) || !UniqueIds(old_.evidence) then Refused(InvalidTrace)
    else
      var r := AddExchanges(old_, xs, pass);
      if r.Parsed? && !FitsOutput(r.facts) then Refused(ContractOverflow) else r
  }

  predicate FitsOutput(f: Facts)
  {
    && |f.sources| <= SOURCE_LIMIT && |f.evidence| <= EVIDENCE_LIMIT && |f.searchCalls| <= CALL_LIMIT
    && |f.documentSources| <= DOCUMENT_SOURCE_LIMIT && |f.documentEvidence| <= EVIDENCE_LIMIT
    && |f.documentCalls| <= CALL_LIMIT
  }

  /** The extraction in the source's own form: a loop over the exchanges and one over the
      results of each, growing the lists. */
  method ResearchOutputs(old_: Facts, xs: seq<ToolOutput>, reported: nat, pass: nat) returns (r: Parsed)
    ensures r == Parse(old_, xs, reported, pass)
  {
    if |xs| != reported { return Refused(InvalidTrace); }
    if |old_.searchCalls| + |old_.documentCalls| + |xs| > CALL_LIMIT { return Refused(InvalidTrace); }
    if !UniqueIds(old_.sources) || !UniqueIds(old_.evidence) { return Refused(InvalidTrace); }
    var found := NOTHING;
    for i := 0 to |xs|
      invariant AddExchanges(old_, xs[..i], pass) == Parsed(found)
    {
      assert xs[..i + 1][..i] == xs[..i];
      if !WithinContract(xs[i]) {
        RefusalStays(old_, xs, pass, i + 1);
        return Refused(InvalidTrace);
      }
      var next := CollectExchange(old_, found, xs[i], pass);
      if next.Refused? {
        RefusalStays(old_, xs, pass, i + 1);
        return next;
      }
      found := next.facts;
    }
    assert xs[..|xs|] == xs;
    return if FitsOutput(found) then Parsed(found) else Refused(ContractOverflow);
  }

  method CollectExchange(old_: Facts, found: Facts, x: ToolOutput, pass: nat) returns (r: Parsed)
    requires WithinContract(x)
    ensures r == AddExchange(old_, found, x, pass)
  {
    if x.Retrieved? {
      var f := CollectDocuments(found, x.documents);
      return Parsed(f.(documentCalls :=
        f.documentCalls + [CallTrace(pass, |old_.documentCalls| + |f.documentCalls| + 1)]));
    }
    r := CollectResults(old_, found, x.results);
    if r.Parsed? {
      var f := r.facts;
      r := Parsed(f.(searchCalls := f.searchCalls + [CallTrace(pass, |old_.searchCalls| + |f.searchCalls| + 1)]));
    }
  }

  method CollectDocuments(found: Facts, ds: seq<DocumentResult>) returns (f: Facts)
    ensures f == AddDocuments(found, ds)
  {
    f := found;
    for j := 0 to |ds|
      invariant f == AddDocuments(found, ds[..j])
    {
      assert ds[..j + 1][..j] == ds[..j];
      f := AddDocument(f, ds[j]);
    }
    assert ds[..|ds|] == ds;
  }

  method CollectResults(old_: Facts, found: Facts, rs: seq<WebResult>) returns (r: Parsed)
    ensures r == AddWebResults(old_, found, rs)
  {
    var f := found;
    for j := 0 to |rs|
      invariant AddWebResults(old_, found, rs[..j]) == Parsed(f)
    {
      assert rs[..j + 1][..j] == rs[..j];
      var next := AddWebResult(old_, f, rs[j]);
      if next.Refused? {
        ResultRefusalStays(old_, found, rs, j + 1);
        return next;
      }
      f := next.facts;
    }
    assert rs[..|rs|] == rs;
    return Parsed(f);
  }

  lemma {:induction false} ResultRefusalStays(old_: Facts, found: Facts, rs: seq<WebResult>, n: nat)
    requires n <= |rs| && AddWebResults(old_, found, rs[..n]).Refused?
    ensures AddWebResults(old_, found, rs) == AddWebResults(old_, found, rs[..n])
    decreases |rs| - n
  {
    hide AddWebResult;
    if n < |rs| {
      assert rs[..n + 1][..n] == rs[..n];
      ResultRefusalStays(old_, found, rs, n + 1);
    } else {
      assert rs[..n] == rs;
    }
  }

  lemma {:induction false} RefusalStays(old_: Facts, xs: seq<ToolOutput>, pass: nat, n: nat)
    requires n <= |xs| && AddExchanges(old_, xs[..n], pass).Refused?
    ensures AddExchanges(old_, xs, pass) == AddExchanges(old_, xs[..n], pass)
    decreases |xs| - n
  {
    hide AddExchange;
    if n < |xs| {
      assert xs[..n + 1][..n] == xs[..n];
      RefusalStays(old_, xs, pass, n + 1);
    } else {
      assert xs[..n] == xs;
    }
  }

  // ---- The research_agent node of the graph ---------------------------------

  predicate Ordinals(calls: seq<CallTrace>, first: nat)
  {
    forall i :: 0 <= i < |calls| ==> calls[i].ordinal == first + i
  }

  /** `_merge_search_calls` and `_merge_document_calls` accept these traces. */
  predicate TracesFit(old_: Facts, found: Facts, pass: nat)
  {
    && Ordinals(old_.searchCalls, 1) && Ordinals(found.searchCalls, |old_.searchCalls| + 1)
    && (forall i :: 0 <= i < |found.searchCalls| ==> found.searchCalls[i].pass == pass)
    && |old_.searchCalls| + |found.searchCalls| <= CALL_LIMIT
    && Ordinals(old_.documentCalls + found.documentCalls, 1)
    && |old_.documentCalls| + |found.documentCalls| <= CALL_LIMIT
  }

  predicate EvidenceResolves(sources: seq<Source>, evidence: seq<Evidence>)
  {
    forall i :: 0 <= i < |evidence| ==> Has(sources, evidence[i].body.source)
  }

  function ErrorOf<K, B>(m: Merged<K, B>, conflict: PassError): PassError
    requires !m.Ok?
  {
    if m.Conflict? then conflict else StateOverflow
  }

  /** The node: extract, merge, check; the document sources must fit the state's contract. */
  function ResearchAgent(old_: Facts, xs: seq<ToolOutput>, reported: nat, pass: nat): Parsed
  {
    var p := Parse(old_, xs, reported, pass);
    if p.Refused? then p else
    var sources := Merge(old_.sources, p.facts.sources, SOURCE_LIMIT);
    var evidence := Merge(old_.evidence, p.facts.evidence, EVIDENCE_LIMIT);
    var documents := Merge(old_.documentSources, p.facts.documentSources, SOURCE_LIMIT);
    var chunks := Merge(old_.documentEvidence, p.facts.documentEvidence, EVIDENCE_LIMIT);
    if !sources.Ok? then Refused(ErrorOf(sources, SourceConflict))
    else if !evidence.Ok? then Refused(ErrorOf(evidence, EvidenceConflict))
    else if !TracesFit(old_, p.facts, pass) then Refused(TraceConflict)
    else if !EvidenceResolves(sources.items, evidence.items) then Refused(MissingSource)
    else if !documents.Ok? then Refused(ErrorOf(documents, SourceConflict))
    else if !chunks.Ok? then Refused(ErrorOf(chunks, EvidenceConflict))
    else if |documents.items| > DOCUMENT_SOURCE_LIMIT then Refused(StateOverflow)
    else Parsed(Facts(sources.items, evidence.items, old_.searchCalls + p.facts.searchCalls,
                      documents.items, chunks.items, old_.documentCalls + p.facts.documentCalls))
  }
}
