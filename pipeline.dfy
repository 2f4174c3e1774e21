/**
 * `RetrievalPipeline` of emvr/retrieval/pipeline.py: a retrieval mode, four retrievers
 * built on first use, the mode switch, `retrieve` with a one-call mode override, and
 * context enrichment.
 *
 * What a retriever returns is given by `backend`, a function of the kind of retriever
 * asked and the query; `Err` stands for any exception it raises.
 */
module RetrievalPipeline {
  import opened Outcomes
  import opened Text
  import opened RetrievalBase
  import KnowledgeGraphRetriever

  /** Which lazy property built a retriever. */
  datatype Kind = VectorKind | GraphKind | HybridKind | FusionKind

  /** A retriever instance; only the property that built it matters here. */
  class Retriever {
    const kind: Kind

    constructor (k: Kind)
      ensures kind == k
    {
      kind := k;
    }
  }

  type Filters = map<string, KnowledgeGraphRetriever.FilterValue>

  /** The retrievers' answers: results, or the error a retriever raises. */
  type Backend = (Kind, string, int, Filters) -> Result<seq<RetrievalResult>>

  const ValidModes: seq<string> := ["vector", "graph", "hybrid", "fusion"]

  /** The retriever `active_retriever` picks for a mode; an unknown mode gets fusion. */
  function ModeKind(mode: string): Kind
  {
    if mode == "vector" then VectorKind
    else if mode == "graph" then GraphKind
    else if mode == "hybrid" then HybridKind
    else FusionKind
  }

  /**
   * Each valid mode selects its own retriever, and every other mode selects the fusion
   * retriever.
   */
  lemma ModeKindFacts(mode: string)
    ensures mode == "vector" <==> ModeKind(mode) == VectorKind
    ensures mode == "graph" <==> ModeKind(mode) == GraphKind
    ensures mode == "hybrid" <==> ModeKind(mode) == HybridKind
    ensures mode !in ValidModes ==> ModeKind(mode) == FusionKind
  {
  }

  /** The text of the ValueError raised for an invalid mode. */
  function InvalidModeMessage(mode: string): string
  {
    "Invalid retrieval mode: " + mode + ". Must be one of ['vector', 'graph', 'hybrid', 'fusion']"
  }

  /** The dict `retrieve` returns; `error` is present only after an exception. */
  datatype Response = Response(query: string, mode: string, count: nat,
                               results: seq<RetrievalResult>, error: Option<string>)

  /** The dict `enrich_context` returns. */
  datatype Enriched = Enriched(query: string, originalContext: Option<string>,
                               enrichedContext: string, sourcesCount: nat)

  /**
   * `retrieve` as a value: the response and the mode afterwards, starting from mode
   * `current`. An invalid override raises before anything changes; a retriever error
   * leaves a valid override in place; a success restores the original mode.
   */
  function RetrieveSpec(current: string, query: string, topK: int, filters: Filters,
                        override: Option<string>, backend: Backend): (Response, string)
  {
    if override.Some? && override.value !in ValidModes then
      (Response(query, current, 0, [], Some(InvalidModeMessage(override.value))), current)
    else
      var mode := if override.Some? then override.value else current;
      match backend(ModeKind(mode), query, topK, filters)
      case Err(e) => (Response(query, mode, 0, [], Some(e)), mode)
      case Ok(rs) => (Response(query, current, |rs|, rs, None), current)
  }

  /**
   * The count is always the number of results. A successful call (no error) leaves the
   * mode as it was and reports it; the results are those of the retriever for the
   * override, or for the current mode without one.
   */
  lemma RetrieveSucceeds(current: string, query: string, topK: int, filters: Filters,
                         override: Option<string>, backend: Backend)
    ensures var (resp, after) := RetrieveSpec(current, query, topK, filters, override, backend);
      resp.count == |resp.results| && resp.query == query
      && (resp.error.None? ==>
            after == current && resp.mode == current
            && backend(ModeKind(override.GetOr(current)), query, topK, filters) == Ok(resp.results))
  {
  }

  /**
   * A failed call returns no results and the error. An invalid override changes nothing;
   * a valid override whose retriever raises stays in force afterwards.
   */
  lemma RetrieveFails(current: string, query: string, topK: int, filters: Filters,
                      override: Option<string>, backend: Backend)
    ensures var (resp, after) := RetrieveSpec(current, query, topK, filters, override, backend);
      (override.Some? && override.value !in ValidModes ==>
         after == current && resp.error == Some(InvalidModeMessage(override.value)))
      && (override.Some? && override.value in ValidModes
          && backend(ModeKind(override.value), query, topK, filters).Err? ==>
            after == override.value && resp.mode == override.value)
      && (resp.error.Some? ==> resp.count == 0 && resp.results == [])
  {
  }

  /** The texts of the results, in order. */
  function Texts(rs: seq<RetrievalResult>): (r: seq<string>)
    ensures |r| == |rs| && forall i :: 0 <= i < |rs| ==> r[i] == rs[i].text
  {
    seq(|rs|, i requires 0 <= i < |rs| => rs[i].text)
  }

  /** `combined_context` for the existing context and the result texts. */
  function Combined(context: Option<string>, texts: seq<string>): string
  {
    var base := context.GetOr("");
    if texts == [] then base
    else (if base != "" then base + "\n\nRelevant information:\n" else "Relevant information:\n")
         + Join(texts, "\n\n")
  }

  /**
   * Enrichment keeps the existing context in front and adds every retrieved text; with no
   * texts the context is returned unchanged (`None` as "").
   */
  lemma CombinedFacts(context: Option<string>, texts: seq<string>)
    ensures var c := Combined(context, texts);
      StartsWith(c, context.GetOr(""))
      && (texts == [] ==> c == context.GetOr(""))
      && (forall i :: 0 <= i < |texts| ==> Contains(c, texts[i]))
  {
    var base := context.GetOr("");
    var c := Combined(context, texts);
    if texts == [] {
      assert c[..|base|] == base;
    } else {
      var head := if base != "" then base + "\n\nRelevant information:\n" else "Relevant information:\n";
      assert c == head + Join(texts, "\n\n");
      if base != "" {
        assert c[..|base|] == base;
      }
      forall i | 0 <= i < |texts| ensures Contains(c, texts[i]) {
        JoinContains(texts, "\n\n", i);
        ContainsAfter(head, Join(texts, "\n\n"), texts[i]);
      }
    }
  }

  /** `enrich_context` as a value: the answer and the mode afterwards. */
  function EnrichSpec(current: string, query: string, context: Option<string>, topK: int,
                      backend: Backend): (Enriched, string)
  {
    var (resp, after) := RetrieveSpec(current, query, topK, map[], Some("fusion"), backend);
    var texts := Texts(resp.results);
    (Enriched(query, context, Combined(context, texts), |texts|), after)
  }

  /**
   * The sources count is the number of fusion results; when the fusion retriever raises
   * there are none, the context comes back as it was, and the mode stays "fusion".
   */
  lemma EnrichFacts(current: string, query: string, context: Option<string>, topK: int, backend: Backend)
    ensures var (e, after) := EnrichSpec(current, query, context, topK, backend);
      e.query == query && e.originalContext == context
      && (backend(FusionKind, query, topK, map[]).Ok? ==>
            e.sourcesCount == |backend(FusionKind, query, topK, map[]).value| && after == current)
      && (backend(FusionKind, query, topK, map[]).Err? ==>
            e.sourcesCount == 0 && e.enrichedContext == context.GetOr("") && after == "fusion")
  {
    CombinedFacts(context, []);
  }

  class Pipeline {
    var retrievalMode: string
    var vectorRetriever: Option<Retriever>
    var graphRetriever: Option<Retriever>
    var hybridRetriever: Option<Retriever>
    var fusionRetriever: Option<Retriever>

    /** The cache slot of the property for `k`. */
    function Cache(k: Kind): Option<Retriever>
      reads this
    {
      match k
      case VectorKind => vectorRetriever
      case GraphKind => graphRetriever
      case HybridKind => hybridRetriever
      case FusionKind => fusionRetriever
    }

    /** Every cached retriever was built by its own property. */
    ghost predicate Valid()
      reads this
    {
      (vectorRetriever.Some? ==> vectorRetriever.value.kind == VectorKind)
      && (graphRetriever.Some? ==> graphRetriever.value.kind == GraphKind)
      && (hybridRetriever.Some? ==> hybridRetriever.value.kind == HybridKind)
      && (fusionRetriever.Some? ==> fusionRetriever.value.kind == FusionKind)
    }

    /** The mode is stored as given, unchecked; no retriever is built yet. */
    constructor (mode: string)
      ensures retrievalMode == mode && Valid()
      ensures forall k :: Cache(k).None?
    {
      retrievalMode := mode;
      vectorRetriever := None;
      graphRetriever := None;
      hybridRetriever := None;
      fusionRetriever := None;
    }

    /**
     * The lazy properties: the retriever of kind `k` is built on the first access and the
     * same instance is returned on every later one; nothing else changes.
     */
    method Lazy(k: Kind) returns (r: Retriever)
      requires Valid()
      modifies this
      ensures Valid() && r.kind == k && Cache(k) == Some(r)
      ensures old(Cache(k)).Some? ==> r == old(Cache(k)).value
      ensures old(Cache(k)).None? ==> fresh(r)
      ensures retrievalMode == old(retrievalMode)
      ensures forall k' :: k' != k ==> Cache(k') == old(Cache(k'))
    {
      match k
      case VectorKind =>
        if vectorRetriever.None? {
          var built := new Retriever(VectorKind);
          vectorRetriever := Some(built);
        }
        r := vectorRetriever.value;
      case GraphKind =>
        if graphRetriever.None? {
          var built := new Retriever(GraphKind);
          graphRetriever := Some(built);
        }
        r := graphRetriever.value;
      case HybridKind =>
        if hybridRetriever.None? {
          var built := new Retriever(HybridKind);
          hybridRetriever := Some(built);
        }
        r := hybridRetriever.value;
      case FusionKind =>
        if fusionRetriever.None? {
          var built := new Retriever(FusionKind);
          fusionRetriever := Some(built);
        }
        r := fusionRetriever.value;
    }

    /** `active_retriever`: the retriever of the current mode, built if needed. */
    method ActiveRetriever() returns (r: Retriever)
      requires Valid()
      modifies this
      ensures Valid() && r.kind == ModeKind(retrievalMode) && retrievalMode == old(retrievalMode)
      ensures Cache(r.kind) == Some(r)
      ensures old(Cache(ModeKind(retrievalMode))).Some? ==> r == old(Cache(ModeKind(retrievalMode))).value
      ensures forall k :: k != r.kind ==> Cache(k) == old(Cache(k))
    {
      if retrievalMode == "vector" {
        r := Lazy(VectorKind);
      } else if retrievalMode == "graph" {
        r := Lazy(GraphKind);
      } else if retrievalMode == "hybrid" {
        r := Lazy(HybridKind);
      } else if retrievalMode == "fusion" {
        r := Lazy(FusionKind);
      } else {
        r := Lazy(FusionKind);
      }
    }

    /**
     * `set_retrieval_mode`: a valid mode is stored; any other raises ValueError (`Some`
     * message) and leaves the mode as it was.
     */
    method SetRetrievalMode(mode: string) returns (error: Option<string>)
      requires Valid()
      modifies this
      ensures Valid()
      ensures mode in ValidModes ==> error.None? && retrievalMode == mode
      ensures mode !in ValidModes ==> error == Some(InvalidModeMessage(mode)) && retrievalMode == old(retrievalMode)
      ensures forall k :: Cache(k) == old(Cache(k))
    {
      if mode !in ValidModes {
        return Some(InvalidModeMessage(mode));
      }
      retrievalMode := mode;
      error := None;
    }

    /** `retrieve`: the active retriever answers, under the override mode if one is given. */
    method Retrieve(query: string, topK: int, filters: Filters, mode: Option<string>, backend: Backend)
      returns (resp: Response)
      requires Valid()
      modifies this
      ensures Valid()
      ensures (resp, retrievalMode) == RetrieveSpec(old(retrievalMode), query, topK, filters, mode, backend)
    {
      var originalMode := retrievalMode;
      if mode.Some? {
        var error := SetRetrievalMode(mode.value);
        if error.Some? {
          return Response(query, retrievalMode, 0, [], error);
        }
      }
      var retriever := ActiveRetriever();
      var results := backend(retriever.kind, query, topK, filters);
      if results.Err? {
        return Response(query, retrievalMode, 0, [], Some(results.error));
      }
      if mode.Some? {
        retrievalMode := originalMode;
      }
      resp := Response(query, retrievalMode, |results.value|, results.value, None);
    }

    /** `search_hybrid`: `retrieve` with the mode "fusion" for this one call. */
    method SearchHybrid(query: string, topK: int, filters: Filters, backend: Backend) returns (resp: Response)
      requires Valid()
      modifies this
      ensures Valid()
      ensures (resp, retrievalMode) == RetrieveSpec(old(retrievalMode), query, topK, filters, Some("fusion"), backend)
    {
      resp := Retrieve(query, topK, filters, Some("fusion"), backend);
    }

    /**
     * `enrich_context`: fusion results for the query, their texts appended to the context.
     * `retrieve` catches every exception itself, so the handler of `enrich_context` is never
     * reached.
     */
    method EnrichContext(query: string, context: Option<string>, topK: int, backend: Backend)
      returns (enriched: Enriched)
      requires Valid()
      modifies this
      ensures Valid()
      ensures (enriched, retrievalMode) == EnrichSpec(old(retrievalMode), query, context, topK, backend)
    {
      var retrieval := Retrieve(query, topK, map[], Some("fusion"), backend);
      var resultTexts: seq<string> := [];
      var i := 0;
      while i < |retrieval.results|
        invariant 0 <= i <= |retrieval.results|
        invariant resultTexts == Texts(retrieval.results[..i])
      {
        assert retrieval.results[..i + 1] == retrieval.results[..i] + [retrieval.results[i]];
        resultTexts := resultTexts + [retrieval.results[i].text];
        i := i + 1;
      }
      assert retrieval.results[..i] == retrieval.results;
      var combinedContext := context.GetOr("");
      if resultTexts != [] {
        if combinedContext != "" {
          combinedContext := combinedContext + "\n\nRelevant information:\n";
        } else {
          combinedContext := "Relevant information:\n";
        }
        combinedContext := combinedContext + Join(resultTexts, "\n\n");
      }
      enriched := Enriched(query, context, combinedContext, |resultTexts|);
    }
  }
}
