/**
 * `RetrievalPipeline` of emvr/retrievers/retrieval_pipeline.py: the unified pipeline that
 * normalises the query, asks the graph retriever for entities, consults the vector and
 * graph retrievers, fuses their result lists by content and summarises the outcome.
 *
 * The two retrievers, their set-up and the entity extractor are given as `Services`;
 * `Err` stands for an exception one of them raises.
 */
module RetrieversPipeline {
  import opened Outcomes
  import opened Text
  import Seqs

  // ---------------------------------------------------------------------------
  // Query preprocessing and entity augmentation
  // ---------------------------------------------------------------------------

  /** `_preprocess_query`: strip the ends, then every whitespace run becomes one space. */
  function Preprocess(query: string): string
  {
    CollapseWs(Strip(query))
  }

  /**
   * A preprocessed query has no whitespace at either end and no whitespace other than
   * single spaces between words; preprocessing it again changes nothing.
   */
  lemma PreprocessFacts(query: string)
    ensures Normalized(Preprocess(query))
    ensures Preprocess(Preprocess(query)) == Preprocess(query)
  {
    var s := Strip(query);
    var r := CollapseWs(s);
    StripEnds(query);
    CollapseWsSpaces(s);
    if s != [] {
      CollapseWsLast(s);
      assert r[0] == s[0];
    }
    assert SingleSpaced(r) by {
      forall i | 0 <= i < |r| && IsSpace(r[i])
        ensures r[i] == ' ' && i + 1 < |r| && !IsSpace(r[i + 1])
      {
        assert i + 1 != |r|;
      }
    }
    NormalizedFixed(r);
  }

  /** What `extract_entities` answers: its "success" flag and its "entities" list. */
  datatype EntityReply = EntityReply(success: bool, entities: seq<string>)

  /** The dict `_augment_with_entities` returns. */
  datatype Augmented = Augmented(originalQuery: string, entities: seq<string>)

  /** `_augment_with_entities` for the extractor's reply. */
  function Augment(query: string, reply: EntityReply): Augmented
  {
    if !reply.success then Augmented(query, []) else Augmented(query, reply.entities)
  }

  /**
   * The query is kept; the entities are the extractor's exactly when it reports success,
   * and there are none otherwise.
   */
  lemma AugmentFacts(query: string, reply: EntityReply)
    ensures Augment(query, reply).originalQuery == query
    ensures reply.success ==> Augment(query, reply).entities == reply.entities
    ensures !reply.success ==> Augment(query, reply).entities == []
  {
  }

  // ---------------------------------------------------------------------------
  // Fusing by content
  // ---------------------------------------------------------------------------

  /**
   * A result dict of either retriever: its "content" and "score" keys, each possibly
   * absent, and the other keys, which are carried along untouched.
   */
  datatype Hit = Hit(content: Option<string>, score: Option<real>, metadata: map<string, string>)

  /** A collected result: the dict with its "final_score" and "retrieval_sources" keys set. */
  datatype Fused = Fused(hit: Hit, finalScore: real, sources: seq<string>)

  /** `result.get("score", 0.0)`. */
  function Base(h: Hit): real
  {
    h.score.GetOr(0.0)
  }

  /** The sort key `x.get("final_score", 0.0)`; every collected result has the key. */
  function FinalKey(f: Fused): real
  {
    f.finalScore
  }

  /** The boost a result already collected gets when the graph retriever finds it too. */
  const GraphBoost: real := 0.2

  /** The content a graph result is matched by: `result.get("content", "")`. */
  function GraphKey(g: Hit): string
  {
    g.content.GetOr("")
  }

  /** A vector result as the first loop collects it. */
  function FromVector(h: Hit): Fused
  {
    Fused(h, Base(h), ["vector"])
  }

  /** The vector results in order, each with its score (0.0 if absent) and source "vector". */
  function Tagged(vs: seq<Hit>): (r: seq<Fused>)
    ensures |r| == |vs| && forall i :: 0 <= i < |vs| ==> r[i] == FromVector(vs[i])
  {
    seq(|vs|, i requires 0 <= i < |vs| => FromVector(vs[i]))
  }

  /**
   * `next((r for r in all_results if r.get("content") == content), None)`: the first
   * collected result with that content. A collected dict without "content" matches no
   * graph result, not even one without "content" (`None != ""`).
   */
  function FirstWithContent(all: seq<Fused>, c: string): (r: Option<nat>)
    ensures r.None? <==> forall i :: 0 <= i < |all| ==> all[i].hit.content != Some(c)
    ensures r.Some? ==> r.value < |all| && all[r.value].hit.content == Some(c)
                        && forall j :: 0 <= j < r.value ==> all[j].hit.content != Some(c)
  {
    if all == [] then None
    else if all[0].hit.content == Some(c) then Some(0)
    else match FirstWithContent(all[1..], c)
      case None => None
      case Some(i) => Some(i + 1)
  }

  /** A collected result found again by the graph retriever. */
  function Boosted(f: Fused): Fused
  {
    f.(finalScore := f.finalScore + GraphBoost, sources := f.sources + ["graph"])
  }

  /** One pass of the graph loop. */
  function AddGraph(all: seq<Fused>, g: Hit): seq<Fused>
  {
    match FirstWithContent(all, GraphKey(g))
    case Some(k) => all[k := Boosted(all[k])]
    case None => all + [Fused(g, Base(g), ["graph"])]
  }

  /** The graph loop over `gs`, starting from the collected list `all`. */
  function Merge(all: seq<Fused>, gs: seq<Hit>): seq<Fused>
    decreases |gs|
  {
    if gs == [] then all else AddGraph(Merge(all, gs[..|gs| - 1]), gs[|gs| - 1])
  }

  /** `all_results` after both loops, before the sort. */
  function Collect(vs: seq<Hit>, gs: seq<Hit>): seq<Fused>
  {
    Merge(Tagged(vs), gs)
  }

  /** `_fuse_results` as a value: collect, stable sort by final score descending, cut. */
  function FuseSpec(vs: seq<Hit>, gs: seq<Hit>, maxResults: int): seq<Fused>
  {
    Seqs.PyTake(Seqs.SortDesc(Collect(vs, gs), FinalKey), maxResults)
  }

  /**
   * A graph result whose content some collected result has boosts the first such result
   * by 0.2 and appends "graph" to its sources, leaving the list otherwise as it was; any
   * other graph result is added at the end with its score (0.0 if absent) and the sources
   * ["graph"].
   */
  lemma AddGraphFacts(all: seq<Fused>, g: Hit)
    ensures var r := AddGraph(all, g);
      ((exists i :: 0 <= i < |all| && all[i].hit.content == Some(GraphKey(g))) ==>
         |r| == |all|
         && exists k :: 0 <= k < |all| && all[k].hit.content == Some(GraphKey(g))
              && (forall j :: 0 <= j < k ==> all[j].hit.content != Some(GraphKey(g)))
              && r[k].hit == all[k].hit && r[k].finalScore == all[k].finalScore + 0.2
              && r[k].sources == all[k].sources + ["graph"]
              && forall j :: 0 <= j < |all| && j != k ==> r[j] == all[j])
      && ((forall i :: 0 <= i < |all| ==> all[i].hit.content != Some(GraphKey(g))) ==>
            |r| == |all| + 1 && r[..|all|] == all && r[|all|].hit == g
            && r[|all|].finalScore == Base(g) && r[|all|].sources == ["graph"])
  {
    var r := AddGraph(all, g);
    match FirstWithContent(all, GraphKey(g))
    case Some(k) =>
      assert r == all[k := Boosted(all[k])];
    case None =>
      assert r == all + [Fused(g, Base(g), ["graph"])];
  }

  /**
   * The graph loop never drops or reorders what is already collected: each earlier result
   * keeps its dict and its sources as a prefix, gaining at most one "graph" per graph
   * result, and at most one result is added per graph result.
   */
  lemma {:induction false} MergePrefix(all: seq<Fused>, gs: seq<Hit>)
    ensures var m := Merge(all, gs);
      |all| <= |m| <= |all| + |gs|
      && forall i :: 0 <= i < |all| ==>
           m[i].hit == all[i].hit && all[i].sources <= m[i].sources
           && |m[i].sources| <= |all[i].sources| + |gs|
    decreases |gs|
  {
    if gs != [] {
      var init := gs[..|gs| - 1];
      var g := gs[|gs| - 1];
      MergePrefix(all, init);
      var p := Merge(all, init);
      AddGraphFacts(p, g);
    }
  }

  /**
   * How a collected result is labelled: its first source says which retriever's list it
   * comes from, every later source is "graph", and its final score is its own score (0.0 if
   * absent) plus 0.2 for each "graph" after the first source.
   */
  predicate WellTagged(f: Fused, vs: seq<Hit>, gs: seq<Hit>)
  {
    |f.sources| >= 1
    && ((f.sources[0] == "vector" && f.hit in vs) || (f.sources[0] == "graph" && f.hit in gs))
    && (forall j :: 1 <= j < |f.sources| ==> f.sources[j] == "graph")
    && f.finalScore == Base(f.hit) + GraphBoost * ((|f.sources| - 1) as real)
  }

  /** Boosting a well-labelled result adds one "graph" and 0.2, so it stays well labelled. */
  lemma BoostedTagged(f: Fused, vs: seq<Hit>, gs: seq<Hit>)
    requires WellTagged(f, vs, gs)
    ensures WellTagged(Boosted(f), vs, gs)
  {
    var b := Boosted(f);
    assert b.sources[..|f.sources|] == f.sources;
    assert |b.sources| - 1 == (|f.sources| - 1) + 1;
  }

  /** One pass of the graph loop keeps every result well labelled. */
  lemma AddGraphTagged(p: seq<Fused>, g: Hit, vs: seq<Hit>, gs: seq<Hit>)
    requires g in gs
    requires forall f :: f in p ==> WellTagged(f, vs, gs)
    ensures forall f :: f in AddGraph(p, g) ==> WellTagged(f, vs, gs)
  {
    match FirstWithContent(p, GraphKey(g))
    case Some(k) =>
      BoostedTagged(p[k], vs, gs);
      var r := p[k := Boosted(p[k])];
      forall f | f in r ensures WellTagged(f, vs, gs) {
        var i :| 0 <= i < |r| && r[i] == f;
        if i != k {
          assert f == p[i];
        }
      }
    case None =>
      assert WellTagged(Fused(g, Base(g), ["graph"]), vs, gs);
  }

  lemma {:induction false} MergeTagged(all: seq<Fused>, done: seq<Hit>, vs: seq<Hit>, gs: seq<Hit>)
    requires forall g :: g in done ==> g in gs
    requires forall f :: f in all ==> WellTagged(f, vs, gs)
    ensures forall f :: f in Merge(all, done) ==> WellTagged(f, vs, gs)
    decreases |done|
  {
    if done != [] {
      var init := done[..|done| - 1];
      assert forall x :: x in init ==> x in done;
      MergeTagged(all, init, vs, gs);
      AddGraphTagged(Merge(all, init), done[|done| - 1], vs, gs);
    }
  }

  /** Every collected result is labelled as `WellTagged` says. */
  lemma CollectTagged(vs: seq<Hit>, gs: seq<Hit>)
    ensures forall f :: f in Collect(vs, gs) ==> WellTagged(f, vs, gs)
  {
    var t := Tagged(vs);
    forall f | f in t ensures WellTagged(f, vs, gs) {
      var i :| 0 <= i < |t| && t[i] == f;
      assert f == FromVector(vs[i]);
    }
    MergeTagged(t, gs, vs, gs);
  }

  /**
   * Every vector result is kept, in order, at the front of the collected list, with source
   * "vector" first and a final score between its own score (0.0 if absent) and that plus
   * 0.2 per graph result; without graph results the list is exactly the tagged vector
   * results. At most one result is added per graph result.
   */
  lemma CollectVectorFirst(vs: seq<Hit>, gs: seq<Hit>)
    ensures var c := Collect(vs, gs);
      |vs| <= |c| <= |vs| + |gs|
      && (forall i :: 0 <= i < |vs| ==>
            c[i].hit == vs[i] && |c[i].sources| >= 1 && c[i].sources[0] == "vector"
            && Base(vs[i]) <= c[i].finalScore <= Base(vs[i]) + GraphBoost * (|gs| as real))
      && (gs == [] ==> c == Tagged(vs))
  {
    var t := Tagged(vs);
    var c := Collect(vs, gs);
    MergePrefix(t, gs);
    CollectTagged(vs, gs);
    forall i | 0 <= i < |vs|
      ensures c[i].hit == vs[i] && |c[i].sources| >= 1 && c[i].sources[0] == "vector"
      ensures Base(vs[i]) <= c[i].finalScore <= Base(vs[i]) + GraphBoost * (|gs| as real)
    {
      assert t[i].sources == ["vector"] && t[i].sources <= c[i].sources;
      assert c[i] in c && WellTagged(c[i], vs, gs);
      var n := |c[i].sources| - 1;
      assert 0 <= n <= |gs|;
      assert c[i].finalScore == Base(vs[i]) + GraphBoost * (n as real);
    }
  }

  /**
   * The fused list is ordered by final score, largest first; it holds at most
   * `max_results` of the collected results; results with equal final scores keep their
   * collection order when nothing is cut.
   */
  lemma FuseSorted(vs: seq<Hit>, gs: seq<Hit>, maxResults: int)
    ensures var r := FuseSpec(vs, gs, maxResults);
      Seqs.SortedDesc(r, FinalKey)
      && (maxResults >= 0 ==> |r| <= maxResults)
      && (forall f :: f in r ==> f in Collect(vs, gs))
      && (maxResults >= |Collect(vs, gs)| ==>
            multiset(r) == multiset(Collect(vs, gs))
            && forall k :: Seqs.WithKey(r, FinalKey, k) == Seqs.WithKey(Collect(vs, gs), FinalKey, k))
  {
    var c := Collect(vs, gs);
    var s := Seqs.SortDesc(c, FinalKey);
    Seqs.SortDescFacts(c, FinalKey);
    var r := FuseSpec(vs, gs, maxResults);
    forall f | f in r ensures f in c {
      assert f in multiset(s);
    }
    if maxResults >= |c| {
      assert r == s;
    }
  }

  /** The `next(...)` scan of the graph loop. */
  method FindByContent(all: seq<Fused>, content: string) returns (found: Option<nat>)
    ensures found == FirstWithContent(all, content)
  {
    var i := 0;
    while i < |all|
      invariant 0 <= i <= |all|
      invariant forall j :: 0 <= j < i ==> all[j].hit.content != Some(content)
    {
      if all[i].hit.content == Some(content) {
        return Some(i);
      }
      i := i + 1;
    }
    return None;
  }

  /** The vector loop of `_fuse_results`. */
  method TagVector(vectorResults: seq<Hit>) returns (allResults: seq<Fused>)
    ensures allResults == Tagged(vectorResults)
  {
    allResults := [];
    var i := 0;
    while i < |vectorResults|
      invariant 0 <= i <= |vectorResults| && |allResults| == i
      invariant forall j :: 0 <= j < i ==> allResults[j] == FromVector(vectorResults[j])
    {
      var result := vectorResults[i];
      var score := result.score.GetOr(0.0);
      allResults := allResults + [Fused(result, score, ["vector"])];
      i := i + 1;
    }
  }

  /** One pass of the graph loop, updating the collected list in place. */
  method AddGraphStep(allResults: seq<Fused>, result: Hit) returns (r: seq<Fused>)
    ensures r == AddGraph(allResults, result)
  {
    var content := result.content.GetOr("");
    var existing := FindByContent(allResults, content);
    if existing.Some? {
      var k := existing.value;
      var boost := 0.2;
      r := allResults[k := allResults[k].(finalScore := allResults[k].finalScore + boost,
                                          sources := allResults[k].sources + ["graph"])];
    } else {
      var score := result.score.GetOr(0.0);
      r := allResults + [Fused(result, score, ["graph"])];
    }
  }

  /** The graph loop of `_fuse_results`. */
  method MergeGraph(start: seq<Fused>, graphResults: seq<Hit>) returns (allResults: seq<Fused>)
    ensures allResults == Merge(start, graphResults)
  {
    allResults := start;
    var i := 0;
    while i < |graphResults|
      invariant 0 <= i <= |graphResults|
      invariant allResults == Merge(start, graphResults[..i])
    {
      assert graphResults[..i + 1][..i] == graphResults[..i];
      allResults := AddGraphStep(allResults, graphResults[i]);
      i := i + 1;
    }
    assert graphResults[..i] == graphResults;
  }

  /** `_fuse_results`: the two collecting loops, the in-place sort and the cut. */
  method FuseResults(vectorResults: seq<Hit>, graphResults: seq<Hit>, maxResults: int)
    returns (fused: seq<Fused>)
    ensures fused == FuseSpec(vectorResults, graphResults, maxResults)
  {
    var tagged := TagVector(vectorResults);
    var allResults := MergeGraph(tagged, graphResults);
    var sorted := Seqs.SortDesc(allResults, FinalKey);
    fused := Seqs.PyTake(sorted, maxResults);
  }

  // ---------------------------------------------------------------------------
  // retrieve and retrieve_and_generate
  // ---------------------------------------------------------------------------

  type Filters = Option<map<string, string>>

  /**
   * The outside world: the set-up outcome of each retriever (`Some` error when it raises),
   * the entity extractor, and the "results" lists of the hybrid (vector) and graph
   * retrievers' `retrieve` (an absent list is []).
   */
  datatype Services = Services(
    hybridSetup: Option<string>,
    graphSetup: Option<string>,
    extract: string -> Result<EntityReply>,
    vector: (string, int, Filters) -> Result<seq<Hit>>,
    graph: (string, int) -> Result<seq<Hit>>)

  /** The error `initialize` re-raises: the hybrid retriever is set up first. */
  function SetupError(s: Services): Option<string>
  {
    if s.hybridSetup.Some? then s.hybridSetup else s.graphSetup
  }

  /**
   * The dict `retrieve` returns: the success form with its counts and the elapsed time read
   * from the clock (and, after `retrieve_and_generate`, the summary), or the failure form
   * (whose "results" is always []).
   */
  datatype Response =
    | Success(query: string, processedQuery: string, entities: seq<string>, results: seq<Fused>,
              vectorCount: nat, graphCount: nat, totalCount: nat, processingTime: real,
              generated: Option<string>)
    | Failure(error: string, query: string)

  /** The entities and the two result lists `retrieve` gathers before fusing. */
  datatype Gathered = Gathered(entities: seq<string>, vectorResults: seq<Hit>, graphResults: seq<Hit>)

  /**
   * The calls of `retrieve` for the preprocessed query, in order: the extractor, the vector
   * retriever when `use_vector` is set, the graph retriever when `use_graph` is set and
   * entities were found. The first exception stops the rest.
   */
  function Gather(processed: string, topK: int, useGraph: bool, useVector: bool, filters: Filters,
                  s: Services): Result<Gathered>
  {
    match s.extract(processed)
    case Err(e) => Err(e)
    case Ok(reply) =>
      var entities := Augment(processed, reply).entities;
      var vr := if useVector then s.vector(processed, topK, filters) else Ok([]);
      if vr.Err? then Err(vr.error)
      else
        var gr := if useGraph && entities != [] then s.graph(processed, topK) else Ok([]);
        if gr.Err? then Err(gr.error)
        else Ok(Gathered(entities, vr.value, gr.value))
  }

  /** The body of `retrieve` after initialisation, as a value. */
  function RetrieveSpec(query: string, topK: int, useGraph: bool, useVector: bool, filters: Filters,
                        s: Services, elapsed: real): Response
  {
    var processed := Preprocess(query);
    match Gather(processed, topK, useGraph, useVector, filters, s)
    case Err(e) => Failure(e, query)
    case Ok(g) =>
      var fused := FuseSpec(g.vectorResults, g.graphResults, topK);
      Success(query, processed, g.entities, fused, |g.vectorResults|, |g.graphResults|, |fused|, elapsed, None)
  }

  /**
   * The vector retriever is consulted only when `use_vector` is set: otherwise replacing it
   * changes nothing and there are no vector results.
   */
  lemma VectorGate(processed: string, topK: int, useGraph: bool, filters: Filters, s: Services,
                   other: (string, int, Filters) -> Result<seq<Hit>>)
    ensures Gather(processed, topK, useGraph, false, filters, s)
         == Gather(processed, topK, useGraph, false, filters, s.(vector := other))
    ensures Gather(processed, topK, useGraph, false, filters, s).Ok? ==>
              Gather(processed, topK, useGraph, false, filters, s).value.vectorResults == []
  {
  }

  /**
   * The graph retriever is consulted only when `use_graph` is set and entities were found:
   * otherwise replacing it changes nothing and there are no graph results.
   */
  lemma GraphGate(processed: string, topK: int, useGraph: bool, useVector: bool, filters: Filters,
                  s: Services, other: (string, int) -> Result<seq<Hit>>)
    requires !useGraph || (s.extract(processed).Ok? && Augment(processed, s.extract(processed).value).entities == [])
    ensures Gather(processed, topK, useGraph, useVector, filters, s)
         == Gather(processed, topK, useGraph, useVector, filters, s.(graph := other))
    ensures Gather(processed, topK, useGraph, useVector, filters, s).Ok? ==>
              Gather(processed, topK, useGraph, useVector, filters, s).value.graphResults == []
  {
  }

  /**
   * Gathering succeeds exactly when the extractor and every consulted retriever answer;
   * the lists are then theirs.
   */
  lemma GatherFacts(processed: string, topK: int, useGraph: bool, useVector: bool, filters: Filters, s: Services)
    ensures var r := Gather(processed, topK, useGraph, useVector, filters, s);
      r.Ok? <==> (s.extract(processed).Ok?
                  && (useVector ==> s.vector(processed, topK, filters).Ok?)
                  && (useGraph && Augment(processed, s.extract(processed).value).entities != [] ==>
                        s.graph(processed, topK).Ok?))
    ensures var r := Gather(processed, topK, useGraph, useVector, filters, s);
      r.Ok? ==>
        r.value.entities == Augment(processed, s.extract(processed).value).entities
        && (useVector ==> r.value.vectorResults == s.vector(processed, topK, filters).value)
        && (useGraph && r.value.entities != [] ==> r.value.graphResults == s.graph(processed, topK).value)
  {
  }

  /**
   * The fused results hold at most `top_k` entries, sorted by final score, none scored
   * below its own score (0.0 if absent).
   */
  lemma FuseFacts(vs: seq<Hit>, gs: seq<Hit>, topK: int)
    ensures var r := FuseSpec(vs, gs, topK);
      (topK >= 0 ==> |r| <= topK) && Seqs.SortedDesc(r, FinalKey)
      && forall f :: f in r ==> Base(f.hit) <= f.finalScore
  {
    FuseSorted(vs, gs, topK);
    CollectTagged(vs, gs);
    forall f | f in FuseSpec(vs, gs, topK) ensures Base(f.hit) <= f.finalScore {
      assert f in Collect(vs, gs) && WellTagged(f, vs, gs);
    }
  }

  /**
   * A successful retrieval reports the original and the normalised query and the fusion of
   * the gathered lists with their counts: at most `top_k` results, sorted by final score.
   * A failed one carries the original query and the first error raised.
   */
  lemma RetrieveFacts(query: string, topK: int, useGraph: bool, useVector: bool, filters: Filters,
                      s: Services, elapsed: real)
    ensures var r := RetrieveSpec(query, topK, useGraph, useVector, filters, s, elapsed);
      var gathered := Gather(Preprocess(query), topK, useGraph, useVector, filters, s);
      r.query == query && (r.Success? <==> gathered.Ok?)
      && (r.Failure? ==> r.error == gathered.error)
      && (r.Success? ==>
            r.processedQuery == Preprocess(query) && Normalized(r.processedQuery)
            && r.entities == gathered.value.entities
            && r.results == FuseSpec(gathered.value.vectorResults, gathered.value.graphResults, topK)
            && r.vectorCount == |gathered.value.vectorResults|
            && r.graphCount == |gathered.value.graphResults|
            && r.totalCount == |r.results| && r.generated.None?
            && (topK >= 0 ==> |r.results| <= topK) && Seqs.SortedDesc(r.results, FinalKey))
  {
    PreprocessFacts(query);
    var gathered := Gather(Preprocess(query), topK, useGraph, useVector, filters, s);
    if gathered.Ok? {
      FuseFacts(gathered.value.vectorResults, gathered.value.graphResults, topK);
    }
  }

  /** Either form of the response carries the query as given. */
  lemma RetrieveKeepsQuery(query: string, topK: int, useGraph: bool, useVector: bool, filters: Filters,
                           s: Services, elapsed: real)
    ensures RetrieveSpec(query, topK, useGraph, useVector, filters, s, elapsed).query == query
  {
  }

  /** The summary of `retrieve_and_generate`, before the top result. */
  function Summary(query: string, total: nat, vectorCount: nat, graphCount: nat): string
  {
    "Found " + NatToString(total) + " results for '" + query + "' "
    + ("(" + NatToString(vectorCount) + " from vector search, " + NatToString(graphCount) + " from graph search).")
  }

  /** The tail naming the top result: at most its first 100 characters of content. */
  function TopLine(results: seq<Fused>): string
  {
    if results == [] then ""
    else " Top result: " + Seqs.PyTake(results[0].hit.content.GetOr(""), 100) + "..."
  }

  /** `retrieve_and_generate` on what `retrieve` returned. */
  function GenerateSpec(r: Response): Response
  {
    if r.Failure? then r
    else r.(generated := Some(Summary(r.query, |r.results|, r.vectorCount, r.graphCount) + TopLine(r.results)))
  }

  /** The summary names the query between quotes. */
  lemma SummaryNamesQuery(query: string, total: nat, vectorCount: nat, graphCount: nat)
    ensures Contains(Summary(query, total, vectorCount, graphCount), query)
  {
    var front := "Found " + NatToString(total) + " results for '";
    var back := "' " + ("(" + NatToString(vectorCount) + " from vector search, " + NatToString(graphCount) + " from graph search).");
    ContainsInside(front, query, back);
    assert Summary(query, total, vectorCount, graphCount) == front + query + back;
  }

  /**
   * There is a top line exactly when there are results; it shows the first 100 characters
   * of the top result's content (all of it when shorter) and is at most 116 long.
   */
  lemma TopLineFacts(results: seq<Fused>)
    ensures TopLine(results) == [] <==> results == []
    ensures results != [] ==>
      var top := results[0].hit.content.GetOr("");
      Contains(TopLine(results), top[..if |top| < 100 then |top| else 100])
      && |TopLine(results)| <= 116
  {
    if results != [] {
      var top := results[0].hit.content.GetOr("");
      var cut := Seqs.PyTake(top, 100);
      assert cut == top[..if |top| < 100 then |top| else 100];
      ContainsInside(" Top result: ", cut, "...");
    }
  }

  /**
   * A failure passes through unchanged. A success gains only the summary, which starts
   * with the counts line naming the original query and is followed by the first 100
   * characters of the top result's content (with "...") exactly when there are results.
   */
  lemma GenerateFacts(r: Response)
    ensures r.Failure? ==> GenerateSpec(r) == r
    ensures r.Success? ==>
      var g := GenerateSpec(r);
      var head := Summary(r.query, |r.results|, r.vectorCount, r.graphCount);
      g == r.(generated := g.generated) && g.generated.Some?
      && StartsWith(g.generated.value, head)
      && Contains(g.generated.value, r.query)
      && (r.results == [] <==> g.generated.value == head)
      && (r.results != [] ==>
            var top := r.results[0].hit.content.GetOr("");
            Contains(g.generated.value, top[..if |top| < 100 then |top| else 100])
            && |g.generated.value| <= |head| + 116)
  {
    if r.Success? {
      var head := Summary(r.query, |r.results|, r.vectorCount, r.graphCount);
      var tail := TopLine(r.results);
      assert (head + tail)[..|head|] == head;
      SummaryNamesQuery(r.query, |r.results|, r.vectorCount, r.graphCount);
      ContainsExtend(head, tail, r.query);
      TopLineFacts(r.results);
      if r.results != [] {
        var top := r.results[0].hit.content.GetOr("");
        ContainsAfter(head, tail, top[..if |top| < 100 then |top| else 100]);
      }
    }
  }

  class Pipeline {
    var initialized: bool

    /** A new pipeline is not initialised. */
    constructor ()
      ensures !initialized
    {
      initialized := false;
    }

    /**
     * `initialize`: runs the set-up only while not yet initialised. A set-up error is
     * re-raised (`Some`) and leaves the pipeline uninitialised; once initialised, later
     * calls do nothing whatever the services would answer.
     */
    method Initialize(s: Services) returns (error: Option<string>)
      modifies this
      ensures old(initialized) ==> initialized && error.None?
      ensures !old(initialized) ==> error == SetupError(s) && (initialized <==> error.None?)
    {
      if initialized {
        return None;
      }
      if s.hybridSetup.Some? {
        return s.hybridSetup;
      }
      if s.graphSetup.Some? {
        return s.graphSetup;
      }
      initialized := true;
      error := None;
    }

    /** `ensure_initialized`: `initialize` unless already initialised. */
    method EnsureInitialized(s: Services) returns (error: Option<string>)
      modifies this
      ensures old(initialized) ==> initialized && error.None?
      ensures !old(initialized) ==> error == SetupError(s) && (initialized <==> error.None?)
    {
      error := None;
      if !initialized {
        error := Initialize(s);
      }
    }

    /**
     * `retrieve`: a set-up error escapes (`Err`); afterwards every exception of the
     * extractor or a retriever becomes a failure response.
     */
    method Retrieve(query: string, topK: int, useGraph: bool, useVector: bool, filters: Filters,
                    s: Services, elapsed: real) returns (out: Result<Response>)
      modifies this
      ensures initialized <==> old(initialized) || SetupError(s).None?
      ensures !initialized ==> out == Err(SetupError(s).value)
      ensures initialized ==> out == Ok(RetrieveSpec(query, topK, useGraph, useVector, filters, s, elapsed))
    {
      var setup := EnsureInitialized(s);
      if setup.Some? {
        return Err(setup.value);
      }
      var processedQuery := Preprocess(query);
      var reply := s.extract(processedQuery);
      if reply.Err? {
        return Ok(Failure(reply.error, query));
      }
      var augmented := Augment(processedQuery, reply.value);
      var entities := augmented.entities;
      var vectorResults: seq<Hit> := [];
      var graphResults: seq<Hit> := [];
      if useVector {
        var vectorResponse := s.vector(processedQuery, topK, filters);
        if vectorResponse.Err? {
          return Ok(Failure(vectorResponse.error, query));
        }
        vectorResults := vectorResponse.value;
      }
      if useGraph && entities != [] {
        var graphResponse := s.graph(processedQuery, topK);
        if graphResponse.Err? {
          return Ok(Failure(graphResponse.error, query));
        }
        graphResults := graphResponse.value;
      }
      var fusedResults := FuseResults(vectorResults, graphResults, topK);
      out := Ok(Success(query, processedQuery, entities, fusedResults, |vectorResults|, |graphResults|,
                        |fusedResults|, elapsed, None));
    }

    /** `retrieve_and_generate`: `retrieve`, then the summary on success. */
    method RetrieveAndGenerate(query: string, topK: int, useGraph: bool, useVector: bool, filters: Filters,
                               s: Services, elapsed: real) returns (out: Result<Response>)
      modifies this
      ensures initialized <==> old(initialized) || SetupError(s).None?
      ensures !initialized ==> out == Err(SetupError(s).value)
      ensures initialized ==>
        out == Ok(GenerateSpec(RetrieveSpec(query, topK, useGraph, useVector, filters, s, elapsed)))
    {
      out := Retrieve(query, topK, useGraph, useVector, filters, s, elapsed);
      if out.Err? || out.value.Failure? {
        return;
      }
      var results := out.value;
      RetrieveKeepsQuery(query, topK, useGraph, useVector, filters, s, elapsed);
      var retrievedItems := results.results;
      var response := "Found " + NatToString(|retrievedItems|) + " results for '" + query + "' ";
      response := response + ("(" + NatToString(results.vectorCount) + " from vector search, "
                              + NatToString(results.graphCount) + " from graph search).");
      assert response == Summary(query, |retrievedItems|, results.vectorCount, results.graphCount);
      if retrievedItems != [] {
        response := response + (" Top result: " + Seqs.PyTake(retrievedItems[0].hit.content.GetOr(""), 100) + "...");
      }
      assert response == Summary(query, |retrievedItems|, results.vectorCount, results.graphCount) + TopLine(retrievedItems);
      out := Ok(results.(generated := Some(response)));
    }
  }
}
