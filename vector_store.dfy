/**
 * `QdrantMemoryStore` of emvr/memory/vector_store.py. The store does not reach Qdrant:
 * both searches build at most three canned results from the query and `top_k` alone.
 */
module VectorStore {
  import opened Text

  /** `{"id", "text", "metadata": {"source", "relevance"}, "score"}`. */
  datatype VectorHit = VectorHit(id: string, text: string, source: string, relevance: real, score: real)

  /** Which of the two searches produced a result. */
  datatype SearchKind = Similarity | Hybrid

  /** `range(min(top_k, 3))` has this many elements. */
  function MockCount(topK: int): (n: nat)
    ensures n <= 3
    ensures topK <= 0 ==> n == 0
    ensures 0 <= topK <= 3 ==> n == topK
    ensures topK >= 3 ==> n == 3
  {
    if topK <= 0 then 0 else if topK < 3 then topK else 3
  }

  /** The score of mock result `i`: 0.9 - 0.1·i, or 0.95 - 0.1·i for the hybrid search. */
  function MockScore(kind: SearchKind, i: nat): real
  {
    (if kind == Similarity then 0.9 else 0.95) - (i as real) * 0.1
  }

  /** Mock result `i` of a search for `query`. */
  function MockHit(kind: SearchKind, query: string, i: nat): VectorHit
  {
    match kind
    case Similarity =>
      VectorHit("mock-id-" + NatToString(i), "Mock document " + NatToString(i) + " matching query: " + query,
                "mock-data", MockScore(kind, i), MockScore(kind, i))
    case Hybrid =>
      VectorHit("hybrid-mock-id-" + NatToString(i), "Hybrid search result " + NatToString(i) + " for query: " + query,
                "hybrid-mock-data", MockScore(kind, i), MockScore(kind, i))
  }

  /** The results of a search: mock results 0, 1, ... up to the count. */
  function MockResults(kind: SearchKind, query: string, topK: int): (r: seq<VectorHit>)
    ensures |r| == MockCount(topK)
  {
    seq(MockCount(topK), i requires 0 <= i < MockCount(topK) => MockHit(kind, query, i))
  }

  /** similarity_search: the filters are accepted and ignored. */
  method SimilaritySearch(query: string, topK: int) returns (results: seq<VectorHit>)
    ensures results == MockResults(Similarity, query, topK)
  {
    results := [];
    var i := 0;
    while i < MockCount(topK)
      invariant 0 <= i <= MockCount(topK)
      invariant results == MockResults(Similarity, query, topK)[..i]
    {
      var n := NatToString(i);
      results := results + [VectorHit("mock-id-" + n, "Mock document " + n + " matching query: " + query,
                                      "mock-data", 0.9 - (i as real) * 0.1, 0.9 - (i as real) * 0.1)];
      i := i + 1;
    }
  }

  /** hybrid_search: the same shape, with its own ids, texts, source and higher scores. */
  method HybridSearch(query: string, topK: int) returns (results: seq<VectorHit>)
    ensures results == MockResults(Hybrid, query, topK)
  {
    results := [];
    var i := 0;
    while i < MockCount(topK)
      invariant 0 <= i <= MockCount(topK)
      invariant results == MockResults(Hybrid, query, topK)[..i]
    {
      var n := NatToString(i);
      results := results + [VectorHit("hybrid-mock-id-" + n, "Hybrid search result " + n + " for query: " + query,
                                      "hybrid-mock-data", 0.95 - (i as real) * 0.1, 0.95 - (i as real) * 0.1)];
      i := i + 1;
    }
  }

  lemma {:induction false} PrefixCancel(p: string, a: string, b: string)
    requires p + a == p + b
    ensures a == b
  {
    assert a == (p + a)[|p|..];
    assert b == (p + b)[|p|..];
  }

  /**
   * Every search result carries a distinct id, its score equals its relevance, scores
   * strictly decrease down the list, and every result names the store's mock source.
   */
  lemma MockResultsFacts(kind: SearchKind, query: string, topK: int)
    ensures var r := MockResults(kind, query, topK);
      (forall i, j :: 0 <= i < j < |r| ==> r[i].id != r[j].id && r[i].score > r[j].score)
      && (forall i :: 0 <= i < |r| ==>
            r[i].score == r[i].relevance
            && r[i].source == (if kind == Similarity then "mock-data" else "hybrid-mock-data"))
  {
    var r := MockResults(kind, query, topK);
    forall i, j | 0 <= i < j < |r| ensures r[i].id != r[j].id {
      if r[i].id == r[j].id {
        var p := if kind == Similarity then "mock-id-" else "hybrid-mock-id-";
        assert r[i].id == p + NatToString(i) && r[j].id == p + NatToString(j);
        PrefixCancel(p, NatToString(i), NatToString(j));
        NatToStringInjective(i, j);
      }
    }
  }
}
