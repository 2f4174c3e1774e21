/**
 * `HybridRetriever` of emvr/retrieval/hybrid_retriever.py: nodes fetched from the vector
 * index are optionally reranked by query-term overlap, then the first `top_k` are turned
 * into retrieval results. The index is given as a function from the requested count to
 * the nodes it returns.
 */
module HybridRetriever {
  import opened Outcomes
  import opened Text
  import opened RetrievalBase
  import Seqs

  /** A `NodeWithScore`: the node's id, text, optional score and metadata. */
  datatype ScoredNode = ScoredNode(nodeId: string, text: string, score: Option<real>, metadata: map<string, string>)

  /** The sort key `getattr(x, "score", 0.0)`. */
  function NodeKey(n: ScoredNode): real
  {
    n.score.GetOr(0.0)
  }

  /** `similarity_top_k`: twice `top_k` when reranking, so the rerank has candidates to drop. */
  function FetchSize(useReranking: bool, topK: int): (k: int)
    ensures useReranking ==> k == 2 * topK
    ensures !useReranking ==> k == topK
  {
    if useReranking then topK * 2 else topK
  }

  /** `len(query_terms.intersection(text_terms))`; a shared term means the query has terms. */
  function Overlap(query: string, text: string): (r: nat)
    ensures r == |Terms(query) * Terms(text)|
    ensures r > 0 ==> |Terms(query)| > 0
  {
    var shared := Terms(query) * Terms(text);
    assert Terms(query) == {} ==> shared == {};
    |shared|
  }

  /** One node after the rerank loop. */
  function RescoreNode(query: string, n: ScoredNode): ScoredNode
  {
    RescoreWith(n, Overlap(query, n.text), |Terms(query)|)
  }

  /** The new score for a node sharing `overlap` of the query's `queryCount` terms. */
  function RescoreWith(n: ScoredNode, overlap: nat, queryCount: nat): ScoredNode
    requires overlap > 0 ==> queryCount > 0
  {
    if overlap > 0
    then n.(score := Some(n.score.GetOr(0.0) * 0.5 + Boost(overlap, queryCount)))
    else n.(score := Some(n.score.GetOr(0.0)))
  }

  /**
   * A rescored node keeps its id, text and metadata and always has a score: a missing
   * score counts as 0.0; a node sharing no lowercase term with the query keeps it, and one
   * sharing `overlap` terms gets half of it plus `min(overlap / |query terms|, 1) * 0.5`,
   * so the new score stays within half a point of half the old one.
   */
  lemma RescoreNodeFacts(query: string, n: ScoredNode)
    ensures var r := RescoreNode(query, n);
      r.nodeId == n.nodeId && r.text == n.text && r.metadata == n.metadata && r.score.Some?
      && (Overlap(query, n.text) == 0 ==> r.score == Some(n.score.GetOr(0.0)))
      && (Overlap(query, n.text) > 0 ==>
            r.score.value == n.score.GetOr(0.0) * 0.5 + Boost(Overlap(query, n.text), |Terms(query)|)
            && n.score.GetOr(0.0) * 0.5 <= r.score.value <= n.score.GetOr(0.0) * 0.5 + 0.5)
  {
  }

  function Min(a: real, b: real): real { if a <= b then a else b }

  /** `min(overlap / len(query_terms), 1.0) * 0.5`, for a non-empty query term set. */
  function Boost(overlap: nat, queryCount: nat): (r: real)
    requires queryCount > 0
    ensures 0.0 <= r <= 0.5
    ensures overlap >= queryCount ==> r == 0.5
  {
    Min((overlap as real) / (queryCount as real), 1.0) * 0.5
  }

  function RescoreNodes(query: string, ns: seq<ScoredNode>): (r: seq<ScoredNode>)
    ensures |r| == |ns| && forall i :: 0 <= i < |ns| ==> r[i] == RescoreNode(query, ns[i])
  {
    seq(|ns|, i requires 0 <= i < |ns| => RescoreNode(query, ns[i]))
  }

  /** `_rerank_nodes` as a value: rescore, stable sort by descending score, first `top_k`. */
  function RerankSpec(query: string, ns: seq<ScoredNode>, topK: int): seq<ScoredNode>
  {
    Seqs.PyTake(Seqs.SortDesc(RescoreNodes(query, ns), NodeKey), topK)
  }

  /** The body of the rerank loop: one node's score is overwritten. */
  method RescoreInPlace(query: string, n: ScoredNode) returns (node: ScoredNode)
    ensures node == RescoreNode(query, n)
  {
    node := n;
    if node.score.None? {
      node := node.(score := Some(0.0));
    }
    var overlap := Overlap(query, node.text);
    if overlap > 0 {
      var boost := Boost(overlap, |Terms(query)|);
      node := node.(score := Some(node.score.value * 0.5 + boost));
    }
    assert node == RescoreWith(n, overlap, |Terms(query)|);
  }

  /** `_rerank_nodes`: the scores are overwritten node by node, then sorted and cut. */
  method RerankNodes(query: string, nodes: seq<ScoredNode>, topK: int) returns (r: seq<ScoredNode>)
    ensures r == RerankSpec(query, nodes, topK)
  {
    var ns := nodes;
    var i := 0;
    while i < |ns|
      invariant 0 <= i <= |ns| && |ns| == |nodes|
      invariant forall j :: 0 <= j < i ==> ns[j] == RescoreNode(query, nodes[j])
      invariant forall j :: i <= j < |ns| ==> ns[j] == nodes[j]
    {
      var node := RescoreInPlace(query, ns[i]);
      ns := ns[i := node];
      i := i + 1;
    }
    assert ns == RescoreNodes(query, nodes);
    r := Seqs.PyTake(Seqs.SortDesc(ns, NodeKey), topK);
  }

  /** The reranked list is ordered by descending score and holds at most `top_k` nodes. */
  lemma RerankSorted(query: string, ns: seq<ScoredNode>, topK: int)
    ensures var r := RerankSpec(query, ns, topK);
      Seqs.SortedDesc(r, NodeKey) && (topK >= 0 ==> |r| <= topK)
  {
    Seqs.SortDescFacts(RescoreNodes(query, ns), NodeKey);
  }

  /** Every reranked node is an input node with its rescored score. */
  lemma RerankFrom(query: string, ns: seq<ScoredNode>, topK: int, x: ScoredNode)
    requires x in RerankSpec(query, ns, topK)
    ensures exists i :: 0 <= i < |ns| && x == RescoreNode(query, ns[i])
  {
    var rescored := RescoreNodes(query, ns);
    var sorted := Seqs.SortDesc(rescored, NodeKey);
    Seqs.SortDescFacts(rescored, NodeKey);
    assert x in sorted;
    assert x in multiset(rescored);
    var i :| 0 <= i < |rescored| && rescored[i] == x;
  }

  /** When nothing is cut, nodes with equal new scores keep their input order. */
  lemma RerankStable(query: string, ns: seq<ScoredNode>, topK: int, k: real)
    requires topK >= |ns|
    ensures Seqs.WithKey(RerankSpec(query, ns, topK), NodeKey, k) == Seqs.WithKey(RescoreNodes(query, ns), NodeKey, k)
  {
    var rescored := RescoreNodes(query, ns);
    Seqs.SortDescFacts(rescored, NodeKey);
    assert RerankSpec(query, ns, topK) == Seqs.SortDesc(rescored, NodeKey);
  }

  /** The conversion of one node: id, text, score and metadata copied over. */
  function ToResult(n: ScoredNode): RetrievalResult
  {
    RetrievalResult(n.nodeId, n.text, n.score, n.metadata, None)
  }

  /** `retrieve` as a value, for the nodes the index returns. */
  function RetrieveSpec(useReranking: bool, query: string, topK: int, fetched: seq<ScoredNode>): (r: seq<RetrievalResult>)
  {
    var ns := if useReranking then RerankSpec(query, fetched, topK) else fetched;
    var kept := Seqs.PyTake(ns, topK);
    seq(|kept|, i requires 0 <= i < |kept| => ToResult(kept[i]))
  }

  /** `retrieve`: fetch, optionally rerank, then convert the first `top_k` nodes in order. */
  method Retrieve(useReranking: bool, query: string, topK: int, index: int -> seq<ScoredNode>)
    returns (results: seq<RetrievalResult>)
    ensures results == RetrieveSpec(useReranking, query, topK, index(FetchSize(useReranking, topK)))
  {
    var nodes := index(if useReranking then topK * 2 else topK);
    if useReranking {
      nodes := RerankNodes(query, nodes, topK);
    }
    var kept := Seqs.PyTake(nodes, topK);
    results := [];
    var i := 0;
    while i < |kept|
      invariant 0 <= i <= |kept|
      invariant |results| == i && forall j :: 0 <= j < i ==> results[j] == ToResult(kept[j])
    {
      var node := kept[i];
      results := results + [RetrievalResult(node.nodeId, node.text, node.score, node.metadata, None)];
      i := i + 1;
    }
  }

  /**
   * Without reranking the results are the first `top_k` fetched nodes, in order, with their
   * id, text, score and metadata.
   */
  lemma RetrieveUnranked(query: string, topK: int, fetched: seq<ScoredNode>)
    ensures var r := RetrieveSpec(false, query, topK, fetched);
      (topK >= 0 ==> |r| <= topK) && |r| <= |fetched|
      && forall i :: 0 <= i < |r| ==>
           r[i].id == fetched[i].nodeId && r[i].text == fetched[i].text
           && r[i].score == fetched[i].score && r[i].metadata == fetched[i].metadata
  {
    var kept := Seqs.PyTake(fetched, topK);
    assert kept == fetched[..|kept|];
    var r := RetrieveSpec(false, query, topK, fetched);
    forall i | 0 <= i < |r|
      ensures r[i].id == fetched[i].nodeId && r[i].text == fetched[i].text
      ensures r[i].score == fetched[i].score && r[i].metadata == fetched[i].metadata
    {
      assert r[i] == ToResult(kept[i]) && kept[i] == fetched[i];
    }
  }

  /** With reranking the results are ordered by the reranked score and at most `top_k` long. */
  lemma RetrieveRanked(query: string, topK: int, fetched: seq<ScoredNode>)
    ensures var r := RetrieveSpec(true, query, topK, fetched);
      (topK >= 0 ==> |r| <= topK)
      && forall i, j :: 0 <= i < j < |r| ==> r[i].score.GetOr(0.0) >= r[j].score.GetOr(0.0)
  {
    RerankSorted(query, fetched, topK);
    var ns := RerankSpec(query, fetched, topK);
    var kept := Seqs.PyTake(ns, topK);
    assert kept == ns[..|kept|];
    var r := RetrieveSpec(true, query, topK, fetched);
    forall i, j | 0 <= i < j < |r| ensures r[i].score.GetOr(0.0) >= r[j].score.GetOr(0.0) {
      assert r[i] == ToResult(kept[i]) && r[j] == ToResult(kept[j]);
      assert kept[i] == ns[i] && kept[j] == ns[j];
      assert NodeKey(ns[i]) >= NodeKey(ns[j]);
    }
  }
}
