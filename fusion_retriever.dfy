/**
 * `FusionRetriever` of emvr/retrieval/fusion_retriever.py: results of the vector, graph
 * and web retrievers are merged by id with weighted scores, sorted, optionally reranked,
 * and cut to `top_k`. The sub-retrievers are given as a function from (source, fetch size)
 * to their outcome.
 */
module FusionRetriever {
  import opened Outcomes
  import opened Text
  import opened RetrievalBase
  import Seqs

  datatype Source = VectorSource | GraphSource | WebSource

  function SourceName(s: Source): string
  {
    match s
    case VectorSource => "vector"
    case GraphSource => "graph"
    case WebSource => "web"
  }

  /** The retriever's settings; `hasWeb` is whether a web retriever is attached. */
  datatype Fusion = Fusion(vectorWeight: real, graphWeight: real, webWeight: real,
                           topKMultiplier: int, reranking: bool, hasWeb: bool)

  /** The constructor: the web retriever slot is always left empty. */
  function NewFusion(vectorWeight: real, graphWeight: real, webWeight: real,
                     topKMultiplier: int, reranking: bool): (f: Fusion)
    ensures !f.hasWeb
  {
    Fusion(vectorWeight, graphWeight, webWeight, topKMultiplier, reranking, false)
  }

  function Weight(f: Fusion, s: Source): real
  {
    match s
    case VectorSource => f.vectorWeight
    case GraphSource => f.graphWeight
    case WebSource => f.webWeight
  }

  // ---------------------------------------------------------------------------
  // The id-keyed dictionary of combined results, kept in insertion order
  // ---------------------------------------------------------------------------

  function Ids(acc: seq<RetrievalResult>): (r: seq<string>)
    ensures |r| == |acc| && forall i :: 0 <= i < |acc| ==> r[i] == acc[i].id
  {
    seq(|acc|, i requires 0 <= i < |acc| => acc[i].id)
  }

  predicate UniqueIds(acc: seq<RetrievalResult>)
  {
    forall i, j :: 0 <= i < j < |acc| ==> acc[i].id != acc[j].id
  }

  /** Where the entry for `id` is, if there is one. */
  function FindId(acc: seq<RetrievalResult>, id: string): (r: Option<nat>)
    ensures r.None? <==> id !in Ids(acc)
    ensures r.Some? ==> r.value < |acc| && acc[r.value].id == id
  {
    if acc == [] then None
    else if acc[0].id == id then Some(0)
    else
      assert Ids(acc) == [acc[0].id] + Ids(acc[1..]);
      match FindId(acc[1..], id)
      case None => None
      case Some(i) => Some(i + 1)
  }

  lemma {:induction false} FindIdSameIds(a: seq<RetrievalResult>, b: seq<RetrievalResult>, id: string)
    requires Ids(a) == Ids(b)
    ensures FindId(a, id) == FindId(b, id)
  {
    if a != [] {
      assert Ids(a[1..]) == Ids(a)[1..] && Ids(b[1..]) == Ids(b)[1..];
      FindIdSameIds(a[1..], b[1..], id);
    }
  }

  lemma {:induction false} FindIdAppend(acc: seq<RetrievalResult>, e: RetrievalResult, id: string)
    ensures FindId(acc + [e], id)
         == if id in Ids(acc) then FindId(acc, id) else if e.id == id then Some(|acc|) else None
  {
    if acc != [] {
      assert (acc + [e])[1..] == acc[1..] + [e];
      assert Ids(acc) == [acc[0].id] + Ids(acc[1..]);
      FindIdAppend(acc[1..], e, id);
    }
  }

  /** The combined score held for `id` (0 when there is no entry). */
  function ScoreOf(acc: seq<RetrievalResult>, id: string): real
  {
    match FindId(acc, id)
    case None => 0.0
    case Some(i) => acc[i].score.GetOr(0.0)
  }

  /** The sources list held for `id` (empty when there is no entry). */
  function SourcesOf(acc: seq<RetrievalResult>, id: string): seq<string>
  {
    match FindId(acc, id)
    case None => []
    case Some(i) => acc[i].sources.GetOr([])
  }

  /** What one hit adds to its entry's score: `(result.score or 0.5) * weight`. */
  function Weighted(h: RetrievalResult, w: real): real
  {
    OrHalf(h.score) * w
  }

  /** Reference definition: what the hits with this id add, `(score or 0.5) * weight` each. */
  function Contribution(hits: seq<RetrievalResult>, id: string, w: real): real
  {
    if hits == [] then 0.0
    else (if hits[0].id == id then Weighted(hits[0], w) else 0.0) + Contribution(hits[1..], id, w)
  }

  /** How many hits carry this id. */
  function CountId(hits: seq<RetrievalResult>, id: string): nat
  {
    if hits == [] then 0 else (if hits[0].id == id then 1 else 0) + CountId(hits[1..], id)
  }

  /**
   * The text a graph hit with relation metadata contributes. Reading `target_entity`
   * raises when only `source_entity` and `relation` are present.
   */
  function RelatedInfo(m: map<string, string>): Result<Option<string>>
  {
    if "source_entity" in m && "relation" in m then
      if "target_entity" in m
      then Ok(Some("\nRelated: " + m["source_entity"] + " --" + m["relation"] + "--> " + m["target_entity"]))
      else Err("'target_entity'")
    else Ok(None)
  }

  /** The entry a first hit with this id starts: `(score or 0.5) * weight`, sources `[name]`. */
  function Fresh(h: RetrievalResult, src: Source, w: real): RetrievalResult
  {
    RetrievalResult(h.id, h.text, Some(Weighted(h, w)), h.metadata, Some([SourceName(src)]))
  }

  /**
   * An existing entry after a further hit: its score grows, the source name is appended
   * ("vector" always, "graph" and "web" only when absent), and the related text, if any,
   * is appended when the entry's text does not already contain it.
   */
  function Merged(e: RetrievalResult, h: RetrievalResult, src: Source, w: real, info: Option<string>): RetrievalResult
  {
    var ss := e.sources.GetOr([]);
    var name := SourceName(src);
    e.(score := Some(e.score.GetOr(0.0) + Weighted(h, w)),
       sources := Some(if src == VectorSource || name !in ss then ss + [name] else ss),
       text := if info.Some? && !Contains(e.text, info.value) then e.text + info.value else e.text)
  }

  /** The related text a hit contributes: only graph hits read relation metadata. */
  function RelatedFor(h: RetrievalResult, src: Source): Result<Option<string>>
  {
    if src == GraphSource then RelatedInfo(h.metadata) else Ok(None)
  }

  /** One iteration of a source's loop in `_combine_results`. */
  function Absorb(acc: seq<RetrievalResult>, h: RetrievalResult, src: Source, w: real): Result<seq<RetrievalResult>>
  {
    match FindId(acc, h.id)
    case None => Ok(acc + [Fresh(h, src, w)])
    case Some(i) =>
      match RelatedFor(h, src)
      case Err(m) => Err(m)
      case Ok(info) => Ok(acc[i := Merged(acc[i], h, src, w, info)])
  }

  /** A source's whole loop; an exception abandons the combination. */
  function AbsorbAll(acc: seq<RetrievalResult>, hits: seq<RetrievalResult>, src: Source, w: real): Result<seq<RetrievalResult>>
    decreases |hits|
  {
    if hits == [] then Ok(acc)
    else match Absorb(acc, hits[0], src, w)
      case Err(m) => Err(m)
      case Ok(a) => AbsorbAll(a, hits[1..], src, w)
  }

  // ---------------------------------------------------------------------------
  // What one pass keeps
  // ---------------------------------------------------------------------------

  /**
   * The shape of one iteration: a new id appends a fresh entry; a known id has its entry
   * merged in place and no other entry changes.
   */
  lemma AbsorbShape(acc: seq<RetrievalResult>, h: RetrievalResult, src: Source, w: real)
    requires Absorb(acc, h, src, w).Ok?
    ensures var r := Absorb(acc, h, src, w).value;
      (h.id !in Ids(acc) ==> r == acc + [Fresh(h, src, w)])
      && (h.id in Ids(acc) ==>
            RelatedFor(h, src).Ok?
            && r == acc[FindId(acc, h.id).value := Merged(acc[FindId(acc, h.id).value], h, src, w, RelatedFor(h, src).value)])
  {
  }

  lemma AbsorbIds(acc: seq<RetrievalResult>, h: RetrievalResult, src: Source, w: real)
    requires Absorb(acc, h, src, w).Ok?
    ensures var r := Absorb(acc, h, src, w).value;
      (UniqueIds(acc) ==> UniqueIds(r))
      && (h.id in Ids(acc) ==> Ids(r) == Ids(acc))
      && (h.id !in Ids(acc) ==> Ids(r) == Ids(acc) + [h.id])
  {
    var r := Absorb(acc, h, src, w).value;
    AbsorbShape(acc, h, src, w);
    if h.id in Ids(acc) {
      var i := FindId(acc, h.id).value;
      assert r[i].id == acc[i].id;
      assert Ids(r) == Ids(acc);
    } else {
      assert Ids(r) == Ids(acc) + [h.id];
      assert forall j :: 0 <= j < |acc| ==> acc[j].id != h.id by {
        forall j | 0 <= j < |acc| ensures acc[j].id != h.id {
          assert Ids(acc)[j] == acc[j].id;
        }
      }
    }
  }

  /** The entry for `h.id` gains `h`'s weighted score; every other entry keeps its score. */
  lemma AbsorbScore(acc: seq<RetrievalResult>, h: RetrievalResult, src: Source, w: real, id: string)
    requires Absorb(acc, h, src, w).Ok?
    ensures ScoreOf(Absorb(acc, h, src, w).value, id)
         == ScoreOf(acc, id) + (if h.id == id then Weighted(h, w) else 0.0)
  {
    var r := Absorb(acc, h, src, w).value;
    AbsorbShape(acc, h, src, w);
    AbsorbIds(acc, h, src, w);
    if h.id in Ids(acc) {
      FindIdSameIds(r, acc, id);
    } else {
      assert r == acc + [r[|acc|]];
      FindIdAppend(acc, r[|acc|], id);
    }
  }

  /**
   * "vector" is added to the entry for `h.id` on every vector hit; "graph" and "web" are
   * added only when absent. Other entries keep their sources.
   */
  lemma AbsorbSources(acc: seq<RetrievalResult>, h: RetrievalResult, src: Source, w: real, id: string)
    requires Absorb(acc, h, src, w).Ok?
    ensures var before := SourcesOf(acc, id);
      var after := SourcesOf(Absorb(acc, h, src, w).value, id);
      (h.id != id ==> after == before)
      && (h.id == id && (src == VectorSource || SourceName(src) !in before) ==> after == before + [SourceName(src)])
      && (h.id == id && src != VectorSource && SourceName(src) in before ==> after == before)
  {
    var r := Absorb(acc, h, src, w).value;
    AbsorbShape(acc, h, src, w);
    AbsorbIds(acc, h, src, w);
    if h.id in Ids(acc) {
      FindIdSameIds(r, acc, id);
    } else {
      assert r == acc + [r[|acc|]];
      FindIdAppend(acc, r[|acc|], id);
    }
  }

  /**
   * A repeated graph hit with relation metadata leaves the entry's text holding the
   * `Related:` line, appending it only when the text did not already contain it.
   */
  lemma AbsorbRelated(acc: seq<RetrievalResult>, h: RetrievalResult, w: real, info: string)
    requires h.id in Ids(acc) && RelatedInfo(h.metadata) == Ok(Some(info))
    ensures Absorb(acc, h, GraphSource, w).Ok?
    ensures var i := FindId(acc, h.id).value;
      var t := Absorb(acc, h, GraphSource, w).value[i].text;
      Contains(t, info)
      && (Contains(acc[i].text, info) ==> t == acc[i].text)
      && (!Contains(acc[i].text, info) ==> t == acc[i].text + info)
  {
    var i := FindId(acc, h.id).value;
    if !Contains(acc[i].text, info) {
      ContainsInside(acc[i].text, info, []);
      assert acc[i].text + info + [] == acc[i].text + info;
    }
  }

  /** Across a whole source's loop ids stay unique, and the ids are the old ones plus the hits'. */
  lemma {:induction false} AbsorbAllIds(acc: seq<RetrievalResult>, hits: seq<RetrievalResult>, src: Source, w: real)
    requires AbsorbAll(acc, hits, src, w).Ok?
    ensures var r := AbsorbAll(acc, hits, src, w).value;
      (UniqueIds(acc) ==> UniqueIds(r))
      && (forall id :: id in Ids(r) <==> id in Ids(acc) || exists h :: h in hits && h.id == id)
    decreases |hits|
  {
    if hits != [] {
      var a := Absorb(acc, hits[0], src, w).value;
      var r := AbsorbAll(a, hits[1..], src, w).value;
      assert AbsorbAll(acc, hits, src, w).value == r;
      AbsorbIds(acc, hits[0], src, w);
      AbsorbAllIds(a, hits[1..], src, w);
      assert hits == [hits[0]] + hits[1..];
      forall id ensures id in Ids(r) <==> id in Ids(acc) || exists h :: h in hits && h.id == id {
        assert id in Ids(a) <==> id in Ids(acc) || id == hits[0].id;
        if exists h :: h in hits[1..] && h.id == id {
          var h :| h in hits[1..] && h.id == id;
          assert h in hits;
        }
        if exists h :: h in hits && h.id == id {
          var h :| h in hits && h.id == id;
          assert h == hits[0] || h in hits[1..];
        }
      }
    }
  }

  /** Across a whole source's loop each id's score grows by exactly its hits' weighted scores. */
  lemma {:induction false} AbsorbAllScore(acc: seq<RetrievalResult>, hits: seq<RetrievalResult>, src: Source, w: real, id: string)
    requires AbsorbAll(acc, hits, src, w).Ok?
    ensures ScoreOf(AbsorbAll(acc, hits, src, w).value, id) == ScoreOf(acc, id) + Contribution(hits, id, w)
    decreases |hits|
  {
    if hits != [] {
      var a := Absorb(acc, hits[0], src, w).value;
      AbsorbScore(acc, hits[0], src, w, id);
      AbsorbAllScore(a, hits[1..], src, w, id);
    }
  }

  /** Across the vector loop each id's sources grow by one "vector" per hit with that id. */
  lemma {:induction false} AbsorbAllVector(acc: seq<RetrievalResult>, hits: seq<RetrievalResult>, w: real, id: string)
    requires AbsorbAll(acc, hits, VectorSource, w).Ok?
    ensures SourcesOf(AbsorbAll(acc, hits, VectorSource, w).value, id)
         == SourcesOf(acc, id) + Repeat("vector", CountId(hits, id))
    decreases |hits|
  {
    if hits != [] {
      var a := Absorb(acc, hits[0], VectorSource, w).value;
      AbsorbSources(acc, hits[0], VectorSource, w, id);
      AbsorbAllVector(a, hits[1..], w, id);
      if hits[0].id == id {
        assert Repeat("vector", CountId(hits, id)) == ["vector"] + Repeat("vector", CountId(hits[1..], id));
      } else {
        assert SourcesOf(acc, id) + [] == SourcesOf(acc, id);
      }
    }
  }

  /** With graph or web hits, that source's name ends up at most once in any entry's sources. */
  lemma {:induction false} AbsorbAllOnce(acc: seq<RetrievalResult>, hits: seq<RetrievalResult>, src: Source, w: real, id: string)
    requires src != VectorSource && AbsorbAll(acc, hits, src, w).Ok?
    requires multiset(SourcesOf(acc, id))[SourceName(src)] <= 1
    ensures multiset(SourcesOf(AbsorbAll(acc, hits, src, w).value, id))[SourceName(src)] <= 1
    decreases |hits|
  {
    if hits != [] {
      var a := Absorb(acc, hits[0], src, w).value;
      AbsorbSources(acc, hits[0], src, w, id);
      AbsorbAllOnce(a, hits[1..], src, w, id);
    }
  }

  function Repeat(x: string, n: nat): (r: seq<string>)
    ensures |r| == n && forall i :: 0 <= i < n ==> r[i] == x
  {
    if n == 0 then [] else [x] + Repeat(x, n - 1)
  }

  // ---------------------------------------------------------------------------
  // _combine_results and _rerank_results
  // ---------------------------------------------------------------------------

  /** The three loops, each run only when its source is present. */
  function CombineSources(f: Fusion, vector: Option<seq<RetrievalResult>>, graph: Option<seq<RetrievalResult>>,
                          web: Option<seq<RetrievalResult>>): Result<seq<RetrievalResult>>
  {
    var a := if vector.Some? then AbsorbAll([], vector.value, VectorSource, f.vectorWeight) else Ok([]);
    if a.Err? then a
    else
      var b := if graph.Some? then AbsorbAll(a.value, graph.value, GraphSource, f.graphWeight) else a;
      if b.Err? then b
      else if web.Some? then AbsorbAll(b.value, web.value, WebSource, f.webWeight) else b
  }

  function Min(a: real, b: real): real { if a <= b then a else b }

  /** `min(overlap / max(len(query_terms), 1), 1.0) * 0.3`. */
  function OverlapScore(queryTerms: set<string>, textTerms: set<string>): (r: real)
    ensures 0.0 <= r <= 0.3
    ensures queryTerms * textTerms == {} ==> r == 0.0
  {
    var overlap := |queryTerms * textTerms|;
    var d := if |queryTerms| > 1 then |queryTerms| else 1;
    Min((overlap as real) / (d as real), 1.0) * 0.3
  }

  /** `min(source_count / 3, 1.0) * 0.2`. */
  function DiversityScore(sourceCount: nat): (r: real)
    ensures 0.0 <= r <= 0.2
    ensures sourceCount >= 3 ==> r == 0.2
  {
    Min((sourceCount as real) / 3.0, 1.0) * 0.2
  }

  /**
   * The new score `_rerank_results` gives one result: half the old score (or 0.5), plus at
   * most 0.3 for shared query terms and at most 0.2 for coming from several sources.
   */
  function Rescore(query: string, r: RetrievalResult): (s: RetrievalResult)
    ensures s.id == r.id && s.text == r.text && s.metadata == r.metadata && s.sources == r.sources
    ensures s.score.Some? && OrHalf(r.score) * 0.5 <= s.score.value <= OrHalf(r.score) * 0.5 + 0.5
  {
    r.(score := Some(OrHalf(r.score) * 0.5 + OverlapScore(Terms(query), Terms(r.text))
                     + DiversityScore(|r.sources.GetOr([])|)))
  }

  function RescoreAll(query: string, rs: seq<RetrievalResult>): (r: seq<RetrievalResult>)
    ensures |r| == |rs| && forall i :: 0 <= i < |rs| ==> r[i] == Rescore(query, rs[i])
  {
    seq(|rs|, i requires 0 <= i < |rs| => Rescore(query, rs[i]))
  }

  /** `_rerank_results`: every result rescored, then a stable sort by the new score. */
  function Rerank(query: string, rs: seq<RetrievalResult>): seq<RetrievalResult>
  {
    Seqs.SortDesc(RescoreAll(query, rs), ScoreKey)
  }

  /** `_combine_results`: combine, sort by combined score, rerank if enabled, keep `[:top_k]`. */
  function Combine(f: Fusion, query: string, vector: Option<seq<RetrievalResult>>,
                   graph: Option<seq<RetrievalResult>>, web: Option<seq<RetrievalResult>>,
                   topK: int): Result<seq<RetrievalResult>>
  {
    match CombineSources(f, vector, graph, web)
    case Err(m) => Err(m)
    case Ok(l) =>
      var sorted := Seqs.SortDesc(l, ScoreKey);
      Ok(Seqs.PyTake(if f.reranking then Rerank(query, sorted) else sorted, topK))
  }

  /**
   * The combined output has one entry per id, is ordered by score (the reranked score
   * when reranking is on), and holds at most `top_k` results; a negative `top_k` drops
   * that many from the end, as Python slicing does.
   */
  lemma CombineFacts(f: Fusion, query: string, vector: Option<seq<RetrievalResult>>,
                     graph: Option<seq<RetrievalResult>>, web: Option<seq<RetrievalResult>>, topK: int)
    requires Combine(f, query, vector, graph, web, topK).Ok?
    ensures var r := Combine(f, query, vector, graph, web, topK).value;
      Seqs.SortedDesc(r, ScoreKey)
      && UniqueIds(r)
      && (topK >= 0 ==> |r| <= topK)
  {
    var l := CombineSources(f, vector, graph, web).value;
    CombineSourcesUnique(f, vector, graph, web);
    var sorted := Seqs.SortDesc(l, ScoreKey);
    var pre := if f.reranking then Rerank(query, sorted) else sorted;
    OrderedUnique(f, query, l);
    TakeOrderedUnique(pre, topK);
  }

  /** Sorting, and reranking when it is on, keeps ids unique and orders by score. */
  lemma OrderedUnique(f: Fusion, query: string, l: seq<RetrievalResult>)
    requires UniqueIds(l)
    ensures var sorted := Seqs.SortDesc(l, ScoreKey);
      var pre := if f.reranking then Rerank(query, sorted) else sorted;
      Seqs.SortedDesc(pre, ScoreKey) && UniqueIds(pre)
  {
    var sorted := Seqs.SortDesc(l, ScoreKey);
    Seqs.SortDescFacts(l, ScoreKey);
    UniqueIdsPermutation(l, sorted);
    if f.reranking {
      var rescored := RescoreAll(query, sorted);
      assert Ids(rescored) == Ids(sorted);
      Seqs.SortDescFacts(rescored, ScoreKey);
      UniqueIdsPermutation(rescored, Rerank(query, sorted));
    }
  }

  /** A Python slice `[:top_k]` of an ordered list with unique ids is one too. */
  lemma TakeOrderedUnique(pre: seq<RetrievalResult>, topK: int)
    requires Seqs.SortedDesc(pre, ScoreKey) && UniqueIds(pre)
    ensures var r := Seqs.PyTake(pre, topK);
      Seqs.SortedDesc(r, ScoreKey) && UniqueIds(r) && (topK >= 0 ==> |r| <= topK)
  {
    var r := Seqs.PyTake(pre, topK);
    assert r == pre[..|r|];
  }

  lemma CombineSourcesUnique(f: Fusion, vector: Option<seq<RetrievalResult>>, graph: Option<seq<RetrievalResult>>,
                             web: Option<seq<RetrievalResult>>)
    requires CombineSources(f, vector, graph, web).Ok?
    ensures UniqueIds(CombineSources(f, vector, graph, web).value)
  {
    var a := if vector.Some? then AbsorbAll([], vector.value, VectorSource, f.vectorWeight) else Ok([]);
    if vector.Some? { AbsorbAllIds([], vector.value, VectorSource, f.vectorWeight); }
    var b := if graph.Some? then AbsorbAll(a.value, graph.value, GraphSource, f.graphWeight) else a;
    if graph.Some? { AbsorbAllIds(a.value, graph.value, GraphSource, f.graphWeight); }
    if web.Some? && b.Ok? { AbsorbAllIds(b.value, web.value, WebSource, f.webWeight); }
  }

  /** A permutation of a list with unique ids has unique ids. */
  lemma UniqueIdsPermutation(a: seq<RetrievalResult>, b: seq<RetrievalResult>)
    requires UniqueIds(a) && multiset(a) == multiset(b)
    ensures UniqueIds(b)
  {
    forall i, j | 0 <= i < j < |b| ensures b[i].id != b[j].id {
      assert b[i] in multiset(a) && b[j] in multiset(a);
      var p :| 0 <= p < |a| && a[p] == b[i];
      var q :| 0 <= q < |a| && a[q] == b[j];
      MultisetUnique(a, p);
      OnceDistinct(b, i, j);
      assert p != q;
    }
  }

  /** An element that occurs once differs from every later element. */
  lemma OnceDistinct<T>(s: seq<T>, i: nat, j: nat)
    requires i < j < |s| && multiset(s)[s[i]] == 1
    ensures s[i] != s[j]
  {
    assert s == s[..j] + [s[j]] + s[j + 1..];
    assert s[..j][i] == s[i];
    assert multiset(s[..j])[s[i]] >= 1;
  }

  /** With unique ids, each element occurs once. */
  lemma MultisetUnique(a: seq<RetrievalResult>, p: nat)
    requires UniqueIds(a) && p < |a|
    ensures multiset(a)[a[p]] == 1
  {
    assert a == a[..p] + [a[p]] + a[p + 1..];
    assert a[p] !in a[..p] by {
      forall k | 0 <= k < p ensures a[k] != a[p] { assert a[k].id != a[p].id; }
    }
    assert a[p] !in a[p + 1..] by {
      forall k | p + 1 <= k < |a| ensures a[k] != a[p] { assert a[p].id != a[k].id; }
    }
  }

  // ---------------------------------------------------------------------------
  // The loops of _combine_results and _rerank_results, and retrieve
  // ---------------------------------------------------------------------------

  /** One source's loop of `_combine_results`, updating the combined entries in place. */
  method AbsorbLoop(acc: seq<RetrievalResult>, hits: seq<RetrievalResult>, src: Source, w: real)
    returns (r: Result<seq<RetrievalResult>>)
    ensures r == AbsorbAll(acc, hits, src, w)
  {
    var combined := acc;
    var name := SourceName(src);
    var i := 0;
    while i < |hits|
      invariant 0 <= i <= |hits|
      invariant AbsorbAll(combined, hits[i..], src, w) == AbsorbAll(acc, hits, src, w)
    {
      var h := hits[i];
      assert hits[i..][1..] == hits[i + 1..];
      var found := FindId(combined, h.id);
      if found.None? {
        var entry := RetrievalResult(h.id, h.text, Some(Weighted(h, w)), h.metadata, Some([name]));
        assert Absorb(combined, h, src, w) == Ok(combined + [entry]);
        combined := combined + [entry];
      } else {
        var k := found.value;
        var merged := MergeHit(combined[k], h, src, w);
        if merged.Err? {
          return Err(merged.error);
        }
        combined := combined[k := merged.value];
      }
      i := i + 1;
    }
    assert hits[i..] == [];
    r := Ok(combined);
  }

  /** The body of the loop for a hit whose id already has an entry `e`. */
  method MergeHit(e: RetrievalResult, h: RetrievalResult, src: Source, w: real) returns (r: Result<RetrievalResult>)
    ensures RelatedFor(h, src).Err? ==> r == Err(RelatedFor(h, src).error)
    ensures RelatedFor(h, src).Ok? ==> r == Ok(Merged(e, h, src, w, RelatedFor(h, src).value))
  {
    var name := SourceName(src);
    var existing := e;
    var ss := existing.sources.GetOr([]);
    existing := existing.(score := Some(existing.score.GetOr(0.0) + Weighted(h, w)));
    if src == VectorSource || name !in ss {
      ss := ss + [name];
    }
    existing := existing.(sources := Some(ss));
    if src == GraphSource && "source_entity" in h.metadata && "relation" in h.metadata {
      if "target_entity" !in h.metadata {
        return Err("'target_entity'");
      }
      var info := "\nRelated: " + h.metadata["source_entity"] + " --" + h.metadata["relation"]
                  + "--> " + h.metadata["target_entity"];
      assert RelatedFor(h, src) == Ok(Some(info));
      if !Contains(existing.text, info) {
        existing := existing.(text := existing.text + info);
      }
    } else {
      assert RelatedFor(h, src) == Ok(None);
    }
    r := Ok(existing);
  }

  /** One iteration of `_rerank_results`, given the query's terms. */
  method RescoreOne(query: string, queryTerms: set<string>, result: RetrievalResult) returns (r: RetrievalResult)
    requires queryTerms == Terms(query)
    ensures r == Rescore(query, result)
  {
    var baseScore := OrHalf(result.score);
    var overlapScore := OverlapScore(queryTerms, Terms(result.text));
    var diversityScore := DiversityScore(|result.sources.GetOr([])|);
    r := result.(score := Some(baseScore * 0.5 + overlapScore + diversityScore));
  }

  /** `_rerank_results`: each result's score is overwritten in turn, then the list is re-sorted. */
  method RerankResults(query: string, results: seq<RetrievalResult>) returns (r: seq<RetrievalResult>)
    ensures r == Rerank(query, results)
  {
    var queryTerms := Terms(query);
    var rs := results;
    var i := 0;
    while i < |rs|
      invariant 0 <= i <= |rs| && |rs| == |results|
      invariant forall j :: 0 <= j < i ==> rs[j] == Rescore(query, results[j])
      invariant forall j :: i <= j < |rs| ==> rs[j] == results[j]
    {
      var rescored := RescoreOne(query, queryTerms, rs[i]);
      rs := rs[i := rescored];
      i := i + 1;
    }
    assert rs == RescoreAll(query, results);
    r := Seqs.SortDesc(rs, ScoreKey);
  }

  /** `_combine_results`: the three loops, the sort by score, the optional rerank and `[:top_k]`. */
  method CombineResults(f: Fusion, query: string, vector: Option<seq<RetrievalResult>>,
                        graph: Option<seq<RetrievalResult>>, web: Option<seq<RetrievalResult>>, topK: int)
    returns (r: Result<seq<RetrievalResult>>)
    ensures r == Combine(f, query, vector, graph, web, topK)
  {
    var combined: seq<RetrievalResult> := [];
    if vector.Some? {
      var a := AbsorbLoop(combined, vector.value, VectorSource, f.vectorWeight);
      if a.Err? {
        return Err(a.error);
      }
      combined := a.value;
    }
    if graph.Some? {
      var a := AbsorbLoop(combined, graph.value, GraphSource, f.graphWeight);
      if a.Err? {
        return Err(a.error);
      }
      combined := a.value;
    }
    if web.Some? {
      var a := AbsorbLoop(combined, web.value, WebSource, f.webWeight);
      if a.Err? {
        return Err(a.error);
      }
      combined := a.value;
    }
    var list := Seqs.SortDesc(combined, ScoreKey);
    if f.reranking {
      list := RerankResults(query, list);
    }
    r := Ok(Seqs.PyTake(list, topK));
  }

  /** `initial_top_k`: the per-source fetch size. */
  function InitialTopK(f: Fusion, topK: int): int
  {
    if f.reranking then topK * f.topKMultiplier else topK
  }

  /** Whether `retrieve` asks a source: a positive weight, and for the web an attached retriever. */
  predicate Consulted(f: Fusion, s: Source)
  {
    match s
    case VectorSource => f.vectorWeight > 0.0
    case GraphSource => f.graphWeight > 0.0
    case WebSource => f.webWeight > 0.0 && f.hasWeb
  }

  /** A sub-retriever's contribution to `source_results`: absent when not consulted. */
  function Fetched(f: Fusion, s: Source, k: int, fetch: (Source, int) -> Result<seq<RetrievalResult>>)
    : Result<Option<seq<RetrievalResult>>>
  {
    if !Consulted(f, s) then Ok(None)
    else match fetch(s, k)
      case Err(m) => Err(m)
      case Ok(v) => Ok(Some(v))
  }

  /**
   * `retrieve`: the sub-retrievers, given as `fetch`, are asked for `initial_top_k` results
   * each; the combination is returned, and any failure turns into an empty list.
   */
  function RetrieveSpec(f: Fusion, query: string, topK: int, fetch: (Source, int) -> Result<seq<RetrievalResult>>)
    : seq<RetrievalResult>
  {
    var k := InitialTopK(f, topK);
    var v := Fetched(f, VectorSource, k, fetch);
    var g := Fetched(f, GraphSource, k, fetch);
    var w := Fetched(f, WebSource, k, fetch);
    if v.Err? || g.Err? || w.Err? then []
    else match Combine(f, query, v.value, g.value, w.value, topK)
      case Err(_) => []
      case Ok(r) => r
  }

  method Retrieve(f: Fusion, query: string, topK: int, fetch: (Source, int) -> Result<seq<RetrievalResult>>)
    returns (results: seq<RetrievalResult>)
    ensures results == RetrieveSpec(f, query, topK, fetch)
  {
    var initialTopK := if f.reranking then topK * f.topKMultiplier else topK;
    var vector: Option<seq<RetrievalResult>> := None;
    var graph: Option<seq<RetrievalResult>> := None;
    var web: Option<seq<RetrievalResult>> := None;
    if f.vectorWeight > 0.0 {
      var v := fetch(VectorSource, initialTopK);
      if v.Err? {
        return [];
      }
      vector := Some(v.value);
    }
    if f.graphWeight > 0.0 {
      var g := fetch(GraphSource, initialTopK);
      if g.Err? {
        return [];
      }
      graph := Some(g.value);
    }
    if f.webWeight > 0.0 && f.hasWeb {
      var w := fetch(WebSource, initialTopK);
      if w.Err? {
        return [];
      }
      web := Some(w.value);
    }
    var c := CombineResults(f, query, vector, graph, web, topK);
    results := if c.Ok? then c.value else [];
  }

  /**
   * Only the consulted sources matter, and each only through a fetch of `initial_top_k`
   * results: two sub-retriever behaviours that agree there give the same answer. With the
   * constructor's settings the web source is never consulted.
   */
  lemma RetrieveConsults(f: Fusion, query: string, topK: int,
                         fetch1: (Source, int) -> Result<seq<RetrievalResult>>,
                         fetch2: (Source, int) -> Result<seq<RetrievalResult>>)
    requires forall s :: Consulted(f, s) ==> fetch1(s, InitialTopK(f, topK)) == fetch2(s, InitialTopK(f, topK))
    ensures RetrieveSpec(f, query, topK, fetch1) == RetrieveSpec(f, query, topK, fetch2)
    ensures !f.hasWeb ==> !Consulted(f, WebSource)
  {
    var k := InitialTopK(f, topK);
    assert Fetched(f, VectorSource, k, fetch1) == Fetched(f, VectorSource, k, fetch2);
    assert Fetched(f, GraphSource, k, fetch1) == Fetched(f, GraphSource, k, fetch2);
    assert Fetched(f, WebSource, k, fetch1) == Fetched(f, WebSource, k, fetch2);
  }

  /** Any failure of a consulted sub-retriever makes `retrieve` return an empty list. */
  lemma RetrieveFails(f: Fusion, query: string, topK: int, fetch: (Source, int) -> Result<seq<RetrievalResult>>, s: Source)
    requires Consulted(f, s) && fetch(s, InitialTopK(f, topK)).Err?
    ensures RetrieveSpec(f, query, topK, fetch) == []
  {
    assert Fetched(f, s, InitialTopK(f, topK), fetch).Err?;
  }

  /** What `retrieve` returns is sorted by score, holds one result per id and at most `top_k` of them. */
  lemma RetrieveFacts(f: Fusion, query: string, topK: int, fetch: (Source, int) -> Result<seq<RetrievalResult>>)
    ensures var r := RetrieveSpec(f, query, topK, fetch);
      Seqs.SortedDesc(r, ScoreKey) && UniqueIds(r) && (topK >= 0 ==> |r| <= topK)
  {
    var k := InitialTopK(f, topK);
    var v := Fetched(f, VectorSource, k, fetch);
    var g := Fetched(f, GraphSource, k, fetch);
    var w := Fetched(f, WebSource, k, fetch);
    if !(v.Err? || g.Err? || w.Err?) && Combine(f, query, v.value, g.value, w.value, topK).Ok? {
      CombineFacts(f, query, v.value, g.value, w.value, topK);
    }
  }
}
