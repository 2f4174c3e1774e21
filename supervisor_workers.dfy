/**
 * The tools and `run` envelopes of the worker agents in emvr/agent/supervisor/workers.py:
 * the search tools' numbered listings, the read-graph and search-nodes renderers with
 * their display limits, the create/add tools' confirmations, and the result envelope.
 *
 * The renderers read the dicts the memory manager returns by key; `RelationGet`,
 * `SearchGet` and `RowObservations` are those lookups on the rows of `GraphStore`.
 */
module SupervisorWorkers {
  import opened Outcomes
  import opened Text
  import opened AgentBase
  import opened RetrievalBase
  import opened GraphStore
  import MemoryManager
  import Seqs

  // ---------------------------------------------------------------------------
  // Search tools
  // ---------------------------------------------------------------------------

  const NoResults: string := "No results found."
  const NoGraphResults: string := "No results found in the knowledge graph."

  /** `metadata.get(key, 'Unknown')`. */
  function OrUnknown(metadata: map<string, string>, key: string): string
  {
    if key in metadata then metadata[key] else "Unknown"
  }

  /** The listing entry of the `n`-th result; the asynchronous tools add a relevance line. */
  function Entry(r: RetrievalResult, n: nat, relevance: bool): string
  {
    "[" + NatToString(n) + "] " + r.text + "\nSource: " + OrUnknown(r.metadata, "source")
    + (if relevance then "\nRelevance: " + OrUnknown(r.metadata, "score") else "")
  }

  function Entries(rs: seq<RetrievalResult>, relevance: bool): (r: seq<string>)
    ensures |r| == |rs| && forall i :: 0 <= i < |rs| ==> r[i] == Entry(rs[i], i + 1, relevance)
  {
    seq(|rs|, i requires 0 <= i < |rs| => Entry(rs[i], i + 1, relevance))
  }

  /** What a search tool answers for the retriever's results. */
  function SearchSpec(rs: seq<RetrievalResult>, relevance: bool, emptyText: string): string
  {
    if rs == [] then emptyText else Join(Entries(rs, relevance), "\n\n")
  }

  /**
   * An entry opens with its number in brackets and the result's text, then names the
   * result's source ("Unknown" when the metadata has none).
   */
  lemma EntryFacts(r: RetrievalResult, n: nat, relevance: bool)
    ensures StartsWith(Entry(r, n, relevance), "[" + NatToString(n) + "] " + r.text)
    ensures Contains(Entry(r, n, relevance), "\nSource: " + OrUnknown(r.metadata, "source"))
  {
    var head := "[" + NatToString(n) + "] " + r.text;
    var src := "\nSource: " + OrUnknown(r.metadata, "source");
    var tail := if relevance then "\nRelevance: " + OrUnknown(r.metadata, "score") else "";
    assert Entry(r, n, relevance) == head + (src + tail);
    assert (head + (src + tail))[..|head|] == head;
    ContainsInside(head, src, tail);
    assert head + src + tail == head + (src + tail);
  }

  /**
   * A search tool answers its "no results" text exactly when there are no results;
   * otherwise the answer lists every result's entry, numbered from 1, in order.
   */
  lemma SearchFacts(rs: seq<RetrievalResult>, relevance: bool, emptyText: string)
    requires emptyText == NoResults || emptyText == NoGraphResults
    ensures SearchSpec(rs, relevance, emptyText) == emptyText <==> rs == []
    ensures forall i :: 0 <= i < |rs| ==> Contains(SearchSpec(rs, relevance, emptyText), Entry(rs[i], i + 1, relevance))
  {
    if rs != [] {
      var es := Entries(rs, relevance);
      JoinFirst(es, "\n\n");
      assert es[0][0] == '[';
      assert SearchSpec(rs, relevance, emptyText)[0] != emptyText[0];
      forall i | 0 <= i < |rs| ensures Contains(SearchSpec(rs, relevance, emptyText), Entry(rs[i], i + 1, relevance)) {
        JoinContains(es, "\n\n", i);
      }
    }
  }

  /**
   * The search tools (`search`, `kg_search`, sync and async): the listing built entry by
   * entry.
   */
  method SearchTool(results: seq<RetrievalResult>, relevance: bool, emptyText: string) returns (output: string)
    ensures output == SearchSpec(results, relevance, emptyText)
  {
    if results == [] {
      return emptyText;
    }
    var formattedResults: seq<string> := [];
    var i := 0;
    while i < |results|
      invariant 0 <= i <= |results| && |formattedResults| == i
      invariant forall j :: 0 <= j < i ==> formattedResults[j] == Entry(results[j], j + 1, relevance)
    {
      var result := results[i];
      var entry := "[" + NatToString(i + 1) + "] " + result.text + "\nSource: " + OrUnknown(result.metadata, "source");
      if relevance {
        entry := entry + ("\nRelevance: " + OrUnknown(result.metadata, "score"));
      }
      formattedResults := formattedResults + [entry];
      i := i + 1;
    }
    assert formattedResults == Entries(results, relevance);
    output := Join(formattedResults, "\n\n");
  }

  // ---------------------------------------------------------------------------
  // Observation previews
  // ---------------------------------------------------------------------------

  /** How many entities, relations and observations per entity a renderer shows. */
  datatype Limits = Limits(entities: nat, relations: nat, preview: nat)

  /** The literal limits of workers.py. */
  const WorkerLimits: Limits := Limits(10, 10, 3)

  /** The count of observations left out of a preview. */
  function MoreNote(remaining: nat): string
  {
    " (and " + NatToString(remaining) + " more)"
  }

  /** `", ".join(observations[:preview])`, plus the note when some are left out. */
  function ObservationText(obs: seq<string>, preview: nat): string
  {
    Join(Seqs.PyTake(obs, preview), ", ") + (if |obs| > preview then MoreNote(|obs| - preview) else "")
  }

  /**
   * A preview shows the first `preview` observations, each in full; it is the preview of
   * those observations alone, followed by the count of the others exactly when there are
   * others.
   */
  lemma ObservationTextFacts(obs: seq<string>, preview: nat)
    ensures ObservationText(obs, preview)
         == ObservationText(Seqs.PyTake(obs, preview), preview) + (if |obs| > preview then MoreNote(|obs| - preview) else "")
    ensures forall i :: 0 <= i < |obs| && i < preview ==> Contains(ObservationText(obs, preview), obs[i])
  {
    var shown := Seqs.PyTake(obs, preview);
    assert Seqs.PyTake(shown, preview) == shown;
    forall i | 0 <= i < |obs| && i < preview ensures Contains(ObservationText(obs, preview), obs[i]) {
      assert shown[i] == obs[i];
      JoinContains(shown, ", ", i);
      ContainsExtend(Join(shown, ", "), if |obs| > preview then MoreNote(|obs| - preview) else "", obs[i]);
    }
  }

  // ---------------------------------------------------------------------------
  // read_graph rendering
  // ---------------------------------------------------------------------------

  const EmptyGraph: string := "Knowledge graph is empty."
  const PartialNote: string := "\n\n(Showing partial results)"

  /** `f"{value}"` of a `dict.get`: an absent key prints as "None". */
  function Formatted(value: Option<string>): string
  {
    value.GetOr("None")
  }

  /** `relation.get(key)` on a read_graph relation row, whose keys are "from", "relation", "to". */
  function RelationGet(r: RelationRow, key: string): Option<string>
  {
    if key == "from" then Some(r.from)
    else if key == "relation" then Some(r.relation)
    else if key == "to" then Some(r.to)
    else None
  }

  /** One entity line: name, type and observation preview. */
  function EntityLine(e: EntityRow, preview: nat): string
  {
    e.name + " (" + e.entityType + "): " + ObservationText(e.observations, preview)
  }

  /** One relation line, with the relation type read under `key`. */
  function RelationLine(r: RelationRow, key: string): string
  {
    r.from + " --" + Formatted(RelationGet(r, key)) + "--> " + r.to
  }

  function EntityLines(es: seq<EntityRow>, preview: nat): (r: seq<string>)
    ensures |r| == |es| && forall i :: 0 <= i < |es| ==> r[i] == EntityLine(es[i], preview)
  {
    seq(|es|, i requires 0 <= i < |es| => EntityLine(es[i], preview))
  }

  function RelationLines(rs: seq<RelationRow>, key: string): (r: seq<string>)
    ensures |r| == |rs| && forall i :: 0 <= i < |rs| ==> r[i] == RelationLine(rs[i], key)
  {
    seq(|rs|, i requires 0 <= i < |rs| => RelationLine(rs[i], key))
  }

  /** The "Relations:" section, present only when there are relations. */
  function RelationsSection(rs: seq<RelationRow>, key: string, limit: nat): string
  {
    if rs == [] then "" else "\n\nRelations:\n" + Join(RelationLines(Seqs.PyTake(rs, limit), key), "\n")
  }

  /** The rendering before the partial-results note. */
  function GraphBody(g: GraphRows, key: string, lim: Limits): string
  {
    "Entities:\n" + Join(EntityLines(Seqs.PyTake(g.entities, lim.entities), lim.preview), "\n")
    + RelationsSection(g.relations, key, lim.relations)
  }

  /** Whether more entities or relations exist than are shown. */
  predicate Partial(g: GraphRows, lim: Limits)
  {
    |g.entities| > lim.entities || |g.relations| > lim.relations
  }

  /** The read-graph tools' answer, with the relation type read under `key`. */
  function ReadGraphSpec(g: GraphRows, key: string, lim: Limits): string
  {
    if g.entities == [] && g.relations == [] then EmptyGraph
    else GraphBody(g, key, lim) + (if Partial(g, lim) then PartialNote else "")
  }

  /** The graph cut down to what is shown. */
  function Truncated(g: GraphRows, lim: Limits): GraphRows
  {
    GraphRows(Seqs.PyTake(g.entities, lim.entities), Seqs.PyTake(g.relations, lim.relations))
  }

  /** The pieces of a non-empty graph's answer, in order. */
  lemma GraphPieces(g: GraphRows, key: string, lim: Limits)
    requires g.entities != [] || g.relations != []
    ensures ReadGraphSpec(g, key, lim)
         == "Entities:\n" + Join(EntityLines(Seqs.PyTake(g.entities, lim.entities), lim.preview), "\n")
            + RelationsSection(g.relations, key, lim.relations) + (if Partial(g, lim) then PartialNote else "")
  {
  }

  lemma GraphShowsEntity(g: GraphRows, key: string, lim: Limits, i: nat)
    requires i < |g.entities| && i < lim.entities
    ensures Contains(ReadGraphSpec(g, key, lim), EntityLine(g.entities[i], lim.preview))
  {
    var es := EntityLines(Seqs.PyTake(g.entities, lim.entities), lim.preview);
    var ej := Join(es, "\n");
    var rsec := RelationsSection(g.relations, key, lim.relations);
    var note := if Partial(g, lim) then PartialNote else "";
    GraphPieces(g, key, lim);
    JoinContains(es, "\n", i);
    ContainsAfter("Entities:\n", ej, es[i]);
    ContainsExtend("Entities:\n" + ej, rsec, es[i]);
    ContainsExtend("Entities:\n" + ej + rsec, note, es[i]);
  }

  lemma GraphShowsRelation(g: GraphRows, key: string, lim: Limits, i: nat)
    requires i < |g.relations| && i < lim.relations
    ensures Contains(ReadGraphSpec(g, key, lim), RelationLine(g.relations[i], key))
  {
    var ej := Join(EntityLines(Seqs.PyTake(g.entities, lim.entities), lim.preview), "\n");
    var rl := RelationLines(Seqs.PyTake(g.relations, lim.relations), key);
    var rsec := RelationsSection(g.relations, key, lim.relations);
    var note := if Partial(g, lim) then PartialNote else "";
    GraphPieces(g, key, lim);
    assert rsec == "\n\nRelations:\n" + Join(rl, "\n");
    JoinContains(rl, "\n", i);
    ContainsAfter("\n\nRelations:\n", Join(rl, "\n"), rl[i]);
    ContainsAfter("Entities:\n" + ej, rsec, rl[i]);
    ContainsExtend("Entities:\n" + ej + rsec, note, rl[i]);
  }

  /**
   * The answer is the empty-graph text exactly when there are neither entities nor
   * relations; otherwise it starts with "Entities:" and holds the line of every shown
   * entity and every shown relation.
   */
  lemma ReadGraphFacts(g: GraphRows, key: string, lim: Limits)
    ensures ReadGraphSpec(g, key, lim) == EmptyGraph <==> g.entities == [] && g.relations == []
    ensures g.entities != [] || g.relations != [] ==> StartsWith(ReadGraphSpec(g, key, lim), "Entities:\n")
    ensures forall i :: 0 <= i < |g.entities| && i < lim.entities ==>
              Contains(ReadGraphSpec(g, key, lim), EntityLine(g.entities[i], lim.preview))
    ensures forall i :: 0 <= i < |g.relations| && i < lim.relations ==>
              Contains(ReadGraphSpec(g, key, lim), RelationLine(g.relations[i], key))
  {
    if g.entities != [] || g.relations != [] {
      GraphPieces(g, key, lim);
      var out := ReadGraphSpec(g, key, lim);
      assert out[..10] == "Entities:\n";
      assert out[0] != EmptyGraph[0];
    }
    forall i | 0 <= i < |g.entities| && i < lim.entities
      ensures Contains(ReadGraphSpec(g, key, lim), EntityLine(g.entities[i], lim.preview))
    {
      GraphShowsEntity(g, key, lim, i);
    }
    forall i | 0 <= i < |g.relations| && i < lim.relations
      ensures Contains(ReadGraphSpec(g, key, lim), RelationLine(g.relations[i], key))
    {
      GraphShowsRelation(g, key, lim, i);
    }
  }

  /**
   * Only the shown entities and relations matter: the answer is that of the cut-down graph,
   * followed by the partial-results note exactly when more entities or more relations
   * exist than are shown.
   */
  lemma ReadGraphTruncation(g: GraphRows, key: string, lim: Limits)
    requires lim.entities > 0 && lim.relations > 0
    ensures ReadGraphSpec(g, key, lim)
         == ReadGraphSpec(Truncated(g, lim), key, lim) + (if Partial(g, lim) then PartialNote else "")
  {
    var t := Truncated(g, lim);
    assert Seqs.PyTake(t.entities, lim.entities) == t.entities;
    assert Seqs.PyTake(t.relations, lim.relations) == t.relations;
    assert !Partial(t, lim);
    assert (t.entities == [] && t.relations == []) <==> (g.entities == [] && g.relations == []);
    assert (t.relations == []) <==> (g.relations == []);
  }

  /** The observation preview as the tools build it: join the first ones, then the note. */
  method PreviewObservations(observations: seq<string>, preview: nat) returns (observationText: string)
    ensures observationText == ObservationText(observations, preview)
  {
    observationText := Join(Seqs.PyTake(observations, preview), ", ");
    if |observations| > preview {
      var remaining := |observations| - preview;
      observationText := observationText + (" (and " + NatToString(remaining) + " more)");
    }
  }

  /** The entity lines, one per shown entity. */
  method DescribeEntities(shownEntities: seq<EntityRow>, preview: nat) returns (entityDescriptions: seq<string>)
    ensures entityDescriptions == EntityLines(shownEntities, preview)
  {
    entityDescriptions := [];
    var i := 0;
    while i < |shownEntities|
      invariant 0 <= i <= |shownEntities| && |entityDescriptions| == i
      invariant forall j :: 0 <= j < i ==> entityDescriptions[j] == EntityLine(shownEntities[j], preview)
    {
      var entity := shownEntities[i];
      var observationText := PreviewObservations(entity.observations, preview);
      entityDescriptions := entityDescriptions + [entity.name + " (" + entity.entityType + "): " + observationText];
      i := i + 1;
    }
  }

  /** The relation lines, one per shown relation, the type read under `key`. */
  method DescribeRelations(shownRelations: seq<RelationRow>, key: string) returns (relationDescriptions: seq<string>)
    ensures relationDescriptions == RelationLines(shownRelations, key)
  {
    relationDescriptions := [];
    var i := 0;
    while i < |shownRelations|
      invariant 0 <= i <= |shownRelations| && |relationDescriptions| == i
      invariant forall j :: 0 <= j < i ==> relationDescriptions[j] == RelationLine(shownRelations[j], key)
    {
      var relation := shownRelations[i];
      relationDescriptions := relationDescriptions
        + [relation.from + " --" + Formatted(RelationGet(relation, key)) + "--> " + relation.to];
      i := i + 1;
    }
  }

  /** The read-graph rendering, entity by entity and relation by relation. */
  method FormatGraph(g: GraphRows, key: string, lim: Limits) returns (output: string)
    ensures output == ReadGraphSpec(g, key, lim)
  {
    if g.entities == [] && g.relations == [] {
      return EmptyGraph;
    }
    var entityDescriptions := DescribeEntities(Seqs.PyTake(g.entities, lim.entities), lim.preview);
    var relationDescriptions := DescribeRelations(Seqs.PyTake(g.relations, lim.relations), key);
    var relations := "";
    if g.relations != [] {
      relations := "\n\nRelations:\n" + Join(relationDescriptions, "\n");
    }
    var note := "";
    if |g.entities| > lim.entities || |g.relations| > lim.relations {
      note := "\n\n(Showing partial results)";
    }
    output := "Entities:\n" + Join(entityDescriptions, "\n") + relations + note;
  }

  /** `ReadGraphTool` reading the relation type under "relation", the key read_graph writes. */
  method ReadGraphTool(g: GraphRows) returns (output: string)
    ensures output == ReadGraphSpec(g, "relation", WorkerLimits)
  {
    output := FormatGraph(g, "relation", WorkerLimits);
  }

  /** `ReadGraphTool` as written: the relation type is read under "relation_type". */
  method ReadGraphToolAsWritten(g: GraphRows) returns (output: string)
    ensures output == ReadGraphSpec(g, "relation_type", WorkerLimits)
  {
    output := FormatGraph(g, "relation_type", WorkerLimits);
  }

  /** Read under "relation", every shown relation appears with its type. */
  lemma ReadGraphShowsRelations(g: GraphRows, i: nat)
    requires i < |g.relations| && i < 10
    ensures Contains(ReadGraphSpec(g, "relation", WorkerLimits),
                     g.relations[i].from + " --" + g.relations[i].relation + "--> " + g.relations[i].to)
  {
    GraphShowsRelation(g, "relation", WorkerLimits, i);
  }

  /** Read under "relation_type", every shown relation appears with "None" for its type. */
  lemma ReadGraphDropsRelationType(g: GraphRows, i: nat)
    requires i < |g.relations| && i < 10
    ensures Contains(ReadGraphSpec(g, "relation_type", WorkerLimits),
                     g.relations[i].from + " --None--> " + g.relations[i].to)
  {
    var r := g.relations[i];
    GraphShowsRelation(g, "relation_type", WorkerLimits, i);
    assert RelationLine(r, "relation_type") == r.from + " --None--> " + r.to;
  }

  /** A graph of one relation and no entity shows an empty entity section and that relation. */
  lemma OneRelationGraph(r: RelationRow, key: string)
    ensures ReadGraphSpec(GraphRows([], [r]), key, WorkerLimits)
         == "Entities:\n" + "" + ("\n\nRelations:\n" + RelationLine(r, key)) + ""
  {
    var g := GraphRows([], [r]);
    assert Seqs.PyTake(g.relations, 10) == [r];
    assert Seqs.PyTake(g.entities, 10) == [];
    assert Join(EntityLines([], 3), "\n") == "";
    assert Join(RelationLines([r], key), "\n") == RelationLine(r, key);
    assert !Partial(g, WorkerLimits);
    GraphPieces(g, key, WorkerLimits);
  }

  /**
   * A one-relation graph, alice knows bob: as written the relation "knows" is shown as
   * "None" (read under "relation", `ReadGraphShowsRelations` shows it).
   */
  lemma RelationTypeLostExample(r: RelationRow)
    requires r == RelationRow("alice", "knows", "bob")
    ensures ReadGraphSpec(GraphRows([], [r]), "relation_type", WorkerLimits)
         == "Entities:\n\n\nRelations:\nalice --None--> bob"
  {
    OneRelationGraph(r, "relation_type");
    assert RelationGet(r, "relation_type") == None;
    LostLineText(RelationLine(r, "relation_type"));
  }

  lemma LostLineText(line: string)
    ensures "Entities:\n" + "" + ("\n\nRelations:\n" + line) + "" == "Entities:\n\n\nRelations:\n" + line
  {
  }

  // ---------------------------------------------------------------------------
  // search_nodes rendering
  // ---------------------------------------------------------------------------

  const NoNodes: string := "No nodes found."
  const TopNote: string := "\n\n(Showing top 10 results)"

  /** `result.get(key, [])` on a search_nodes result, whose list is under "entities". */
  function SearchGet(r: SearchResult, key: string): Option<seq<SearchRow>>
  {
    if key == "entities" then Some(r.entities) else None
  }

  /** `node.get(key, [])` on a search_nodes row, whose lists are its two observation keys. */
  function RowObservations(row: SearchRow, key: string): Option<seq<string>>
  {
    if key == "matching_observations" then Some(row.matchingObservations)
    else if key == "all_observations" then Some(row.allObservations)
    else None
  }

  function NodeLine(row: SearchRow, obsKey: string): string
  {
    row.name + " (" + row.entityType + "): " + ObservationText(RowObservations(row, obsKey).GetOr([]), 3)
  }

  function NodeLines(rows: seq<SearchRow>, obsKey: string): (r: seq<string>)
    ensures |r| == |rows| && forall i :: 0 <= i < |rows| ==> r[i] == NodeLine(rows[i], obsKey)
  {
    seq(|rows|, i requires 0 <= i < |rows| => NodeLine(rows[i], obsKey))
  }

  /** The search-nodes answer for the rows found, observations read under `obsKey`. */
  function NodesSpec(rows: seq<SearchRow>, obsKey: string): string
  {
    if rows == [] then NoNodes
    else "Nodes:\n" + Join(NodeLines(Seqs.PyTake(rows, 10), obsKey), "\n") + (if |rows| > 10 then TopNote else "")
  }

  /** The pieces of the answer for a non-empty list of rows, in order. */
  lemma NodesPieces(rows: seq<SearchRow>, obsKey: string)
    requires rows != []
    ensures NodesSpec(rows, obsKey)
         == "Nodes:\n" + Join(NodeLines(Seqs.PyTake(rows, 10), obsKey), "\n") + (if |rows| > 10 then TopNote else "")
  {
  }

  lemma NodesShowsLine(rows: seq<SearchRow>, obsKey: string, i: nat)
    requires i < |rows| && i < 10
    ensures Contains(NodesSpec(rows, obsKey), NodeLine(rows[i], obsKey))
  {
    var ls := NodeLines(Seqs.PyTake(rows, 10), obsKey);
    var note := if |rows| > 10 then TopNote else "";
    NodesPieces(rows, obsKey);
    JoinContains(ls, "\n", i);
    ContainsAfter("Nodes:\n", Join(ls, "\n"), ls[i]);
    ContainsExtend("Nodes:\n" + Join(ls, "\n"), note, ls[i]);
  }

  /**
   * The answer is "No nodes found." exactly when no rows were found; otherwise it holds
   * the line of each of the first 10 rows, and it is the answer for those 10 followed by
   * the top-10 note exactly when more were found.
   */
  lemma NodesFacts(rows: seq<SearchRow>, obsKey: string)
    ensures NodesSpec(rows, obsKey) == NoNodes <==> rows == []
    ensures forall i :: 0 <= i < |rows| && i < 10 ==> Contains(NodesSpec(rows, obsKey), NodeLine(rows[i], obsKey))
    ensures NodesSpec(rows, obsKey) == NodesSpec(Seqs.PyTake(rows, 10), obsKey) + (if |rows| > 10 then TopNote else "")
  {
    if rows != [] {
      var shown := Seqs.PyTake(rows, 10);
      NodesPieces(rows, obsKey);
      NodesPieces(shown, obsKey);
      assert NodesSpec(rows, obsKey)[3] != NoNodes[3];
      assert Seqs.PyTake(shown, 10) == shown;
    }
    forall i | 0 <= i < |rows| && i < 10 ensures Contains(NodesSpec(rows, obsKey), NodeLine(rows[i], obsKey)) {
      NodesShowsLine(rows, obsKey, i);
    }
  }

  /** The node lines, one per shown row. */
  method DescribeNodes(shown: seq<SearchRow>, obsKey: string) returns (nodeDescriptions: seq<string>)
    ensures nodeDescriptions == NodeLines(shown, obsKey)
  {
    nodeDescriptions := [];
    var i := 0;
    while i < |shown|
      invariant 0 <= i <= |shown| && |nodeDescriptions| == i
      invariant forall j :: 0 <= j < i ==> nodeDescriptions[j] == NodeLine(shown[j], obsKey)
    {
      var node := shown[i];
      var observationText := PreviewObservations(RowObservations(node, obsKey).GetOr([]), 3);
      nodeDescriptions := nodeDescriptions + [node.name + " (" + node.entityType + "): " + observationText];
      i := i + 1;
    }
  }

  /** The search-nodes rendering, node by node. */
  method FormatNodes(rows: seq<SearchRow>, obsKey: string) returns (output: string)
    ensures output == NodesSpec(rows, obsKey)
  {
    if rows == [] {
      return NoNodes;
    }
    NodesPieces(rows, obsKey);
    var nodeDescriptions := DescribeNodes(Seqs.PyTake(rows, 10), obsKey);
    output := "Nodes:\n" + Join(nodeDescriptions, "\n");
    if |rows| > 10 {
      output := output + "\n\n(Showing top 10 results)";
    }
  }

  /**
   * `SearchNodesTool` reading the rows under "entities", the key search_nodes writes, and
   * each row's observations under "all_observations".
   */
  method SearchNodesTool(r: SearchResult) returns (output: string)
    ensures output == NodesSpec(r.entities, "all_observations")
  {
    output := FormatNodes(SearchGet(r, "entities").GetOr([]), "all_observations");
  }

  /** `SearchNodesTool` as written: rows under "nodes", observations under "observations". */
  method SearchNodesToolAsWritten(r: SearchResult) returns (output: string)
    ensures output == NodesSpec(SearchGet(r, "nodes").GetOr([]), "observations")
  {
    output := FormatNodes(SearchGet(r, "nodes").GetOr([]), "observations");
  }

  /** As written the tool answers "No nodes found." whatever search_nodes returns. */
  lemma SearchNodesNeverFindsAsWritten(r: SearchResult)
    ensures NodesSpec(SearchGet(r, "nodes").GetOr([]), "observations") == NoNodes
  {
  }

  /**
   * Reading "entities", the tool reports no nodes exactly when search_nodes found none, and
   * shows each of the first 10 with a preview of all its observations.
   */
  lemma SearchNodesFinds(r: SearchResult)
    ensures NodesSpec(r.entities, "all_observations") == NoNodes <==> r.entities == []
    ensures forall i :: 0 <= i < |r.entities| && i < 10 ==>
              Contains(NodesSpec(r.entities, "all_observations"),
                       r.entities[i].name + " (" + r.entities[i].entityType + "): "
                       + ObservationText(r.entities[i].allObservations, 3))
  {
    NodesFacts(r.entities, "all_observations");
  }

  // ---------------------------------------------------------------------------
  // Memory-management confirmations and the run envelope
  // ---------------------------------------------------------------------------

  function EntityCreated(name: string, entityType: string): string
  {
    "Entity created: " + name + " (" + entityType + ")"
  }

  function RelationCreated(fromEntity: string, relationType: string, toEntity: string): string
  {
    "Relation created: " + fromEntity + " --" + relationType + "--> " + toEntity
  }

  function ObservationsAdded(entityName: string): string
  {
    "Observations added to entity: " + entityName
  }

  /** Each confirmation names what was asked for, after a fixed prefix. */
  lemma ConfirmationFacts(name: string, entityType: string, fromEntity: string, relationType: string, toEntity: string)
    ensures StartsWith(EntityCreated(name, entityType), "Entity created: " + name)
    ensures Contains(EntityCreated(name, entityType), entityType)
    ensures StartsWith(RelationCreated(fromEntity, relationType, toEntity), "Relation created: " + fromEntity)
    ensures Contains(RelationCreated(fromEntity, relationType, toEntity), " --" + relationType + "--> ")
    ensures StartsWith(ObservationsAdded(name), "Observations added to entity: ")
    ensures ObservationsAdded(name)[|"Observations added to entity: "|..] == name
  {
    var e := EntityCreated(name, entityType);
    assert e == ("Entity created: " + name) + (" (" + entityType + ")");
    assert e[..|"Entity created: " + name|] == "Entity created: " + name;
    ContainsInside("Entity created: " + name + " (", entityType, ")");
    var r := RelationCreated(fromEntity, relationType, toEntity);
    var mid := " --" + relationType + "--> ";
    assert r == ("Relation created: " + fromEntity) + mid + toEntity;
    assert r == ("Relation created: " + fromEntity) + (mid + toEntity);
    assert r[..|"Relation created: " + fromEntity|] == "Relation created: " + fromEntity;
    ContainsInside("Relation created: " + fromEntity, " --" + relationType + "--> ", toEntity);
    var o := ObservationsAdded(name);
    assert o[..|"Observations added to entity: "|] == "Observations added to entity: ";
  }

  /** A call of one of the three memory-management tools (sync `_run` and async `_arun` alike). */
  datatype MemoryToolCall =
    | CreateEntityCall(name: string, entityType: string, observations: seq<string>)
    | CreateRelationCall(fromEntity: string, relationType: string, toEntity: string)
    | AddObservationsCall(entityName: string, observations: seq<string>)

  /** The AttributeError of reading an attribute of a dict. */
  function DictAttributeError(attr: string): string
  {
    "'dict' object has no attribute '" + attr + "'"
  }

  /** The TypeError of calling MemoryManager.add_observations without the named argument. */
  function MissingArgument(param: string): string
  {
    "MemoryManager.add_observations()" + " missing 1 required positional argument: '" + param + "'"
  }

  /**
   * What the manager raises for the argument the tool passes as written: a dict where
   * create_entities reads `entity.name` and create_relations reads `relation.from_entity`,
   * and one list where add_observations takes a name and a list.
   */
  function ToolRaise(call: MemoryToolCall): string
  {
    match call
    case CreateEntityCall(_, _, _) => DictAttributeError("name")
    case CreateRelationCall(_, _, _) => DictAttributeError("from_entity")
    case AddObservationsCall(_, _) => MissingArgument("observations")
  }

  /** The confirmation each tool returns once the manager has answered. */
  function Confirmation(call: MemoryToolCall): string
  {
    match call
    case CreateEntityCall(name, entityType, _) => EntityCreated(name, entityType)
    case CreateRelationCall(fromEntity, relationType, toEntity) => RelationCreated(fromEntity, relationType, toEntity)
    case AddObservationsCall(entityName, _) => ObservationsAdded(entityName)
  }

  /**
   * The graph and the reply of one tool call. As written the manager raises before the
   * store is reached; corrected, the tool passes an Entity, a Relation, or the name and
   * the list, and a store failure (a missing endpoint) escapes in place of the confirmation.
   */
  function MemoryToolSpec(v: Version, call: MemoryToolCall, g: Graph): (Graph, Result<string>)
  {
    match v
    case AsWritten => (g, Err(ToolRaise(call)))
    case Corrected =>
      match call
      case CreateEntityCall(name, entityType, os) =>
        (CreateAll(g, [Entity(name, entityType, os)]).0, Ok(Confirmation(call)))
      case CreateRelationCall(fromEntity, relationType, toEntity) =>
        var (h, res) := WithRelations(g, [Relation(fromEntity, relationType, toEntity)]);
        (h, if res.Err? then Err(res.error) else Ok(Confirmation(call)))
      case AddObservationsCall(entityName, os) =>
        (Graph(WithObservations(g.nodes, entityName, os), g.edges, g.nextId), Ok(Confirmation(call)))
  }

  /** The tool body: call the manager, then confirm. */
  method MemoryTool(mm: MemoryManager.Manager, call: MemoryToolCall, v: Version) returns (reply: Result<string>)
    requires mm.Valid()
    modifies mm.graph
    ensures mm.Valid()
    ensures (mm.graph.State(), reply) == MemoryToolSpec(v, call, old(mm.graph.State()))
  {
    if v == AsWritten {
      reply := Err(ToolRaise(call));
      return;
    }
    match call
    case CreateEntityCall(name, entityType, os) =>
      var created := mm.CreateEntities([Entity(name, entityType, os)]);
      reply := Ok(Confirmation(call));
    case CreateRelationCall(fromEntity, relationType, toEntity) =>
      var res := mm.CreateRelations([Relation(fromEntity, relationType, toEntity)]);
      reply := if res.Err? then Err(res.error) else Ok(Confirmation(call));
    case AddObservationsCall(entityName, os) =>
      var report := mm.AddObservations(entityName, os);
      reply := Ok(Confirmation(call));
  }

  /** As written, every call raises in the manager: no confirmation, and the graph is untouched. */
  lemma ToolsRaiseAsWritten(call: MemoryToolCall, g: Graph)
    ensures var (h, reply) := MemoryToolSpec(AsWritten, call, g);
      h == g && reply.Err? && reply.error == ToolRaise(call) && reply.error != Confirmation(call)
  {
    match call
    case CreateEntityCall(name, entityType, _) =>
      assert ToolRaise(call)[0] == '\'' && EntityCreated(name, entityType)[0] == 'E';
    case CreateRelationCall(fromEntity, relationType, toEntity) =>
      assert ToolRaise(call)[0] == '\'' && RelationCreated(fromEntity, relationType, toEntity)[0] == 'R';
    case AddObservationsCall(entityName, _) =>
      assert ToolRaise(call)[0] == 'M' && ObservationsAdded(entityName)[0] == 'O';
  }

  /**
   * Corrected, create_entity and add_observations always confirm, and create_relation
   * confirms exactly when a node carries each endpoint name; create_entity adds one node
   * with the name and type asked for, and no call removes or changes an edge it does not add.
   */
  lemma ToolsConfirmCorrected(call: MemoryToolCall, g: Graph)
    requires ValidGraph(g)
    ensures var (h, reply) := MemoryToolSpec(Corrected, call, g);
      (reply.Ok? ==> reply.value == Confirmation(call))
      && (!call.CreateRelationCall? ==> reply.Ok?)
      && (call.CreateRelationCall? ==>
            (reply.Ok? <==> (exists n :: n in g.nodes && n.name == call.fromEntity)
                            && (exists n :: n in g.nodes && n.name == call.toEntity)))
      && (call.CreateEntityCall? ==>
            |h.nodes| == |g.nodes| + 1 && h.edges == g.edges
            && exists n :: n in h.nodes && n.id !in NodeIds(g.nodes) && n.name == call.name && n.entityType == call.entityType)
      && g.edges <= h.edges
  {
    match call
    case CreateEntityCall(name, entityType, os) =>
      var es := [Entity(name, entityType, os)];
      CreateAllRecords(g, es);
      var (h, recs) := CreateAll(g, es);
      var n :| n in h.nodes && n.id == recs[0].id && n.name == es[0].name && n.entityType == es[0].entityType;
      assert n.id !in NodeIds(g.nodes);
    case CreateRelationCall(fromEntity, relationType, toEntity) =>
      var r := Relation(fromEntity, relationType, toEntity);
      CreateRelationNeedsEndpoints(g, r);
      assert [r][0] == r && [r][1..] == [];
      if WithRelation(g, r).Ok? {
        var g1 := WithRelation(g, r).value;
        assert WithRelations(g1, []) == (g1, Ok([]));
        assert WithRelations(g, [r]).0 == g1 && WithRelations(g, [r]).1.Ok?;
        assert g.edges <= g1.edges;
      } else {
        assert WithRelations(g, [r]) == (g, Err(WithRelation(g, r).error));
      }
    case AddObservationsCall(entityName, os) =>
  }

  /** The `run` of every worker agent: the executor's output, or the exception's text. */
  function RunEnvelope(inv: Invocation): AgentResult
  {
    match inv
    case Answered(output, steps) =>
      if output.Some? then AgentResult(true, output.value, steps, None)
      else AgentResult(false, "", None, Some(KeyErrorText("output")))
    case Raised(_, message) => AgentResult(false, "", None, Some(message))
  }

  /**
   * A run succeeds exactly when the executor answers with an output, which it returns with
   * the intermediate steps; otherwise the output is empty and the error is the exception's
   * text (a missing "output" is a KeyError).
   */
  lemma RunEnvelopeFacts(inv: Invocation)
    ensures var r := RunEnvelope(inv);
      (r.success <==> inv.Answered? && inv.output.Some?)
      && (r.success ==> r.output == inv.output.value && r.intermediateSteps == inv.steps && r.error.None?)
      && (!r.success ==> r.output == "" && r.intermediateSteps.None? && r.error.Some?)
      && (inv.Raised? ==> r.error == Some(inv.message))
      && (inv.Answered? && inv.output.None? ==> r.error == Some("'output'"))
  {
    assert KeyErrorText("output") == "'output'";
  }
}
