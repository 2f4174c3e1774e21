/**
 * The graph view of emvr/ui/components/graph_visualizer.py, `prepare_graph_data`: the
 * query it sends for a centred view, and the loops that turn the graph result into
 * visualisation nodes (at most `max_nodes`) and edges (all of them).
 *
 * The memory manager is the model's `MemoryManager.Manager`; the Cypher call a centred view
 * would need is a parameter; a graph result is a dictionary of record lists.
 */
module GraphVisualizer {
  import opened Outcomes
  import opened Text
  import opened GraphStore
  import MemoryManager

  /** A value of a record: a text or a list of texts. */
  datatype Field = Str(text: string) | Strs(items: seq<string>)

  type Record = map<string, Field>

  /** A graph result: lists of records under their keys. */
  type GraphResult = map<string, seq<Record>>

  /** `record.get(key, default)`. */
  function Get(r: Record, key: string, default: Field): Field
  {
    if key in r then r[key] else default
  }

  /** A node of the view: id, label (`tag`), title, group, and its properties' type and observations. */
  datatype VisNode = VisNode(id: Field, tag: Field, title: Field, group: Field, nodeType: Field, observations: Field)

  /** An edge of the view: ends, label (`tag`), title and its properties' type. */
  datatype VisEdge = VisEdge(from: Field, to: Field, tag: Field, title: Field, edgeType: Field)

  datatype Visualization = Visualization(nodes: seq<VisNode>, edges: seq<VisEdge>, error: Option<string>, status: string)

  /** The keys the loops read: the two lists, the type of a node and the type of a relationship. */
  datatype Keys = Keys(nodes: string, relationships: string, entityType: string, relationType: string)

  /** The keys `prepare_graph_data` reads. */
  const VisualizerKeys: Keys := Keys("nodes", "relationships", "entityType", "relationType")

  /** The keys of the dictionary `read_graph` returns. */
  const ReadGraphKeys: Keys := Keys("entities", "relations", "entity_type", "relation")

  function NodeOf(r: Record, typeKey: string): VisNode
  {
    var name := Get(r, "name", Str(""));
    var entityType := Get(r, typeKey, Str("Entity"));
    VisNode(name, name, entityType, entityType, entityType, Get(r, "observations", Strs([])))
  }

  function EdgeOf(r: Record, typeKey: string): VisEdge
  {
    var relationType := Get(r, typeKey, Str("related"));
    VisEdge(Get(r, "from", Str("")), Get(r, "to", Str("")), relationType, relationType, relationType)
  }

  function VisNodes(rs: seq<Record>, typeKey: string): (vs: seq<VisNode>)
    ensures |vs| == |rs|
    ensures forall k :: 0 <= k < |rs| ==> vs[k] == NodeOf(rs[k], typeKey)
  {
    if rs == [] then [] else VisNodes(rs[..|rs| - 1], typeKey) + [NodeOf(rs[|rs| - 1], typeKey)]
  }

  function VisEdges(rs: seq<Record>, typeKey: string): (es: seq<VisEdge>)
    ensures |es| == |rs|
    ensures forall k :: 0 <= k < |rs| ==> es[k] == EdgeOf(rs[k], typeKey)
  {
    if rs == [] then [] else VisEdges(rs[..|rs| - 1], typeKey) + [EdgeOf(rs[|rs| - 1], typeKey)]
  }

  /** How many of `n` records the node loop keeps: none when `max_nodes` is not positive. */
  function Kept(maxNodes: int, n: nat): (k: nat)
    ensures k <= n
    ensures maxNodes <= 0 ==> k == 0
    ensures maxNodes > 0 ==> k == if maxNodes < n then maxNodes else n
  {
    if maxNodes <= 0 then 0 else if maxNodes < n then maxNodes else n
  }

  function ListOf(result: GraphResult, key: string): seq<Record>
  {
    if key in result then result[key] else []
  }

  /**
   * The view of a graph result: the first `max_nodes` node records in order (none when
   * `max_nodes` is not positive), each with id and label the record's name ("" by
   * default), title, group and type its entity type ("Entity" by default) and its
   * observations (none by default); and one edge
   * per relationship record, in order and uncapped, labelled with its type ("related" by
   * default).
   */
  function ViewSpec(result: GraphResult, keys: Keys, maxNodes: int): (v: Visualization)
    ensures var rs := ListOf(result, keys.nodes);
            var es := ListOf(result, keys.relationships);
            && |v.nodes| == Kept(maxNodes, |rs|)
            && (forall k :: 0 <= k < |v.nodes| ==>
                  v.nodes[k].id == Get(rs[k], "name", Str("")) && v.nodes[k].tag == v.nodes[k].id
                  && v.nodes[k].title == Get(rs[k], keys.entityType, Str("Entity"))
                  && v.nodes[k].group == v.nodes[k].title && v.nodes[k].nodeType == v.nodes[k].title
                  && v.nodes[k].observations == Get(rs[k], "observations", Strs([])))
            && |v.edges| == |es|
            && (forall k :: 0 <= k < |es| ==>
                  v.edges[k].from == Get(es[k], "from", Str("")) && v.edges[k].to == Get(es[k], "to", Str(""))
                  && v.edges[k].tag == Get(es[k], keys.relationType, Str("related"))
                  && v.edges[k].title == v.edges[k].tag && v.edges[k].edgeType == v.edges[k].tag)
            && v.status == "success" && v.error.None?
  {
    var rs := ListOf(result, keys.nodes);
    Visualization(VisNodes(rs[..Kept(maxNodes, |rs|)], keys.entityType), VisEdges(ListOf(result, keys.relationships), keys.relationType),
                  None, "success")
  }

  /** The node loop: stop once `max_nodes` nodes are in. */
  method BuildNodes(rs: seq<Record>, typeKey: string, maxNodes: int) returns (nodes: seq<VisNode>)
    ensures nodes == VisNodes(rs[..Kept(maxNodes, |rs|)], typeKey)
  {
    nodes := [];
    var i := 0;
    while i < |rs|
      invariant 0 <= i <= Kept(maxNodes, |rs|)
      invariant nodes == VisNodes(rs[..i], typeKey)
    {
      if |nodes| >= maxNodes {
        break;
      }
      assert rs[..i + 1][..i] == rs[..i];
      nodes := nodes + [NodeOf(rs[i], typeKey)];
      i := i + 1;
    }
  }

  /** The edge loop. */
  method BuildEdges(rs: seq<Record>, typeKey: string) returns (edges: seq<VisEdge>)
    ensures edges == VisEdges(rs, typeKey)
  {
    edges := [];
    var i := 0;
    while i < |rs|
      invariant 0 <= i <= |rs|
      invariant edges == VisEdges(rs[..i], typeKey)
    {
      assert rs[..i + 1][..i] == rs[..i];
      edges := edges + [EdgeOf(rs[i], typeKey)];
      i := i + 1;
    }
    assert rs[..i] == rs;
  }

  /** The two loops over a graph result. */
  method View(result: GraphResult, keys: Keys, maxNodes: int) returns (v: Visualization)
    ensures v == ViewSpec(result, keys, maxNodes)
  {
    var nodes := BuildNodes(ListOf(result, keys.nodes), keys.entityType, maxNodes);
    var edges := BuildEdges(ListOf(result, keys.relationships), keys.relationType);
    v := Visualization(nodes, edges, None, "success");
  }

  /** The dictionary `read_graph` returns. */
  function ReadGraphResult(g: GraphRows): GraphResult
  {
    map["entities" := seq(|g.entities|, i requires 0 <= i < |g.entities| => EntityRecord(g.entities[i])),
        "relations" := seq(|g.relations|, i requires 0 <= i < |g.relations| => RelationRecord(g.relations[i]))]
  }

  /** One entity of `read_graph`'s dictionary. */
  function EntityRecord(e: EntityRow): Record
  {
    map["name" := Str(e.name), "entity_type" := Str(e.entityType), "observations" := Strs(e.observations)]
  }

  /** One relation of `read_graph`'s dictionary. */
  function RelationRecord(r: RelationRow): Record
  {
    map["from" := Str(r.from), "relation" := Str(r.relation), "to" := Str(r.to)]
  }

  const Indent: string := "                "

  /** The text of the centred query up to the interpolated depth. */
  const QueryHead: string := "\n" + Indent + "MATCH path = (center {name: $name})-"

  /** The text between the depth pattern and the limit. */
  const QueryMiddle: string :=
    "-(related)"
    + "\n" + Indent + "WITH nodes(path) AS nodes, relationships(path) AS rels"
    + "\n" + Indent + "UNWIND nodes AS node"
    + "\n" + Indent + "WITH COLLECT(DISTINCT node) AS allNodes, rels"
    + "\n" + Indent + "UNWIND rels AS rel"
    + "\n" + Indent + "WITH allNodes, COLLECT(DISTINCT rel) AS allRels"
    + "\n" + Indent + "RETURN allNodes, allRels"
    + "\n" + Indent

  /** The Cypher text of the centred view, with `max_depth` and `max_nodes` interpolated. */
  function CenteredQuery(maxDepth: int, maxNodes: int): string
  {
    QueryHead + ("[*1.." + IntToString(maxDepth) + "]") + QueryMiddle + ("LIMIT " + IntToString(maxNodes))
    + ("\n" + Indent)
  }

  /** The centred query bounds the path length by `max_depth` and the rows by `max_nodes`. */
  lemma CenteredQueryFacts(maxDepth: int, maxNodes: int)
    ensures Contains(CenteredQuery(maxDepth, maxNodes), "[*1.." + IntToString(maxDepth) + "]")
    ensures Contains(CenteredQuery(maxDepth, maxNodes), "LIMIT " + IntToString(maxNodes))
  {
    FiveParts(QueryHead, "[*1.." + IntToString(maxDepth) + "]", QueryMiddle,
              "LIMIT " + IntToString(maxNodes), "\n" + Indent);
  }

  /** A text `h + b + m + d + t` contains its second and fourth parts, for any five parts. */
  lemma FiveParts(h: string, b: string, m: string, d: string, t: string)
    ensures Contains(h + b + m + d + t, b) && Contains(h + b + m + d + t, d)
  {
    assert h + b + m + d + t == h + b + (m + d + t);
    ContainsInside(h, b, m + d + t);
    ContainsInside(h + b + m, d, t);
  }

  /** The view of an exception. */
  function Failed(e: string): Visualization
  {
    Visualization([], [], Some(e), "error")
  }

  /** The text of the AttributeError raised by `memory_manager._graphiti`. */
  const NoGraphiti: string := "'MemoryManager' object has no attribute '_graphiti'"

  /**
   * What the centred branch obtains: as written, `MemoryManager` has no `_graphiti`
   * attribute, so the lookup raises before any query is sent; corrected, the result of
   * running the centred query with `$name` bound to the centre through `cypher`.
   */
  function CenteredResult(v: Version, center: string, maxNodes: int, maxDepth: int,
                          cypher: (string, string) -> Result<GraphResult>): Result<GraphResult>
  {
    match v
    case AsWritten => Err(NoGraphiti)
    case Corrected => cypher(CenteredQuery(maxDepth, maxNodes), center)
  }

  /** The keys the whole-graph view reads: the loops' own, or those `read_graph` writes. */
  function WholeGraphKeys(v: Version): Keys
  {
    match v
    case AsWritten => VisualizerKeys
    case Corrected => ReadGraphKeys
  }

  /**
   * `prepare_graph_data` over a graph whose `read_graph` result is `g`: a non-empty centre
   * asks for the centred view, anything else for the whole graph.
   */
  function PrepareSpec(v: Version, center: Option<string>, maxNodes: int, maxDepth: int,
                       cypher: (string, string) -> Result<GraphResult>, g: GraphRows): Visualization
  {
    if center.Some? && center.value != "" then
      match CenteredResult(v, center.value, maxNodes, maxDepth, cypher)
      case Err(e) => Failed(e)
      case Ok(result) => ViewSpec(result, VisualizerKeys, maxNodes)
    else
      ViewSpec(ReadGraphResult(g), WholeGraphKeys(v), maxNodes)
  }

  /**
   * `prepare_graph_data`: initialise the memory manager, fetch the centred result or the
   * whole graph, then run the node and edge loops.
   */
  method PrepareGraphData(mm: MemoryManager.Manager, center: Option<string>, maxNodes: int, maxDepth: int,
                          cypher: (string, string) -> Result<GraphResult>, v: Version)
    returns (view: Visualization)
    requires mm.Valid()
    modifies mm
    ensures mm.initialized && mm.Valid()
    ensures view == PrepareSpec(v, center, maxNodes, maxDepth, cypher,
                                GraphRows(ReadEntities(mm.graph.nodes), ReadRelations(mm.graph.State())))
  {
    mm.Initialize();
    var graphResult: GraphResult;
    var keys: Keys;
    if center.Some? && center.value != "" {
      var r := CenteredResult(v, center.value, maxNodes, maxDepth, cypher);
      if r.Err? {
        return Failed(r.error);
      }
      graphResult, keys := r.value, VisualizerKeys;
    } else {
      var g := mm.ReadGraph();
      graphResult, keys := ReadGraphResult(g), WholeGraphKeys(v);
    }
    view := View(graphResult, keys, maxNodes);
  }

  /**
   * As written, `prepare_graph_data` never shows anything: a centred view is the
   * AttributeError's error view, and the whole-graph view is an empty success, since
   * `read_graph` has no "nodes" and no "relationships" list.
   */
  lemma NothingShownAsWritten(center: Option<string>, maxNodes: int, maxDepth: int,
                              cypher: (string, string) -> Result<GraphResult>, g: GraphRows)
    ensures PrepareSpec(AsWritten, center, maxNodes, maxDepth, cypher, g)
         == if center.Some? && center.value != "" then Visualization([], [], Some(NoGraphiti), "error")
            else Visualization([], [], None, "success")
  {
    var result := ReadGraphResult(g);
    assert "nodes" !in result && "relationships" !in result;
  }

  /**
   * Corrected, the whole-graph view shows the first `max_nodes` entities by name, type and
   * observations, and every relation with its type.
   */
  lemma WholeGraphShown(maxNodes: int, maxDepth: int, cypher: (string, string) -> Result<GraphResult>, g: GraphRows)
    ensures var v := PrepareSpec(Corrected, None, maxNodes, maxDepth, cypher, g);
            && |v.nodes| == Kept(maxNodes, |g.entities|)
            && (forall k :: 0 <= k < |v.nodes| ==>
                  v.nodes[k].id == Str(g.entities[k].name) && v.nodes[k].tag == Str(g.entities[k].name)
                  && v.nodes[k].group == Str(g.entities[k].entityType)
                  && v.nodes[k].title == Str(g.entities[k].entityType)
                  && v.nodes[k].nodeType == Str(g.entities[k].entityType)
                  && v.nodes[k].observations == Strs(g.entities[k].observations))
            && |v.edges| == |g.relations|
            && (forall k :: 0 <= k < |g.relations| ==>
                  v.edges[k] == VisEdge(Str(g.relations[k].from), Str(g.relations[k].to), Str(g.relations[k].relation),
                                        Str(g.relations[k].relation), Str(g.relations[k].relation)))
            && v.status == "success" && v.error.None?
  {
    WholeGraphIsView(Corrected, maxNodes, maxDepth, cypher, g);
    ReadGraphRecords(g);
    ViewOfRows(g, ReadGraphResult(g), maxNodes);
  }

  /** Without a centre, the view is that of `read_graph`'s dictionary. */
  lemma WholeGraphIsView(v: Version, maxNodes: int, maxDepth: int, cypher: (string, string) -> Result<GraphResult>, g: GraphRows)
    ensures PrepareSpec(v, None, maxNodes, maxDepth, cypher, g) == ViewSpec(ReadGraphResult(g), WholeGraphKeys(v), maxNodes)
  {
  }

  /** The records of `read_graph`'s dictionary turn into the rows' nodes and edges. */
  lemma ReadGraphRecords(g: GraphRows)
    ensures var result := ReadGraphResult(g);
            && |ListOf(result, "entities")| == |g.entities| && |ListOf(result, "relations")| == |g.relations|
            && (forall k :: 0 <= k < |g.entities| ==> NodeOf(ListOf(result, "entities")[k], "entity_type") == EntityNode(g.entities[k]))
            && (forall k :: 0 <= k < |g.relations| ==> EdgeOf(ListOf(result, "relations")[k], "relation") == RelationEdge(g.relations[k]))
  {
    var result := ReadGraphResult(g);
    forall k | 0 <= k < |g.entities|
      ensures NodeOf(ListOf(result, "entities")[k], "entity_type") == EntityNode(g.entities[k])
    {
      ReadGraphEntityShown(g, k);
    }
    forall k | 0 <= k < |g.relations|
      ensures EdgeOf(ListOf(result, "relations")[k], "relation") == RelationEdge(g.relations[k])
    {
      ReadGraphRelationShown(g, k);
    }
    assert ListOf(result, "entities") == result["entities"];
    assert ListOf(result, "relations") == result["relations"];
  }

  /** The node the whole-graph view should show for an entity row. */
  function EntityNode(e: EntityRow): VisNode
  {
    VisNode(Str(e.name), Str(e.name), Str(e.entityType), Str(e.entityType), Str(e.entityType), Strs(e.observations))
  }

  /** The edge the whole-graph view should show for a relation row. */
  function RelationEdge(r: RelationRow): VisEdge
  {
    VisEdge(Str(r.from), Str(r.to), Str(r.relation), Str(r.relation), Str(r.relation))
  }

  /** A result whose records the loops turn into the rows' nodes and edges is viewed as those rows. */
  lemma ViewOfRows(g: GraphRows, result: GraphResult, maxNodes: int)
    requires |ListOf(result, "entities")| == |g.entities| && |ListOf(result, "relations")| == |g.relations|
    requires forall k :: 0 <= k < |g.entities| ==> NodeOf(ListOf(result, "entities")[k], "entity_type") == EntityNode(g.entities[k])
    requires forall k :: 0 <= k < |g.relations| ==> EdgeOf(ListOf(result, "relations")[k], "relation") == RelationEdge(g.relations[k])
    ensures var v := ViewSpec(result, ReadGraphKeys, maxNodes);
            && |v.nodes| == Kept(maxNodes, |g.entities|)
            && (forall k :: 0 <= k < |v.nodes| ==> v.nodes[k] == EntityNode(g.entities[k]))
            && |v.edges| == |g.relations|
            && (forall k :: 0 <= k < |g.relations| ==> v.edges[k] == RelationEdge(g.relations[k]))
            && v.status == "success" && v.error.None?
  {
    var rs := ListOf(result, "entities");
    var v := ViewSpec(result, ReadGraphKeys, maxNodes);
    assert v.nodes == VisNodes(rs[..Kept(maxNodes, |rs|)], "entity_type");
    assert v.edges == VisEdges(ListOf(result, "relations"), "relation");
  }

  /** The node the view builds from the k-th entity `read_graph` returns. */
  lemma ReadGraphEntityShown(g: GraphRows, k: int)
    requires 0 <= k < |g.entities|
    ensures var rs := ListOf(ReadGraphResult(g), "entities");
            |rs| == |g.entities|
            && NodeOf(rs[k], "entity_type") == EntityNode(g.entities[k])
  {
    var r := ListOf(ReadGraphResult(g), "entities")[k];
    assert r == EntityRecord(g.entities[k]);
  }

  /** The edge the view builds from the k-th relation `read_graph` returns. */
  lemma ReadGraphRelationShown(g: GraphRows, k: int)
    requires 0 <= k < |g.relations|
    ensures var es := ListOf(ReadGraphResult(g), "relations");
            |es| == |g.relations|
            && EdgeOf(es[k], "relation") == RelationEdge(g.relations[k])
  {
    var r := ListOf(ReadGraphResult(g), "relations")[k];
    assert r == RelationRecord(g.relations[k]);
  }

  /**
   * Corrected, a centred view is the error view of a failed query, or the loops' view of
   * the query's result: at most `max_nodes` nodes and every relationship.
   */
  lemma CenteredShown(center: string, maxNodes: int, maxDepth: int, cypher: (string, string) -> Result<GraphResult>, g: GraphRows)
    requires center != ""
    ensures var v := PrepareSpec(Corrected, Some(center), maxNodes, maxDepth, cypher, g);
            var r := cypher(CenteredQuery(maxDepth, maxNodes), center);
            && (r.Err? ==> v == Visualization([], [], Some(r.error), "error"))
            && (r.Ok? ==> v == ViewSpec(r.value, VisualizerKeys, maxNodes)
                          && v.status == "success" && v.error.None?
                          && |v.nodes| == Kept(maxNodes, |ListOf(r.value, "nodes")|)
                          && |v.edges| == |ListOf(r.value, "relationships")|)
  {
  }
}
