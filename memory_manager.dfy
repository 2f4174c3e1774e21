/**
 * `MemoryManager` of emvr/memory/memory_manager.py: an initialised flag, calls passed on
 * to the graph store, and the hybrid search that asks both stores.
 */
module MemoryManager {
  import opened Outcomes
  import opened GraphStore
  import VectorStore

  /** `{"query", "vector_results", "graph_results"}` of hybrid_search. */
  datatype HybridResult = HybridResult(query: string, vectorResults: seq<VectorStore.VectorHit>,
                                       graphResults: seq<SearchRow>)

  /** The list comprehension that rebuilds each entity from its three fields. */
  function CopyEntities(es: seq<Entity>): (r: seq<Entity>)
    ensures r == es
  {
    if es == [] then [] else [Entity(es[0].name, es[0].entityType, es[0].observations)] + CopyEntities(es[1..])
  }

  /** The list comprehension that rebuilds each relation from its three fields. */
  function CopyRelations(rs: seq<Relation>): (r: seq<Relation>)
    ensures r == rs
  {
    if rs == [] then [] else [Relation(rs[0].fromEntity, rs[0].relationType, rs[0].toEntity)] + CopyRelations(rs[1..])
  }

  class Manager {
    var initialized: bool
    const graph: MemoryStore

    ghost predicate Valid()
      reads this, graph
    {
      graph.Valid()
    }

    /** The manager starts uninitialised, over the given graph store. */
    constructor (store: MemoryStore)
      ensures graph == store && !initialized
    {
      graph := store;
      initialized := false;
    }

    /** initialize: sets the flag once; later calls return without doing anything. */
    method Initialize()
      modifies this
      ensures initialized
      ensures old(initialized) ==> unchanged(this)
    {
      if initialized {
        return;
      }
      initialized := true;
    }

    /** close: clears the flag, and does nothing when the manager was not initialised. */
    method Close()
      modifies this
      ensures !initialized
      ensures !old(initialized) ==> unchanged(this)
    {
      if !initialized {
        return;
      }
      initialized := false;
    }

    /** create_entities: the store receives field-for-field copies, in order, and its answer is returned. */
    method CreateEntities(es: seq<Entity>) returns (created: seq<CreatedEntity>)
      requires Valid()
      modifies graph
      ensures (graph.State(), created) == CreateAll(old(graph.State()), es) && Valid()
    {
      created := graph.CreateEntities(CopyEntities(es));
    }

    /** create_relations: the store receives the same triples, in order. */
    method CreateRelations(rels: seq<Relation>) returns (result: Result<seq<RelationRow>>)
      requires Valid()
      modifies graph
      ensures (graph.State(), result) == WithRelations(old(graph.State()), rels) && Valid()
    {
      result := graph.CreateRelations(CopyRelations(rels));
    }

    method AddObservations(name: string, os: seq<string>) returns (report: ObservationReport)
      requires Valid()
      modifies graph
      ensures graph.nodes == WithObservations(old(graph.nodes), name, os)
      ensures graph.edges == old(graph.edges) && graph.nextId == old(graph.nextId) && Valid()
      ensures report == ObservationReport(name, |os|)
    {
      report := graph.AddObservations(name, os);
    }

    method DeleteEntities(names: seq<string>) returns (deleted: seq<string>)
      requires Valid()
      modifies graph
      ensures graph.State() == WithoutEntities(old(graph.State()), names) && Valid()
      ensures deleted == names
    {
      deleted := graph.DeleteEntities(names);
    }

    method DeleteObservations(name: string, os: seq<string>) returns (report: ObservationReport)
      requires Valid()
      modifies graph
      ensures graph.nodes == WithoutObservations(old(graph.nodes), name, os)
      ensures graph.edges == old(graph.edges) && graph.nextId == old(graph.nextId) && Valid()
      ensures report == ObservationReport(name, |os|)
    {
      report := graph.DeleteObservations(name, os);
    }

    /** delete_relations: the store receives the same triples, in order. */
    method DeleteRelations(rels: seq<Relation>) returns (count: nat)
      requires Valid()
      modifies graph
      ensures graph.State() == WithoutRelations(old(graph.State()), rels) && Valid()
      ensures count == |rels|
    {
      count := graph.DeleteRelations(CopyRelations(rels));
    }

    method ReadGraph() returns (result: GraphRows)
      requires Valid()
      ensures result == GraphRows(ReadEntities(graph.nodes), ReadRelations(graph.State()))
    {
      result := graph.ReadGraph();
    }

    /** search_nodes: the store's answer, its raised error included, is returned as it is. */
    method SearchNodes(query: string, v: Version) returns (result: Result<SearchResult>)
      ensures result == SearchNodesSpec(graph.nodes, query, v)
    {
      result := graph.SearchNodes(query, v);
    }

    method OpenNodes(names: seq<string>) returns (entities: seq<EntityRow>)
      ensures entities == OpenRows(graph.nodes, names)
    {
      entities := graph.OpenNodes(names);
    }

    /**
     * hybrid_search: the vector store's hybrid results for `top_k`, and the entities the
     * graph search finds for the query; an error the graph search raises propagates, so as
     * written, where the driver refuses that search, hybrid_search always raises.
     */
    method HybridSearch(query: string, topK: int, v: Version) returns (result: Result<HybridResult>)
      ensures v == AsWritten ==> result == Err(RunClash)
      ensures SearchNodesSpec(graph.nodes, query, v).Err? ==>
                result == Err(SearchNodesSpec(graph.nodes, query, v).error)
      ensures SearchNodesSpec(graph.nodes, query, v).Ok? ==>
                result == Ok(HybridResult(query, VectorStore.MockResults(VectorStore.Hybrid, query, topK),
                                          SearchRows(graph.nodes, query)))
    {
      var vectorResults := VectorStore.HybridSearch(query, topK);
      var graphResults := graph.SearchNodes(query, v);
      if graphResults.Err? {
        return Err(graphResults.error);
      }
      result := Ok(HybridResult(query, vectorResults, graphResults.value.entities));
    }
  }
}
