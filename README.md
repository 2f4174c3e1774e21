# enhanced-mem-vector-rag: a verified model of the memory, retrieval and agent core

This project is a Dafny model of the deterministic core of *enhanced-mem-vector-rag* (EMVR), a
retrieval-augmented memory system. It has four parts:

- **Memory.** A Neo4j knowledge graph of entities, observations and relations, behind a memory
  manager. A mock Qdrant vector store sits beside it.
- **Retrieval.** Three retrieval paths (fusion, hybrid, knowledge graph) and two retrieval
  pipelines.
- **Agents.** A supervisor/worker agent layer built on LangGraph, with its MCP endpoints and
  authentication middleware.
- **Interface helpers.** The Chainlit UI's upload, graph-view and profile components, and the
  token-generation script.

The model keeps what the program decides for itself:

- what each Cypher statement does to the graph;
- how results are fused, rescored, sorted and cut;
- which worker or tool runs next;
- which envelope or message is returned.

Whatever the program asks of the outside world becomes a parameter or an oracle function. That
covers LLM replies, database row order, uuids, the clock, JWT, file sizes and the vector index
(an index the vector store as written never sets; see "## Left out").

There is one Dafny module per source file. Two shared modules support them:

- `Outcomes`, the `Option` and `Result` types;
- `Text`, Python's string operations as the code uses them.

The form of each module follows the code:

- Objects whose methods update fields in place are Dafny classes with `modifies` clauses. These
  are the graph store, the memory manager, the retrieval pipelines, the LangGraph state, the
  orchestrator, the parameter dictionary and the user profile.
- Methods that loop in the source are methods with loops and invariants. Each is proved against a
  specification function.
- The formatters, routers and validators are functions.

Every specification function is paired with lemmas stating what the source promises about it.

## Model

| member | source | states |
|---|---|---|
| GraphStore.CreateEntityAlwaysAdds | emvr/memory/graph_store.py:58-93 | create_entity adds exactly one node with the name, a fresh id, the given type and the observations in order, without looking for an existing name; older nodes with that name also receive the observations; nothing else changes |
| GraphStore.TwoCreatesSameName | emvr/memory/graph_store.py:71-74 | two creates with one name leave two more nodes of that name |
| GraphStore.MemoryStore.CreateEntity | emvr/memory/graph_store.py:58-93 | the store's new state is the specified creation, and the record returned carries the new id, the name and the type |
| GraphStore.CreateAllRecords | emvr/memory/graph_store.py:95-113 | create_entities returns one record per input entity, in input order, each with that entity's name and type and the id of a node of the new graph carrying them; the ids are pairwise distinct and none belonged to a node before; the graph gains one node per input, keeps its edges and stays valid |
| GraphStore.CreateAllKeeps | emvr/memory/graph_store.py:108-111 | every earlier node keeps its place, id, name and type, one node follows per input, and the edges are untouched |
| GraphStore.CreateAllValid | emvr/memory/graph_store.py:108-111 | creating the entities keeps node and edge ids unique and every edge's endpoints among the nodes |
| GraphStore.CreateAllCounter | emvr/memory/graph_store.py:108-111 | with the model's id counter, the i-th new node and the i-th record both take the id `nextId + i` and carry the i-th input's name and type |
| GraphStore.MemoryStore.CreateEntities | emvr/memory/graph_store.py:95-113 | the loop yields the specified graph and records |
| GraphStore.CreateRelationNeedsEndpoints | emvr/memory/graph_store.py:128-148 | create_relation succeeds exactly when a node carries each endpoint name; otherwise reading the missing record fails and the graph is unchanged |
| GraphStore.CreateRelationAddsEdges | emvr/memory/graph_store.py:128-133 | a successful create_relation keeps every node and edge, and adds one RELATION edge of the requested type per pair of nodes carrying the two names |
| GraphStore.MemoryStore.CreateRelation | emvr/memory/graph_store.py:115-148 | the new state and the result (the echoed triple, or the error with the graph untouched) are those of the specification |
| GraphStore.CreateRelationsRecords | emvr/memory/graph_store.py:150-168 | on success there is one record per relation, echoing it, in input order |
| GraphStore.CreateRelationsKeeps | emvr/memory/graph_store.py:150-168 | success or not, create_relations changes no node and removes no edge; relations made before a failure stay |
| GraphStore.MemoryStore.CreateRelations | emvr/memory/graph_store.py:150-168 | the loop yields the specified graph and result, stopping at the first error |
| GraphStore.MemoryStore.AddObservation | emvr/memory/graph_store.py:170-191 | _add_observation appends the text to every node with the name, and changes nothing else |
| GraphStore.AddObservationsMissingName | emvr/memory/graph_store.py:180-184 | observations for a name no node has change nothing |
| GraphStore.MemoryStore.AddObservations | emvr/memory/graph_store.py:193-217 | add_observations appends the texts in order to every node with the name, and reports the number of texts given even when no node matched |
| GraphStore.DeleteEntitiesEffect | emvr/memory/graph_store.py:232-237 | afterwards no node carries a listed name, every other node remains, and an edge survives exactly when neither endpoint was deleted |
| GraphStore.MemoryStore.DeleteEntities | emvr/memory/graph_store.py:219-247 | delete_entities makes the specified deletion and returns the requested names verbatim |
| GraphStore.DeleteObservationsEffect | emvr/memory/graph_store.py:267-271 | only the listed observation texts of nodes with that name go; their other observations and all other nodes are unchanged |
| GraphStore.MemoryStore.DeleteObservations | emvr/memory/graph_store.py:249-283 | delete_observations makes the specified deletion and reports the number of texts requested |
| GraphStore.DeleteRelationsEffect | emvr/memory/graph_store.py:298-304 | nodes are kept, and an edge survives exactly when it matches none of the (from, type, to) triples |
| GraphStore.MemoryStore.DeleteRelations | emvr/memory/graph_store.py:285-323 | delete_relations makes the specified deletion and reports the number of triples requested |
| GraphStore.GroupFacts | emvr/memory/graph_store.py:335-339 | Cypher's implicit grouping yields distinct keys, exactly the keys of the rows, each with everything collected under it in row order |
| GraphStore.ReadGraphDistinct | emvr/memory/graph_store.py:335-339 | read_graph lists each (name, entity_type) at most once |
| GraphStore.ReadGraphCovers | emvr/memory/graph_store.py:335-339 | every node is represented by the row of its (name, entity_type) |
| GraphStore.ReadGraphFrom | emvr/memory/graph_store.py:335-339 | every entity row comes from some node |
| GraphStore.ReadGraphObservations | emvr/memory/graph_store.py:335-339 | each entity row carries the observations of every node with that name and type, in node order |
| GraphStore.ReadGraphRelations | emvr/memory/graph_store.py:341-346 | one relation row per RELATION edge, naming its endpoints and its type; observation links are never listed |
| GraphStore.EntityRowsOf | emvr/memory/graph_store.py:352-360 | the entity loop appends one row per (name, entity_type) group, in group order |
| GraphStore.RelationRowsOf | emvr/memory/graph_store.py:363-371 | the relation loop appends one {from, relation, to} row per RELATION edge, in edge order |
| GraphStore.MemoryStore.ReadGraph | emvr/memory/graph_store.py:325-376 | the two record loops return exactly the entity and relation rows the ReadGraph lemmas characterise, and change nothing |
| GraphStore.SearchNodesFrom | emvr/memory/graph_store.py:391-401 | every search_nodes row comes from a node whose name or type contains the query (case-sensitive) and carries that node's matching observations |
| GraphStore.SearchNodesCovers | emvr/memory/graph_store.py:391-395 | every node whose name or type contains the query is represented |
| GraphStore.SearchNodesMatching | emvr/memory/graph_store.py:394-396 | the matching observations of a row are distinct texts that contain the query |
| GraphStore.SearchNodesFailsAsWritten | emvr/memory/graph_store.py:405-409 | as written, search_nodes raises the TypeError "AsyncSession.run() got multiple values for argument 'query'" whatever the query and the graph |
| GraphStore.SearchNodesAnswers | emvr/memory/graph_store.py:391-423 | corrected, search_nodes echoes the query and lists one row per matching (name, entity_type, matching observations), so a name and type can recur: each row comes from a node whose name or type contains the query, and every such node is represented |
| GraphStore.MemoryStore.SearchNodes | emvr/memory/graph_store.py:378-423 | the method gives the version's answer: the TypeError as written, the query with the specified rows corrected |
| GraphStore.OpenNodesRows | emvr/memory/graph_store.py:438-444 | open_nodes lists one row per distinct (name, entity_type) among the nodes whose name was requested, and no other; each row carries, once per time its name was requested, the observations of every node with that name and type, in node order |
| GraphStore.OpenObservationsDistinct | emvr/memory/graph_store.py:439-443 | with no name requested twice, a requested (name, type) collects exactly what read_graph collects for it, and an unrequested one nothing |
| GraphStore.OpenObservationsRepeated | emvr/memory/graph_store.py:439-443 | a name requested twice brings its observations twice |
| GraphStore.MemoryStore.OpenNodes | emvr/memory/graph_store.py:425-464 | the record loop returns exactly the rows OpenNodesRows characterises: one per distinct requested (name, entity_type), with its observations |
| MemoryManager.CopyEntities | emvr/memory/memory_manager.py:70-79 | the entities forwarded are field-for-field the ones given, in order |
| MemoryManager.CopyRelations | emvr/memory/memory_manager.py:97-106 | the relations forwarded are the same (from, type, to) triples, in order |
| MemoryManager.Manager.constructor | emvr/memory/memory_manager.py:13-29 | a new manager is uninitialised over its graph store |
| MemoryManager.Manager.Initialize | emvr/memory/memory_manager.py:31-42 | initialize sets the flag; a second call changes nothing |
| MemoryManager.Manager.Close | emvr/memory/memory_manager.py:44-55 | close clears the flag, and does nothing when the manager was not initialised |
| MemoryManager.Manager.CreateEntities | emvr/memory/memory_manager.py:57-79 | the graph changes as create_entities specifies, and the store's records are returned unchanged |
| MemoryManager.Manager.CreateRelations | emvr/memory/memory_manager.py:84-106 | the graph changes as create_relations specifies for the same triples, and the store's result is returned |
| MemoryManager.Manager.AddObservations | emvr/memory/memory_manager.py:108-126 | forwards to the store and returns its report |
| MemoryManager.Manager.DeleteEntities | emvr/memory/memory_manager.py:128-141 | forwards to the store and returns its answer |
| MemoryManager.Manager.DeleteObservations | emvr/memory/memory_manager.py:143-161 | forwards to the store and returns its report |
| MemoryManager.Manager.DeleteRelations | emvr/memory/memory_manager.py:163-185 | forwards the same triples in order and returns the store's count |
| MemoryManager.Manager.ReadGraph | emvr/memory/memory_manager.py:187-196 | returns the store's read_graph result |
| MemoryManager.Manager.SearchNodes | emvr/memory/memory_manager.py:198-211 | returns the store's search_nodes answer for the version, the raised TypeError included |
| MemoryManager.Manager.OpenNodes | emvr/memory/memory_manager.py:213-226 | returns the store's open_nodes result |
| MemoryManager.Manager.HybridSearch | emvr/memory/memory_manager.py:228-263 | as written, hybrid_search raises the graph search's TypeError (line 256); otherwise it returns the query, the vector store's hybrid results for top_k, and the entities of the graph search |
| VectorStore.MockCount | emvr/memory/vector_store.py:77 | a search yields min(top_k, 3) results, and none when top_k ≤ 0 |
| VectorStore.MockResults | emvr/memory/vector_store.py:76-88 | one result per position up to that count |
| VectorStore.MockResultsFacts | emvr/memory/vector_store.py:79-86 | ids are pairwise distinct, each score equals its relevance, scores strictly decrease down the list, and every result names the store's mock source |
| VectorStore.SimilaritySearch | emvr/memory/vector_store.py:55-112 | similarity_search builds result i as mock-id-i, with score 0.9 − 0.1·i and source mock-data, for i below the count; the filters play no part |
| VectorStore.HybridSearch | emvr/memory/vector_store.py:114-178 | hybrid_search builds result i as hybrid-mock-id-i, with score 0.95 − 0.1·i and source hybrid-mock-data; the filters play no part |
| FusionRetriever.NewFusion | emvr/retrieval/fusion_retriever.py:22-61 | the constructor never attaches a web retriever |
| FusionRetriever.FindId | emvr/retrieval/fusion_retriever.py:185-187 | the lookup in the combined dict finds the entry holding the id, or reports that none does |
| FusionRetriever.AbsorbShape | emvr/retrieval/fusion_retriever.py:184-261 | one iteration appends a fresh entry for a new id, or merges a known id's entry in place with no other entry changed |
| FusionRetriever.AbsorbIds | emvr/retrieval/fusion_retriever.py:184-261 | one iteration keeps ids unique and adds the hit's id |
| FusionRetriever.AbsorbScore | emvr/retrieval/fusion_retriever.py:192-201 | the hit's entry gains (score or 0.5) × weight; every other entry keeps its score |
| FusionRetriever.AbsorbSources | emvr/retrieval/fusion_retriever.py:195-226 | "vector" is appended on every vector hit; "graph" and "web" only when absent; other entries keep their sources |
| FusionRetriever.AbsorbRelated | emvr/retrieval/fusion_retriever.py:228-237 | a repeated graph hit with relation metadata leaves the Related line in the text, appending it only when missing |
| FusionRetriever.AbsorbAllIds | emvr/retrieval/fusion_retriever.py:184-261 | across a source's loop ids stay unique and become the old ids plus the hits' ids |
| FusionRetriever.AbsorbAllScore | emvr/retrieval/fusion_retriever.py:192-201 | across a loop each id's score grows by exactly the weighted scores of its hits |
| FusionRetriever.AbsorbAllVector | emvr/retrieval/fusion_retriever.py:202 | across the vector loop each id's sources gain one "vector" per hit with that id |
| FusionRetriever.AbsorbAllOnce | emvr/retrieval/fusion_retriever.py:225-226 | "graph" and "web" end up at most once in any entry's sources |
| FusionRetriever.AbsorbLoop | emvr/retrieval/fusion_retriever.py:184-202 | the in-place loop yields the specified combination, or the error it raised |
| FusionRetriever.MergeHit | emvr/retrieval/fusion_retriever.py:220-237 | a repeated hit adds its weighted score, records its source, and for graph relation metadata appends the "Related:" line unless the text has it; a missing "target_entity" is the KeyError that abandons the combination |
| FusionRetriever.OverlapScore | emvr/retrieval/fusion_retriever.py:299-302 | the term bonus lies in [0, 0.3] and is 0 without shared terms |
| FusionRetriever.DiversityScore | emvr/retrieval/fusion_retriever.py:305-306 | the diversity bonus lies in [0, 0.2] and is 0.2 from three sources on |
| FusionRetriever.Rescore | emvr/retrieval/fusion_retriever.py:293-310 | the rescored result keeps id, text and metadata; its score lies between half the old score (or 0.5) and that plus 0.5 |
| FusionRetriever.RescoreAll | emvr/retrieval/fusion_retriever.py:293-310 | every result is rescored, position by position |
| FusionRetriever.RescoreOne | emvr/retrieval/fusion_retriever.py:296-308 | one loop iteration gives the result the score Rescore specifies |
| FusionRetriever.RerankResults | emvr/retrieval/fusion_retriever.py:274-313 | the in-place rescoring loop and the re-sort give the specified reranking |
| FusionRetriever.CombineFacts | emvr/retrieval/fusion_retriever.py:264-272 | the combined output has one entry per id, is sorted by score descending (the reranked score when reranking is on), and holds at most top_k results |
| FusionRetriever.CombineSourcesUnique | emvr/retrieval/fusion_retriever.py:180-261 | the three loops leave one entry per id |
| FusionRetriever.UniqueIdsPermutation | emvr/retrieval/fusion_retriever.py:265 | sorting the combined list keeps ids unique |
| FusionRetriever.CombineResults | emvr/retrieval/fusion_retriever.py:161-272 | the method yields the specified combination |
| FusionRetriever.Retrieve | emvr/retrieval/fusion_retriever.py:72-159 | retrieve asks the consulted sources for initial_top_k results each, and returns the combination or an empty list on any exception |
| FusionRetriever.RetrieveConsults | emvr/retrieval/fusion_retriever.py:94-126 | only the consulted sources matter, each only through a fetch of top_k × multiplier (or top_k) results; with the constructor's settings the web is never consulted |
| FusionRetriever.RetrieveFails | emvr/retrieval/fusion_retriever.py:157-159 | any failure of a consulted source makes retrieve return an empty list |
| FusionRetriever.RetrieveFacts | emvr/retrieval/fusion_retriever.py:130-155 | what retrieve returns is sorted by score, holds one result per id, and holds at most top_k of them |
| HybridRetriever.FetchSize | emvr/retrieval/hybrid_retriever.py:71-74 | the index is asked for 2·top_k nodes when reranking, otherwise top_k |
| HybridRetriever.Overlap | emvr/retrieval/hybrid_retriever.py:122-124 | the overlap counts the lowercase whitespace terms shared by query and text; a positive overlap means the query has terms |
| HybridRetriever.Boost | emvr/retrieval/hybrid_retriever.py:128 | the boost lies in [0, 0.5] and is 0.5 once every query term is shared |
| HybridRetriever.RescoreNodeFacts | emvr/retrieval/hybrid_retriever.py:117-129 | a rescored node keeps id, text and metadata and always has a score; a missing score counts as 0.0; a node sharing no term keeps its score; otherwise the score becomes half the old one plus the boost, where the divisor is non-zero |
| HybridRetriever.RescoreNodes | emvr/retrieval/hybrid_retriever.py:117-129 | every node is rescored, position by position |
| HybridRetriever.RescoreInPlace | emvr/retrieval/hybrid_retriever.py:118-129 | one pass of the loop body overwrites the node's score as specified |
| HybridRetriever.RerankNodes | emvr/retrieval/hybrid_retriever.py:100-134 | _rerank_nodes rescores every node, sorts stably by descending score and keeps the first top_k |
| HybridRetriever.RerankSorted | emvr/retrieval/hybrid_retriever.py:132-134 | the reranked list is in descending score order and holds at most top_k nodes |
| HybridRetriever.RerankFrom | emvr/retrieval/hybrid_retriever.py:117-134 | every reranked node is an input node with its new score |
| HybridRetriever.RerankStable | emvr/retrieval/hybrid_retriever.py:132 | nodes with equal new scores keep their input order |
| HybridRetriever.Retrieve | emvr/retrieval/hybrid_retriever.py:57-98 | retrieve fetches the specified number of nodes, reranks them when enabled, and converts the first top_k in order |
| HybridRetriever.RetrieveUnranked | emvr/retrieval/hybrid_retriever.py:87-98 | without reranking the results are the first top_k fetched nodes in order, each copying id, text, score and metadata |
| HybridRetriever.RetrieveRanked | emvr/retrieval/hybrid_retriever.py:83-98 | with reranking the results are sorted by the new score and number at most top_k |
| KnowledgeGraphRetriever.ListFilter | emvr/retrieval/knowledge_graph_retriever.py:87-97 | a filter counts exactly when its key is present with a non-empty list, and then it is that list |
| KnowledgeGraphRetriever.FilterClauses | emvr/retrieval/knowledge_graph_retriever.py:82-98 | the clause text holds the entity-type clause and then the relation-type clause, each only for a non-empty list filter and each binding its parameter |
| KnowledgeGraphRetriever.ClassifyPriority | emvr/retrieval/knowledge_graph_retriever.py:103-133 | the lowercase query picks the implements template when it mentions "implement" or "build", whatever else it mentions; else the related template for "related" or "connection"; else the default template |
| KnowledgeGraphRetriever.FirstKeywordFacts | emvr/retrieval/knowledge_graph_retriever.py:118-124 | the keyword is "" exactly when no token is longer than three characters and outside the stop list; otherwise it is such a token and every earlier token is not |
| KnowledgeGraphRetriever.ExtractKeyword | emvr/retrieval/knowledge_graph_retriever.py:118-124 | the for/else loop yields the first qualifying lowercase whitespace token |
| KnowledgeGraphRetriever.CypherShape | emvr/retrieval/knowledge_graph_retriever.py:104-132 | every template, as written or with its condition parenthesised, matches (n:Entity)-[r:RELATION]->(m:Entity), puts the filter clauses right after its own condition, and ends in LIMIT top_k |
| KnowledgeGraphRetriever.BuildQuery | emvr/retrieval/knowledge_graph_retriever.py:82-133 | the method builds the specified clauses, template and parameters |
| KnowledgeGraphRetriever.PlanParams | emvr/retrieval/knowledge_graph_retriever.py:90-133 | each non-empty list filter binds its list; the related template binds $keyword to the keyword; the default template binds $query to the query as given, not lowercased; nothing else is bound |
| KnowledgeGraphRetriever.NodeById | emvr/retrieval/knowledge_graph_retriever.py:142-144 | the node of a record is the graph node with that id, when there is one |
| KnowledgeGraphRetriever.RunRefusedExactly | emvr/retrieval/knowledge_graph_retriever.py:126-137 | as written, session.run refuses exactly the default template's call, whose $query parameter is a second value for run's own query argument, with that TypeError; the corrected call is never refused |
| KnowledgeGraphRetriever.PassesFacts | emvr/retrieval/knowledge_graph_retriever.py:106-129 | the intended clause enforces the filters, is never weaker than the written one, and agrees with it on every row that meets the filters |
| KnowledgeGraphRetriever.MatchRows | emvr/retrieval/knowledge_graph_retriever.py:105-129 | every matched row is an edge of the graph between its two nodes that the version's WHERE clause admits: `A OR (B AND f)` as written, `(A OR B) AND f` corrected |
| KnowledgeGraphRetriever.MatchRowsComplete | emvr/retrieval/knowledge_graph_retriever.py:105-129 | every edge between two existing nodes whose row the version's WHERE clause admits is matched |
| KnowledgeGraphRetriever.MatchRowsLength | emvr/retrieval/knowledge_graph_retriever.py:105-108 | there are no more matched rows than edges |
| KnowledgeGraphRetriever.ObservationsNamed | emvr/retrieval/knowledge_graph_retriever.py:150-159 | the observation query reaches exactly the observations of entities with that name |
| KnowledgeGraphRetriever.ShownObservationsFacts | emvr/retrieval/knowledge_graph_retriever.py:150-176 | at most three observations are shown, all from entities with that name, and some are shown exactly when such an entity has an observation |
| KnowledgeGraphRetriever.ResultIdParts | emvr/retrieval/knowledge_graph_retriever.py:146 | splitting a result id at '-' gives back the three printed ids |
| KnowledgeGraphRetriever.ResultIdInjective | emvr/retrieval/knowledge_graph_retriever.py:146 | two rows share an id only when their source, relation and target ids agree |
| KnowledgeGraphRetriever.ResultOfFacts | emvr/retrieval/knowledge_graph_retriever.py:146-191 | a result is scored 1.0, carries the row's id and the five metadata keys, and its text starts with the arrow line |
| KnowledgeGraphRetriever.BuildResult | emvr/retrieval/knowledge_graph_retriever.py:142-192 | the loop body builds the specified result for one record |
| KnowledgeGraphRetriever.ResultsOf | emvr/retrieval/knowledge_graph_retriever.py:140-195 | one result per record, in record order |
| KnowledgeGraphRetriever.Retrieve | emvr/retrieval/knowledge_graph_retriever.py:60-199 | retrieve builds the version's query, runs it and converts each record, giving the version's results as RetrieveFromGraph and RetrieveComplete characterise them (the as-written filter bypass and the refused default call included); an unreachable database, a refused run or a negative top_k gives [] |
| KnowledgeGraphRetriever.RetrieveFails | emvr/retrieval/knowledge_graph_retriever.py:197-199 | an unreachable database or a negative top_k gives no results, in either version |
| KnowledgeGraphRetriever.RetrieveDefaultFailsAsWritten | emvr/retrieval/knowledge_graph_retriever.py:125-137 | as written, a query that mentions none of "implement", "build", "related", "connection" gets no results whatever the graph holds |
| KnowledgeGraphRetriever.RetrieveFromGraph | emvr/retrieval/knowledge_graph_retriever.py:136-195 | there are at most top_k results, each the result of a row the version's WHERE clause admits, made from an edge between two graph nodes: scored 1.0, with an id naming the three ids and metadata repeating their names and types |
| KnowledgeGraphRetriever.RetrieveHonoursFilters | emvr/retrieval/knowledge_graph_retriever.py:85-98 | with the corrected WHERE clause every result respects both filters |
| KnowledgeGraphRetriever.RetrieveComplete | emvr/retrieval/knowledge_graph_retriever.py:103-195 | when top_k covers every edge and the run is not refused, every edge between two graph nodes whose row the version's WHERE clause admits yields its full result |
| KnowledgeGraphRetriever.FilterBypassedAsWritten | emvr/retrieval/knowledge_graph_retriever.py:103-109 | as written, retrieve returns an "implements" edge whose source type is outside a non-empty entity_types filter; the corrected retrieve leaves that result out |
| KnowledgeGraphRetriever.SourceTypeExcluded | emvr/retrieval/knowledge_graph_retriever.py:85-98 | with the corrected WHERE clause, no row whose source type lies outside a non-empty entity_types filter yields a result |
| RetrievalPipeline.ModeKindFacts | emvr/retrieval/pipeline.py:108-119 | each valid mode selects its own retriever, and every other mode selects the fusion retriever |
| RetrievalPipeline.RetrieveSucceeds | emvr/retrieval/pipeline.py:163-191 | the count is the number of results; a success restores and reports the original mode, with the results of the override's retriever, or of the current mode's without an override |
| RetrievalPipeline.RetrieveFails | emvr/retrieval/pipeline.py:163-201 | a failure returns no results and the error; an invalid override changes nothing, and a valid override whose retriever raises stays in force |
| RetrievalPipeline.Texts | emvr/retrieval/pipeline.py:257-259 | the texts of the results, in order |
| RetrievalPipeline.CombinedFacts | emvr/retrieval/pipeline.py:262-269 | the existing context stays in front and every retrieved text is added; with no texts the context comes back unchanged (None as "") |
| RetrievalPipeline.EnrichFacts | emvr/retrieval/pipeline.py:248-286 | the sources count is the number of fusion results; when the fusion retriever raises there are none, the context comes back as it was, and the mode stays "fusion" |
| RetrievalPipeline.Pipeline.constructor | emvr/retrieval/pipeline.py:26-60 | the mode is stored as given, and no retriever is built yet |
| RetrievalPipeline.Pipeline.Lazy | emvr/retrieval/pipeline.py:63-105 | a lazy property builds its retriever on first access and returns the same instance on every later one; nothing else changes |
| RetrievalPipeline.Pipeline.ActiveRetriever | emvr/retrieval/pipeline.py:107-119 | active_retriever returns the current mode's retriever, built if needed, and leaves the mode and the other caches alone |
| RetrievalPipeline.Pipeline.SetRetrievalMode | emvr/retrieval/pipeline.py:121-139 | a valid mode is stored; any other raises ValueError with its message and leaves the mode as it was |
| RetrievalPipeline.Pipeline.Retrieve | emvr/retrieval/pipeline.py:141-201 | the response and the mode afterwards are those of the specification |
| RetrievalPipeline.Pipeline.SearchHybrid | emvr/retrieval/pipeline.py:203-228 | search_hybrid is retrieve with the mode "fusion" |
| RetrievalPipeline.Pipeline.EnrichContext | emvr/retrieval/pipeline.py:230-286 | the answer and the mode afterwards are those of the specification |
| RetrieversPipeline.PreprocessFacts | emvr/retrievers/retrieval_pipeline.py:71-90 | a preprocessed query has no whitespace at either end and only single spaces between words, and preprocessing it again changes nothing |
| RetrieversPipeline.AugmentFacts | emvr/retrievers/retrieval_pipeline.py:92-118 | the query is kept; the entities are the extractor's exactly when it reports success, and there are none otherwise |
| RetrieversPipeline.Tagged | emvr/retrievers/retrieval_pipeline.py:144-149 | every vector result is kept in order, with final score its score (0.0 if absent) and sources ["vector"] |
| RetrieversPipeline.FirstWithContent | emvr/retrievers/retrieval_pipeline.py:156 | the scan finds the first collected result with that content, or reports that none has it |
| RetrieversPipeline.FindByContent | emvr/retrievers/retrieval_pipeline.py:156 | the loop finds the same result as the specification |
| RetrieversPipeline.AddGraphFacts | emvr/retrievers/retrieval_pipeline.py:152-168 | a graph result whose content is already collected boosts the first such result by 0.2 and appends "graph", leaving the rest as it was; any other is added at the end with sources ["graph"] |
| RetrieversPipeline.MergePrefix | emvr/retrievers/retrieval_pipeline.py:152-168 | the graph loop never drops or reorders what is collected, and adds at most one result and one "graph" per graph result |
| RetrieversPipeline.MergeTagged | emvr/retrievers/retrieval_pipeline.py:152-168 | the graph loop keeps every collected result labelled consistently: its first source names its list, later sources are "graph", and each adds 0.2 |
| RetrieversPipeline.CollectTagged | emvr/retrievers/retrieval_pipeline.py:144-168 | every collected result is labelled consistently after both loops |
| RetrieversPipeline.CollectVectorFirst | emvr/retrievers/retrieval_pipeline.py:144-168 | the vector results stay in order at the front, each with "vector" first and a final score between its score and that plus 0.2 per graph result; without graph results the list is exactly the tagged vector results |
| RetrieversPipeline.FuseSorted | emvr/retrievers/retrieval_pipeline.py:171-174 | the fused list is sorted by final score descending, holds at most max_results collected results, and keeps collection order among equal scores when nothing is cut |
| RetrieversPipeline.TagVector | emvr/retrievers/retrieval_pipeline.py:144-149 | the vector loop tags every vector result, in order, with its score (0.0 if absent) and the sources ["vector"] |
| RetrieversPipeline.AddGraphStep | emvr/retrievers/retrieval_pipeline.py:153-168 | one graph pass boosts the first collected result with the same content or appends the graph result, as AddGraphFacts states |
| RetrieversPipeline.MergeGraph | emvr/retrievers/retrieval_pipeline.py:152-168 | the graph loop yields the specified merge of every graph result into the collected list |
| RetrieversPipeline.FuseResults | emvr/retrievers/retrieval_pipeline.py:120-174 | the two loops, the in-place sort and the cut give the specified fusion |
| RetrieversPipeline.VectorGate | emvr/retrievers/retrieval_pipeline.py:215-221 | without use_vector the vector retriever plays no part and there are no vector results |
| RetrieversPipeline.GraphGate | emvr/retrievers/retrieval_pipeline.py:223-229 | without use_graph, or without entities, the graph retriever plays no part and there are no graph results |
| RetrieversPipeline.GatherFacts | emvr/retrievers/retrieval_pipeline.py:205-229 | gathering succeeds exactly when the extractor and every consulted retriever answer, and the lists are then theirs |
| RetrieversPipeline.FuseFacts | emvr/retrievers/retrieval_pipeline.py:232-236 | the fused results number at most top_k, are sorted by final score, and none is scored below its own score |
| RetrieversPipeline.RetrieveFacts | emvr/retrievers/retrieval_pipeline.py:200-262 | a success reports the original and normalised query, the fusion of the gathered lists and their counts; a failure carries the original query and the first error |
| RetrieversPipeline.RetrieveKeepsQuery | emvr/retrievers/retrieval_pipeline.py:244-262 | either form of the response carries the query as given |
| RetrieversPipeline.SummaryNamesQuery | emvr/retrievers/retrieval_pipeline.py:309-310 | the summary names the query between quotes |
| RetrieversPipeline.TopLineFacts | emvr/retrievers/retrieval_pipeline.py:312-313 | there is a top line exactly when there are results; it shows the first 100 characters of the top content and is at most 116 long |
| RetrieversPipeline.GenerateFacts | emvr/retrievers/retrieval_pipeline.py:296-317 | a failure passes through unchanged; a success gains only the summary: the counts line, then the top result's preview exactly when there are results |
| RetrieversPipeline.Pipeline.constructor | emvr/retrievers/retrieval_pipeline.py:40-45 | a new pipeline is not initialised |
| RetrieversPipeline.Pipeline.Initialize | emvr/retrievers/retrieval_pipeline.py:47-64 | set-up runs only while not initialised; a set-up error is re-raised and leaves the pipeline uninitialised; later calls do nothing |
| RetrieversPipeline.Pipeline.EnsureInitialized | emvr/retrievers/retrieval_pipeline.py:66-69 | initialises unless already initialised |
| RetrieversPipeline.Pipeline.Retrieve | emvr/retrievers/retrieval_pipeline.py:176-263 | a set-up error escapes; once initialised, the response is the specified one, every later exception giving the failure form |
| RetrieversPipeline.Pipeline.RetrieveAndGenerate | emvr/retrievers/retrieval_pipeline.py:265-317 | retrieve, then the summary on success, as specified |
| SupervisorWorkers.EntryFacts | emvr/agent/supervisor/workers.py:74-77 | an entry opens with its bracketed number and the result's text, then names the result's source, or "Unknown" when there is none |
| SupervisorWorkers.SearchFacts | emvr/agent/supervisor/workers.py:69-79 | a search tool answers its no-results text exactly when there are no results; otherwise it lists every result's entry, numbered from 1, in order |
| SupervisorWorkers.SearchTool | emvr/agent/supervisor/workers.py:63-96 | the entry-by-entry loop of search and kg_search, sync or async, builds the specified answer |
| SupervisorWorkers.ObservationTextFacts | emvr/agent/supervisor/workers.py:259-262 | a preview shows the first three observations in full, followed by the count of the others exactly when there are others |
| SupervisorWorkers.GraphPieces | emvr/agent/supervisor/workers.py:274-279 | a non-empty graph's answer is made of the entity section, the relation section and the partial-results note, in that order |
| SupervisorWorkers.ReadGraphFacts | emvr/agent/supervisor/workers.py:254-276 | the answer is "Knowledge graph is empty." exactly when there are neither entities nor relations; otherwise it starts with "Entities:" and holds the line of every shown entity and relation |
| SupervisorWorkers.ReadGraphTruncation | emvr/agent/supervisor/workers.py:258-279 | only the first 10 entities and 10 relations matter, and the partial-results note appears exactly when more exist |
| SupervisorWorkers.PreviewObservations | emvr/agent/supervisor/workers.py:259-262 | the method builds the specified preview |
| SupervisorWorkers.DescribeEntities | emvr/agent/supervisor/workers.py:257-266 | one line per shown entity, in order |
| SupervisorWorkers.DescribeRelations | emvr/agent/supervisor/workers.py:268-272 | one line per shown relation, in order |
| SupervisorWorkers.FormatGraph | emvr/agent/supervisor/workers.py:251-281 | the loop-built rendering equals the specified answer |
| SupervisorWorkers.ReadGraphTool | emvr/agent/supervisor/workers.py:245-281 | the corrected tool reads the relation type under "relation", the key read_graph writes |
| SupervisorWorkers.ReadGraphToolAsWritten | emvr/agent/supervisor/workers.py:271 | the tool as written reads the relation type under "relation_type" |
| SupervisorWorkers.ReadGraphShowsRelations | emvr/agent/supervisor/workers.py:268-276 | read under "relation", every shown relation appears with its type |
| SupervisorWorkers.ReadGraphDropsRelationType | emvr/agent/supervisor/workers.py:271 | read under "relation_type", every shown relation appears with "None" as its type |
| SupervisorWorkers.RelationTypeLostExample | emvr/agent/supervisor/workers.py:271 | for the graph "alice knows bob" the tool as written shows "alice --None--> bob" |
| SupervisorWorkers.NodesFacts | emvr/agent/supervisor/workers.py:521-540 | the answer is "No nodes found." exactly when no rows were found; otherwise it holds the line of each of the first 10 rows, and the top-10 note exactly when more were found |
| SupervisorWorkers.DescribeNodes | emvr/agent/supervisor/workers.py:524-533 | one line per shown row, in order |
| SupervisorWorkers.FormatNodes | emvr/agent/supervisor/workers.py:521-540 | the loop-built rendering equals the specified answer |
| SupervisorWorkers.SearchNodesTool | emvr/agent/supervisor/workers.py:513-540 | the corrected tool reads rows under "entities" and observations under "all_observations", the keys search_nodes writes |
| SupervisorWorkers.SearchNodesToolAsWritten | emvr/agent/supervisor/workers.py:519-526 | the tool as written reads rows under "nodes" and observations under "observations" |
| SupervisorWorkers.SearchNodesNeverFindsAsWritten | emvr/agent/supervisor/workers.py:519-522 | as written the tool answers "No nodes found." whatever search_nodes returns |
| SupervisorWorkers.SearchNodesFinds | emvr/agent/supervisor/workers.py:513-540 | reading "entities", the tool reports no nodes exactly when none were found, and shows each of the first 10 with a preview of all its observations |
| SupervisorWorkers.ConfirmationFacts | emvr/agent/supervisor/workers.py:437-507 | each confirmation text of the create and add tools names what was asked for, after a fixed prefix (the tools reach it only when corrected, see MemoryTool) |
| SupervisorWorkers.MemoryTool | emvr/agent/supervisor/workers.py:420-507 | the create_entity, create_relation and add_observations tool bodies: the new graph and the reply are MemoryToolSpec's for the version, and the store stays valid; as written the manager raises before the store is touched, corrected the manager's create_entities, create_relations or add_observations runs and the confirmation follows |
| SupervisorWorkers.ToolsRaiseAsWritten | emvr/memory/memory_manager.py:70-126 | as written every memory-tool call ends in the manager's error (a dict has no `name` or `from_entity`; add_observations misses its `observations` argument), never in the confirmation, and the graph is unchanged |
| SupervisorWorkers.ToolsConfirmCorrected | emvr/agent/supervisor/workers.py:420-507 | corrected, create_entity and add_observations always confirm and create_relation confirms exactly when both endpoint names exist (a missing one escapes as the store's error); any reply that succeeds is the call's confirmation; create_entity adds exactly one node, new, with the name and type asked for; no call loses an edge |
| SupervisorWorkers.RunEnvelopeFacts | emvr/agent/supervisor/workers.py:123-156 | a run succeeds exactly when the executor answers with an output, which it returns with the intermediate steps; otherwise the output is empty and the error is the exception's text |
| MemoryAgent.MemorySearchTool | emvr/agent/memory_agent.py:68-104 | memory_search lists the results numbered from 1 with their sources, or "No results found." when there are none |
| MemoryAgent.MemoryReadTool | emvr/agent/memory_agent.py:106-184 | memory_read_graph renders at most 10 entities and 10 relations, with previews of 3 observations, reading the relation type under "relation" |
| MemoryAgent.MemoryReadShowsGraph | emvr/agent/memory_agent.py:116-147 | every shown relation appears with its type, every one of the first 10 entities with its first 3 observations and the count of the others, and the empty-graph text only for an empty graph |
| MemoryAgent.RunFacts | emvr/agent/memory_agent.py:213-253 | run returns a result unless the exception is none of KeyError, ValueError and RuntimeError, which then escapes; a result succeeds exactly when the executor answered with an output; a failed one has an empty output and an error naming its family |
| SupervisorBase.HandoffRoundTrip | emvr/agent/supervisor/base.py:155-158 | a handoff tool's name is a transfer call, and routes back to its worker whenever the worker's name does not itself contain "transfer_to_" |
| SupervisorBase.HandoffReplyFacts | emvr/agent/supervisor/base.py:261-263 | the handoff reply names the worker and repeats the handed-off task after it |
| SupervisorBase.FirstTransfer | emvr/agent/supervisor/base.py:154-160 | the first transfer call of a message is found exactly when it has one, and is a transfer call of that message |
| SupervisorBase.NoTransferEnds | emvr/agent/supervisor/base.py:149-164 | without any transfer call in the reply the supervisor routes to "END" |
| SupervisorBase.LastTransferWins | emvr/agent/supervisor/base.py:150-162 | the last message holding a transfer call decides, and within it the first transfer call |
| SupervisorBase.LastWithRole | emvr/agent/supervisor/base.py:186-191 | the last message with a role is found exactly when there is one |
| SupervisorBase.WorkerEffectFacts | emvr/agent/supervisor/base.py:183-237 | the worker runs only when there is a user message, and then on the last one; without one the node adds only the system note; a return adds one assistant message with the output |
| SupervisorBase.WorkerErrorText | emvr/agent/supervisor/base.py:222-236 | the error notes name the worker and carry the exception's text |
| SupervisorBase.GraphState.constructor | emvr/agent/supervisor/base.py:302-307 | the initial state holds the query as the only user message, with no next agent and no error |
| SupervisorBase.GraphState.SupervisorNode | emvr/agent/supervisor/base.py:140-166 | the reply's messages are appended and the next agent is the one the reply routes to; the error is kept |
| SupervisorBase.GraphState.WorkerNode | emvr/agent/supervisor/base.py:183-237 | the state takes the worker effect, or stays as it was when an exception escapes |
| SupervisorBase.RunFacts | emvr/agent/supervisor/base.py:278-342 | a normal run reports the last snapshot's last assistant content ("" without one) and all snapshots, succeeding exactly when that snapshot holds no error; a ValueError or KeyError becomes a failed report and anything else escapes |
| SupervisorBase.Run | emvr/agent/supervisor/base.py:309-342 | following the stream to its last snapshot gives the specified report |
| SupervisorWorkflow.AnalyzeConditionFacts | emvr/agents/supervisors/supervisor.py:320-337 | the router asks for ingestion exactly when the lowercase analysis mentions "needs_ingestion", for execution when it mentions "execute" but not that, and for a response otherwise |
| SupervisorWorkflow.GraphFacts | emvr/agents/supervisors/supervisor.py:168-185 | every step except ANALYZING has one successor whatever the state; ANALYZING goes where the router sends it; END follows only RESPONDING; nothing returns to PLANNING and only ANALYZING leads to INGESTING |
| SupervisorWorkflow.PlanningFacts | emvr/agents/supervisors/supervisor.py:190-229 | a successful plan is the reply split at line breaks, which joined again give back the reply, starting at step 0; a failed one keeps the old plan and records the error |
| SupervisorWorkflow.FallbackFacts | emvr/agents/supervisors/supervisor.py:261-318 | a failed analysis records its error and routes to EXECUTING; a failed retrieval records its error, leaves an empty context and goes on to ANALYZING |
| SupervisorWorkflow.StepFrames | emvr/agents/supervisors/supervisor.py:190-524 | each step writes only its own keys, never changes the input, and sets the error exactly when it failed; RESPONDING always sets the final response |
| SupervisorWorkflow.DriveResponds | emvr/agents/supervisors/supervisor.py:182 | whatever reaches END has been through RESPONDING and holds a final response |
| SupervisorWorkflow.DriveFailsOnLimit | emvr/agents/supervisors/supervisor.py:546 | the only way the graph run fails is LangGraph's step limit |
| SupervisorWorkflow.RunFacts | emvr/agents/supervisors/supervisor.py:526-566 | a run reaching END reports "success" with the response RESPONDING produced; one stopped by the step limit reports "error" with the limit's text; there is no other status |
| SupervisorWorkflow.ExecutePath | emvr/agents/supervisors/supervisor.py:180-182 | from EXECUTING the run reaches END in three steps |
| SupervisorWorkflow.RunWithoutIngestionSucceeds | emvr/agents/supervisors/supervisor.py:168-182 | a run whose analysis never asks for ingestion reaches END within six steps, so with a step limit of at least 6 it succeeds |
| SupervisorWorkflow.Step | emvr/agents/supervisors/supervisor.py:167-185 | taking one node's step and then its edge leaves the rest of the run unchanged |
| SupervisorWorkflow.Run | emvr/agents/supervisors/supervisor.py:526-566 | stepping through the graph from PLANNING until END or the step limit gives the specified output |
| WorkerAgent.ContextEntries | emvr/agents/workers/worker.py:94-97 | one entry per document, in order, numbered from 1 |
| WorkerAgent.ContextFacts | emvr/agents/workers/worker.py:91-97 | the context string is empty exactly when there are no documents; otherwise it opens with the header and holds each document's entry, with "Unknown" for a missing source and "" for missing content |
| WorkerAgent.FullInputFacts | emvr/agents/workers/worker.py:100 | without documents the executor gets exactly the input text; with documents it gets the context string, then "\n\nTask: ", then the input text |
| WorkerAgent.BuildContext | emvr/agents/workers/worker.py:91-97 | the loop builds the specified context string |
| WorkerAgent.DescribeDoc | emvr/agents/workers/worker.py:95-97 | one document's entry, as specified |
| WorkerAgent.ReplyFacts | emvr/agents/workers/worker.py:103-120 | the reply succeeds exactly when the executor answers with an output, which becomes the response with the steps (default []); any exception gives status "error" with the text in "error" and in the response |
| WorkerAgent.Run | emvr/agents/workers/worker.py:71-120 | the executor is asked the full input built from the context keyword, and its answer gives the specified reply |
| Orchestration.WorkerRegistry | emvr/agents/orchestration.py:62-110 | the registry holds every custom agent under its own name, and the default agent under each default name that the custom agents leave free; no other names |
| Orchestration.InitializeWorkers | emvr/agents/orchestration.py:62-110 | the step-by-step registration builds the specified registry |
| Orchestration.RunWorkerFacts | emvr/agents/orchestration.py:152-181 | an unknown worker gives an error reply naming it; a worker's reply is returned as it is; a worker's exception becomes an error reply with its text |
| Orchestration.Orchestrator.constructor | emvr/agents/orchestration.py:35-60 | a new orchestrator holds the specified registry |
| Orchestration.Orchestrator.Run | emvr/agents/orchestration.py:127-150 | run answers as the supervisor workflow does for the input |
| Orchestration.Orchestrator.RunWorker | emvr/agents/orchestration.py:152-181 | run_worker answers as specified for the current registry |
| Orchestration.Slot.constructor | emvr/agents/orchestration.py:188-189 | the global orchestrator starts unset |
| Orchestration.Slot.InitializeOrchestration | emvr/agents/orchestration.py:188-229 | the first call creates the orchestrator with the specified registry and stores it; later calls return the stored one unchanged; get_orchestrator then returns it |
| AgentEndpoints.ThreadIdOf | emvr/mcp_server/endpoints/agent_endpoints.py:86 | the thread id is the one given when it is non-empty, otherwise the generated one |
| AgentEndpoints.WithRunKeys | emvr/mcp_server/endpoints/agent_endpoints.py:89-93 | the workflow parameters always hold the thread id, hold the context only when it is non-empty, and keep every other key of the given parameters |
| AgentEndpoints.ParamDict.constructor | emvr/mcp_server/endpoints/agent_endpoints.py:89 | a parameter dict holds the given entries |
| AgentEndpoints.PrepareParams | emvr/mcp_server/endpoints/agent_endpoints.py:89-93 | a non-empty caller dict is updated in place and used; a missing or empty one is replaced by a fresh dict and left as it was |
| AgentEndpoints.FirstClash | emvr/mcp_server/endpoints/agent_endpoints.py:96 | a keyword clash is found exactly when one of the method's own parameter names is among the keyword arguments |
| AgentEndpoints.AgentRunFacts | emvr/mcp_server/endpoints/agent_endpoints.py:71-116 | the thread id is echoed or generated; without an orchestrator the envelope is the not-initialised error; success holds exactly with an orchestrator and no clashing keyword; a success carries the workflow's response and error, with status "error" exactly when that error is non-empty |
| AgentEndpoints.AgentRunWorkerFacts | emvr/mcp_server/endpoints/agent_endpoints.py:144-189 | the same rules for agent_run_worker, and an unknown worker gives a successful envelope with status "error" and an error naming the worker |
| AgentEndpoints.AgentRun | emvr/mcp_server/endpoints/agent_endpoints.py:71-116 | the endpoint returns the specified envelope, and leaves the caller's dict untouched when there is no orchestrator |
| AgentEndpoints.AgentRunWorker | emvr/mcp_server/endpoints/agent_endpoints.py:144-189 | the endpoint returns the specified envelope, and leaves the caller's dict untouched when there is no orchestrator |
| Auth.LoadRbacConfig | emvr/mcp_server/middleware/auth.py:22-32 | a readable configuration is used as it is; a missing or unreadable file gives empty roles and users |
| Auth.GrantedFacts | emvr/mcp_server/middleware/auth.py:46-48 | a permission is granted by a list of roles exactly when some listed, defined role carries it |
| Auth.UserPermissionsFacts | emvr/mcp_server/middleware/auth.py:39-50 | a user holds a permission exactly when one of the user's roles is defined and carries it; an unknown user holds none |
| Auth.GetUserPermissions | emvr/mcp_server/middleware/auth.py:39-50 | the role-by-role loop computes the specified permission set |
| Auth.CheckPermissionFacts | emvr/mcp_server/middleware/auth.py:65-81 | the check passes exactly when one of the token subject's roles carries "*" or the required permission (a missing subject counts as ""); otherwise it raises 403 "Not enough permissions" |
| Auth.VerifyToken | emvr/mcp_server/middleware/auth.py:52-63 | the payload is returned exactly when the token decodes; otherwise the 401 "Invalid authentication credentials" error |
| Auth.RequestIndex | emvr/mcp_server/middleware/auth.py:88-93 | the position of the first request argument, every earlier argument being no request |
| Auth.RequestIndexAfter | emvr/mcp_server/middleware/auth.py:88-93 | arguments without a request do not change which request comes first after them |
| Auth.FirstRequestAfter | emvr/mcp_server/middleware/auth.py:88-93 | with no request among the positional arguments, the request is the first among the keyword values |
| Auth.FindRequest | emvr/mcp_server/middleware/auth.py:88-93 | the two searches find the first request of the positional arguments, then of the keyword values |
| Auth.TokenOfSplit | emvr/mcp_server/middleware/auth.py:114 | a token is found exactly when the header splits at ' ' into at least two parts, and it is the second part |
| Auth.RequiresPermissionFacts | emvr/mcp_server/middleware/auth.py:83-125 | no request gives 500 even when auth is skipped; SKIP_AUTH calls through; a missing or empty header gives 401 "missing"; a header without a space or a token that does not decode gives 401 "invalid"; a decodable token calls through exactly when the check passes, and otherwise gives 403 |
| Auth.RequiresPermission | emvr/mcp_server/middleware/auth.py:87-125 | the wrapper decides as specified |
| GenerateToken.ClassifyFacts | emvr/deployment/scripts/generate_token.py:26-28 | a stripped line is skipped exactly when it is empty or starts with "#"; a kept line with an "=" splits into a key free of "=" and the rest; a kept line without "=" is malformed |
| GenerateToken.ClassifyAll | emvr/deployment/scripts/generate_token.py:25-26 | one classification per line of the file |
| GenerateToken.ClassifyAllAt | emvr/deployment/scripts/generate_token.py:25-28 | the classification at position i is that of line i |
| GenerateToken.LoadEnvSpec | emvr/deployment/scripts/generate_token.py:20-23 | a missing .env file gives no variables |
| GenerateToken.EnvFoldFails | emvr/deployment/scripts/generate_token.py:28 | reading fails exactly when some line is malformed, and then with the two-way unpacking error |
| GenerateToken.EnvFoldLastWins | emvr/deployment/scripts/generate_token.py:27-29 | a variable is defined exactly when some line assigns it, and holds the value of the last line that does |
| GenerateToken.EnvFoldPrefixFails | emvr/deployment/scripts/generate_token.py:25-29 | once a prefix of the file fails, the whole file fails with the same error |
| GenerateToken.LoadEnvFacts | emvr/deployment/scripts/generate_token.py:18-31 | over the file's raw lines: failure exactly on a kept line without "=", a key present exactly when a kept line assigns it, the last assignment wins |
| GenerateToken.ParseLine | emvr/deployment/scripts/generate_token.py:26-29 | one loop step strips, skips or splits the line as classified |
| GenerateToken.LoadEnv | emvr/deployment/scripts/generate_token.py:18-31 | the loop returns the variables the lines define, or the unpacking error at the first malformed line |
| GenerateToken.Secret | emvr/deployment/scripts/generate_token.py:36 | a non-empty JWT_SECRET from the file wins, then the process environment's (even an empty one), then the default "your-jwt-secret-key" |
| GenerateToken.GenerateTokenFacts | emvr/deployment/scripts/generate_token.py:33-59 | the token fails exactly when a .env line is malformed, the RBAC file cannot be read, expiry_days exceeds 999999999 in magnitude, or the expiry falls outside years 1 to 9999; the first of these decides the error text |
| GenerateToken.GenerateTokenSigns | emvr/deployment/scripts/generate_token.py:35-57 | a signed token encodes sub = the user id, iat = the issuing clock and exp = the expiry clock plus 86400 seconds per day, under the secret chosen from the .env file and the environment |
| GenerateToken.GenerateToken | emvr/deployment/scripts/generate_token.py:33-59 | the method returns the token or the first error, as GenerateTokenFacts and GenerateTokenSigns describe |
| FileUpload.LastIndexOf | emvr/ui/components/file_upload.py:67 | the position found holds the character and no later position does; none exactly when the character is absent |
| FileUpload.BaseName | emvr/ui/components/file_upload.py:67 | the base name holds no "/" |
| FileUpload.Suffix | emvr/ui/components/file_upload.py:67 | the suffix is empty, or a proper tail of the base name of at least two characters that starts with its only "." |
| FileUpload.Hundredths | emvr/ui/components/file_upload.py:82 | the size in MiB is shown to within half a hundredth |
| FileUpload.ProcessFileUpload | emvr/ui/components/file_upload.py:51-119 | an unreadable file fails with the error; an empty MIME type never fails the type test; an unknown type with an unsupported extension is refused whatever the size; above 20 MiB the file is refused; otherwise ingestion's result is returned and counts as success exactly when its status is "success" or it has an "id"; an ingestion exception fails with status "error" and its text |
| GraphVisualizer.VisNodes | emvr/ui/components/graph_visualizer.py:71-80 | one node per record, in order, each built from its record |
| GraphVisualizer.VisEdges | emvr/ui/components/graph_visualizer.py:84-92 | one edge per record, in order, each built from its record |
| GraphVisualizer.Kept | emvr/ui/components/graph_visualizer.py:67-69 | the loop keeps min(max_nodes, n) records, and none when max_nodes is not positive |
| GraphVisualizer.ViewSpec | emvr/ui/components/graph_visualizer.py:63-98 | the first max_nodes node records with their name, their type under the type key and their observations (defaults "", "Entity" and none), every relationship record with its type (default "related"), status "success" |
| GraphVisualizer.BuildNodes | emvr/ui/components/graph_visualizer.py:67-80 | the node loop that breaks at max_nodes builds the specified nodes |
| GraphVisualizer.BuildEdges | emvr/ui/components/graph_visualizer.py:83-92 | the edge loop builds the specified edges |
| GraphVisualizer.View | emvr/ui/components/graph_visualizer.py:62-98 | the two loops give the specified view |
| GraphVisualizer.CenteredQueryFacts | emvr/ui/components/graph_visualizer.py:45-57 | the centred Cypher query bounds the path length by max_depth and the rows by max_nodes |
| GraphVisualizer.PrepareGraphData | emvr/ui/components/graph_visualizer.py:21-107 | prepare_graph_data initialises the memory manager, then gives the version's view: of the centred result for a non-empty centre, else of the manager's read_graph result |
| GraphVisualizer.NothingShownAsWritten | emvr/ui/components/graph_visualizer.py:43-107 | as written, a non-empty centre gives the error view of the missing `_graphiti` attribute and any other call an empty success, whatever the graph holds |
| GraphVisualizer.WholeGraphShown | emvr/ui/components/graph_visualizer.py:60-98 | corrected, the whole-graph view shows the first max_nodes entities by name, entity type and observations, and every relation with its type |
| GraphVisualizer.CenteredShown | emvr/ui/components/graph_visualizer.py:43-57 | corrected, a centred view is the error view of a failed query, or the loops' view (ViewSpec) of its result under the keys the loops read: at most max_nodes nodes and every relationship |
| UserProfiles.DisplayNameOf | emvr/ui/components/user_profile.py:108 | the given display name unless it is missing or empty, and then the user id |
| UserProfiles.Lookup | emvr/ui/components/user_profile.py:41 | the stored value of a present key, the default for an absent one |
| UserProfiles.UserProfile.constructor | emvr/ui/components/user_profile.py:17-27 | a new profile has no preferences and no API keys |
| UserProfiles.UserProfile.FromData | emvr/ui/components/user_profile.py:91 | a profile rebuilt from its dictionary has exactly those fields |
| UserProfiles.UserProfile.GetPreference | emvr/ui/components/user_profile.py:29-41 | the stored value of a present key, the default for an absent one |
| UserProfiles.UserProfile.SetPreference | emvr/ui/components/user_profile.py:43-52 | afterwards the key reads back the value for every default, every other key reads as before, and nothing else of the profile changes |
| UserProfiles.UserProfile.GetApiKey | emvr/ui/components/user_profile.py:54-65 | a key exactly when the service has one, and it is the stored one |
| UserProfiles.UserProfile.SetApiKey | emvr/ui/components/user_profile.py:67-76 | afterwards the service reads back the key, every other service reads as before, and the preferences are untouched |
| UserProfiles.Session.constructor | emvr/ui/components/user_profile.py:87-89 | a new session holds no profile |
| UserProfiles.Session.GetCurrentUserProfile | emvr/ui/components/user_profile.py:79-91 | no stored profile gives null; otherwise a new profile equal to the stored copy |
| UserProfiles.Session.CreateUserProfile | emvr/ui/components/user_profile.py:94-116 | a new profile named display_name or user_id with no preferences or keys, whose copy the session now holds |
| UserProfiles.Session.UpdateUserProfile | emvr/ui/components/user_profile.py:119-130 | the session now holds a copy of the profile as it is |

## Left out

- Databases, LLMs and frameworks are not modelled. The Neo4j driver, the llama_index engines, LangChain executors, LangGraph compilation and streaming, and the chat models are oracle functions or parameters, chosen per call. Neo4j row order is taken to be the store's insertion order, which is one order Neo4j may return.
- Concurrency is not modelled. `asyncio.gather` in the fusion retriever and every `await` run one after another.
- Scores are `real`. Floating-point rounding and the `:.4f` relevance formatting are not modelled.
- uuids, the clock, the `SKIP_AUTH` and `JWT_SECRET` environment values, file sizes and the `.env`/`rbac.json` file contents are parameters. JWT encoding and decoding are oracle functions.
- Logging (`logger.*`, `ctx.info`, `ctx.error`) and the warning `print` of generate_token.py:38-44 have no effect on results and are left out.
- The Chainlit session is modelled only for the profile, as a `Session` class holding the copy `profile.dict()` makes. The upload's session-cached ingestion pipeline and its `initialize` are folded into the ingestion oracle.
- `lower()` and `toLower` are modelled on ASCII letters only. `strip()` and `split()` use the whitespace set of `Text.IsSpace`.
- Python call errors with several causes are modelled with one fixed text. This covers a `TypeError` from a duplicate keyword argument; the model names the first clash in signature order.
- Auth: an `rbac.json` that parses to something other than the expected dictionary is not modelled. In generate_token.py any failure while reading it is one error text, a parameter.
- HTTP header lookup is case-insensitive in Starlette; the model reads one `authorization` field. The truthiness of a `Request` object is not modelled.
- `Path(name).suffix` is modelled on "/"-separated names without trailing-slash normalisation.
- The research worker's `SearchTool` applied to a dictionary result is not modelled; the tool is modelled on a list of results.
- The `except` branches of `enrich_context` (emvr/retrieval/pipeline.py) and of `Orchestrator.run` beyond the supervisor call are unreachable in the model, because the calls they guard are total here.
- The aliasing in `_fuse_results`, which mutates the vector results it was given, is not modelled: the model builds new records.
- LangGraph's `add_messages` reducer is modelled as appending. `HumanMessage` is a message with role "user". `_build_graph` is not modelled beyond the fixed edge relation.
- The LangGraph recursion limit is the `fuel` parameter of `SupervisorWorkflow.Drive`. Running out of it yields the oracle's limit error.
- The supervisor's `worker_agents` argument, which the graph never consults, is not modelled.
- A `context` argument of the worker agent that is not a list is not modelled.
- FileUpload.Hundredths: the MiB figure is rounded exactly, ties to even, rather than from the binary float that `:.2f` formats.
- FileUpload.ProcessFileUpload: the contract fixes the type-rejection message but not the wording of the size, success and failure messages. The function body builds them as the source does.
- GraphVisualizer: the Cypher call a corrected centred view would make is an oracle. `read_graph` reads the in-memory store, so a driver failure during the whole-graph read is not modelled.
- The `query` keyword clash rests on the signature of the neo4j async driver's `AsyncSession.run(query, parameters=None, **kwargs)`, whose first parameter is named `query`; the driver is not part of this model.
- GraphStore.CreateAllCounter: the consecutive ids are those of the model's counter. Neo4j promises only distinct ids, which is all CreateAllRecords states.
- HybridRetriever.Retrieve: the retriever reads `self.vector_store.index` (emvr/retrieval/hybrid_retriever.py:71), but the vector store never sets `index` (the assignment at emvr/memory/vector_store.py:53 is commented out), so as written retrieve raises AttributeError. The model treats the index as an oracle anyway and states what retrieve does once an index answers.
- The type declarations (emvr/memory/base.py, emvr/retrieval/base.py, emvr/agent/base.py) appear only as the datatypes the modules use.

## Findings

| source | as written | input that shows it | evidently intended | confidence | as-written member | corrected member |
|---|---|---|---|---|---|---|
| emvr/retrieval/knowledge_graph_retriever.py:106 | the filter clauses are appended as `A OR B AND f` (also lines 113 and 129), so by Cypher precedence they constrain only the second alternative | the query "how is it implemented" with `entity_types` ["person"], on a graph with an "implements" edge from a "project" node: retrieve returns that edge | `(A OR B) AND f`: every returned row meets the filters | not executed | KnowledgeGraphRetriever.FilterBypassedAsWritten | KnowledgeGraphRetriever.RetrieveHonoursFilters |
| emvr/retrieval/knowledge_graph_retriever.py:137 | `session.run(cypher_query, **cypher_params)` spreads the parameters as keywords; the default template binds "query" (line 133), a second value for run's own `query` argument | any query mentioning none of "implement", "build", "related", "connection": the TypeError is caught at line 197 and retrieve returns [] | pass `parameters=cypher_params` | not executed | KnowledgeGraphRetriever.RetrieveDefaultFailsAsWritten | KnowledgeGraphRetriever.RetrieveComplete |
| emvr/memory/graph_store.py:406-409 | `session.run(search_query, query=query)` passes a keyword named like run's first parameter `query` | any call of search_nodes raises TypeError, and so does hybrid_search (emvr/memory/memory_manager.py:256) | pass `parameters={"query": query}` | not executed | GraphStore.SearchNodesFailsAsWritten | GraphStore.SearchNodesAnswers |
| emvr/agent/supervisor/workers.py:271 | relation lines read the key "relation_type", but read_graph writes "relation" | any graph with one relation: its line shows "None" as the type | read "relation", as memory_agent.py does | not executed | SupervisorWorkers.RelationTypeLostExample | SupervisorWorkers.ReadGraphShowsRelations |
| emvr/agent/supervisor/workers.py:519 | the tool reads "nodes" (and "observations" at line 526), but search_nodes returns "entities" (with "all_observations") | with search_nodes corrected, any search that finds an entity still answers "No nodes found." (as written, search_nodes raises first) | read "entities" and "all_observations" | not executed | SupervisorWorkers.SearchNodesNeverFindsAsWritten | SupervisorWorkers.SearchNodesFinds |
| emvr/ui/components/graph_visualizer.py:67 | the whole-graph view reads "nodes" and "relationships" (line 83) and each node's "entityType" (lines 74-77), but read_graph returns "entities" and "relations", whose entity records carry "entity_type" (emvr/memory/graph_store.py:357) | any non-empty graph with no centre entity gives a view with no nodes and no edges | read "entities", "relations", "entity_type" and "relation" | not executed | GraphVisualizer.NothingShownAsWritten | GraphVisualizer.WholeGraphShown |
| emvr/ui/components/graph_visualizer.py:45 | the centred view calls `memory_manager._graphiti.execute_cypher`, but MemoryManager sets no `_graphiti` (emvr/memory/memory_manager.py:13-29) | any non-empty centre entity: the view is `{"nodes": [], "edges": [], "error": "'MemoryManager' object has no attribute '_graphiti'", "status": "error"}` | run the centred query through a client that executes Cypher | not executed | GraphVisualizer.NothingShownAsWritten | GraphVisualizer.CenteredShown |
| emvr/agent/supervisor/workers.py:429-499 | the create_entity and create_relation tools pass dicts, and add_observations passes one list, but the manager reads `entity.name` and `relation.from_entity` (emvr/memory/memory_manager.py:72 and :99) and takes `(entity_name, observations)` (:108-112); nothing catches the error | any create_entity call raises AttributeError "'dict' object has no attribute 'name'" instead of answering "Entity created: …"; any add_observations call raises TypeError for the missing `observations` | pass Entity and Relation values, and call `add_observations(entity_name, observations)` | not executed | SupervisorWorkers.ToolsRaiseAsWritten | SupervisorWorkers.ToolsConfirmCorrected |
