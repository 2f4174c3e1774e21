/**
 * The Neo4j-backed memory graph (`Neo4jMemoryStore`). Every Cypher statement the store
 * issues is given as a function from one graph value to the next; the store itself is a
 * class whose methods run those statements in the order the Python methods do.
 *
 * Observation nodes and their `HAS_OBSERVATION` edges are only ever reached through their
 * entity, so a node's observations are kept inside the node, oldest first. `RELATION` edges
 * are kept separately. Names are not keys: `CREATE` never looks for an existing entity, so
 * several nodes may share a name, and every statement that matches `{name: ...}` touches all
 * of them.
 */
module GraphStore {
  import opened Outcomes
  import opened Text
  import Seqs

  /** `Entity` of emvr/memory/base.py. */
  datatype Entity = Entity(name: string, entityType: string, observations: seq<string>)

  /** `Relation` of emvr/memory/base.py. */
  datatype Relation = Relation(fromEntity: string, relationType: string, toEntity: string)

  /** An `Entity` node: its Neo4j id, properties, and the texts of its observations. */
  datatype Node = Node(id: nat, name: string, entityType: string, observations: seq<string>)

  /** A `RELATION` edge with its `type` property, between two node ids. */
  datatype Edge = Edge(id: nat, src: nat, relationType: string, dst: nat)

  /** The database: nodes and edges in creation order, and the next unused internal id. */
  datatype Graph = Graph(nodes: seq<Node>, edges: seq<Edge>, nextId: nat)

  /** `{"id", "name", "entity_type"}` returned by create_entity. */
  datatype CreatedEntity = CreatedEntity(id: nat, name: string, entityType: string)

  /** `{"from", "relation", "to"}`: a created relation or a relation row of read_graph. */
  datatype RelationRow = RelationRow(from: string, relation: string, to: string)

  /** `{"name", "entity_type", "observations"}` of read_graph and open_nodes. */
  datatype EntityRow = EntityRow(name: string, entityType: string, observations: seq<string>)

  /** `{"name", "entity_type", "matching_observations", "all_observations"}` of search_nodes. */
  datatype SearchRow = SearchRow(name: string, entityType: string,
                                 matchingObservations: seq<string>, allObservations: seq<string>)

  /** `{"entity", "added_observations"}` / `{"entity", "deleted_observations"}`. */
  datatype ObservationReport = ObservationReport(entity: string, count: nat)

  /** `{"entities", "relations"}` of read_graph. */
  datatype GraphRows = GraphRows(entities: seq<EntityRow>, relations: seq<RelationRow>)

  /** `{"query", "entities"}` of search_nodes. */
  datatype SearchResult = SearchResult(query: string, entities: seq<SearchRow>)

  // ---------------------------------------------------------------------------
  // Well-formed graphs
  // ---------------------------------------------------------------------------

  function NodeIds(ns: seq<Node>): set<nat>
  {
    set n | n in ns :: n.id
  }

  predicate UniqueNodeIds(ns: seq<Node>)
  {
    forall a, b :: a in ns && b in ns && a.id == b.id ==> a == b
  }

  predicate UniqueEdgeIds(es: seq<Edge>)
  {
    forall a, b :: a in es && b in es && a.id == b.id ==> a == b
  }

  /** Ids are unique and already issued, and every edge joins two existing nodes. */
  predicate ValidGraph(g: Graph)
  {
    UniqueNodeIds(g.nodes)
    && (forall n :: n in g.nodes ==> n.id < g.nextId)
    && UniqueEdgeIds(g.edges)
    && (forall e :: e in g.edges ==> e.id < g.nextId)
    && (forall e :: e in g.edges ==> e.src in NodeIds(g.nodes) && e.dst in NodeIds(g.nodes))
  }

  /** Ids of the nodes called `name`, in node order. */
  function IdsNamed(ns: seq<Node>, name: string): (r: seq<nat>)
    ensures forall id :: id in r <==> exists n :: n in ns && n.name == name && n.id == id
  {
    if ns == [] then []
    else
      var r := IdsNamed(ns[..|ns| - 1], name) + (if ns[|ns| - 1].name == name then [ns[|ns| - 1].id] else []);
      assert forall n :: n in ns <==> n in ns[..|ns| - 1] || n == ns[|ns| - 1] by {
        assert ns == ns[..|ns| - 1] + [ns[|ns| - 1]];
      }
      r
  }

  /** How many nodes are called `name`. */
  function CountNamed(ns: seq<Node>, name: string): nat
  {
    |IdsNamed(ns, name)|
  }

  /** The name of the node with id `id`. */
  function NameOf(ns: seq<Node>, id: nat): (r: Option<string>)
    ensures r.Some? <==> id in NodeIds(ns)
    ensures r.Some? ==> exists n :: n in ns && n.id == id && n.name == r.value
  {
    if ns == [] then None
    else if ns[0].id == id then Some(ns[0].name)
    else
      var r := NameOf(ns[1..], id);
      assert NodeIds(ns) == {ns[0].id} + NodeIds(ns[1..]) by {
        assert forall n :: n in ns <==> n == ns[0] || n in ns[1..];
      }
      r
  }

  lemma {:induction false} NameOfNode(ns: seq<Node>, n: Node)
    requires UniqueNodeIds(ns) && n in ns
    ensures NameOf(ns, n.id) == Some(n.name)
  {
    if ns[0] != n {
      assert n in ns[1..] by {
        assert ns == [ns[0]] + ns[1..];
      }
      assert ns[0] in ns;
      NameOfNode(ns[1..], n);
    }
  }

  // ---------------------------------------------------------------------------
  // create_entity / _add_observation / add_observations
  // ---------------------------------------------------------------------------

  /**
   * The effect of `_add_observation(name, o)` for each `o` of `os` in turn: every node
   * called `name` gets the texts appended; with no such node nothing changes.
   */
  function WithObservations(ns: seq<Node>, name: string, os: seq<string>): (r: seq<Node>)
    ensures |r| == |ns|
  {
    seq(|ns|, i requires 0 <= i < |ns| =>
      if ns[i].name == name then ns[i].(observations := ns[i].observations + os) else ns[i])
  }

  lemma WithObservationsThen(ns: seq<Node>, name: string, a: seq<string>, b: seq<string>)
    ensures WithObservations(WithObservations(ns, name, a), name, b) == WithObservations(ns, name, a + b)
  {
    var l := WithObservations(WithObservations(ns, name, a), name, b);
    var r := WithObservations(ns, name, a + b);
    forall i | 0 <= i < |ns| ensures l[i] == r[i] {
      if ns[i].name == name {
        assert ns[i].observations + a + b == ns[i].observations + (a + b);
      }
    }
  }

  lemma {:induction false} IdsNamedKeptByObservations(ns: seq<Node>, name: string, os: seq<string>, other: string)
    ensures IdsNamed(WithObservations(ns, name, os), other) == IdsNamed(ns, other)
  {
    if ns != [] {
      var ws := WithObservations(ns, name, os);
      assert ws[..|ws| - 1] == WithObservations(ns[..|ns| - 1], name, os);
      IdsNamedKeptByObservations(ns[..|ns| - 1], name, os, other);
    }
  }

  /**
   * `CREATE (e:Entity {name, entity_type})` followed by one `_add_observation` per
   * observation: the node is always new, and because `_add_observation` matches by name,
   * the observations also land on earlier nodes with the same name.
   */
  function WithEntity(g: Graph, e: Entity): Graph
  {
    Graph(WithObservations(g.nodes + [Node(g.nextId, e.name, e.entityType, [])], e.name, e.observations),
          g.edges, g.nextId + 1)
  }

  lemma WithObservationsNone(ns: seq<Node>, name: string)
    ensures WithObservations(ns, name, []) == ns
  {
    var r := WithObservations(ns, name, []);
    forall i | 0 <= i < |ns| ensures r[i] == ns[i] {
      assert ns[i].observations + [] == ns[i].observations;
    }
  }

  lemma ValidWithObservations(g: Graph, name: string, os: seq<string>)
    requires ValidGraph(g)
    ensures ValidGraph(g.(nodes := WithObservations(g.nodes, name, os)))
  {
    var ns := WithObservations(g.nodes, name, os);
    assert forall i :: 0 <= i < |ns| ==> ns[i].id == g.nodes[i].id;
    assert forall n :: n in ns ==> exists i :: 0 <= i < |ns| && ns[i] == n;
    assert forall i :: 0 <= i < |ns| ==> g.nodes[i] in g.nodes;
    assert NodeIds(g.nodes) <= NodeIds(ns) by {
      forall id | id in NodeIds(g.nodes) ensures id in NodeIds(ns) {
        var n :| n in g.nodes && n.id == id;
        var i :| 0 <= i < |g.nodes| && g.nodes[i] == n;
        assert ns[i] in ns;
      }
    }
  }

  lemma ValidWithNode(g: Graph, name: string, entityType: string)
    requires ValidGraph(g)
    ensures ValidGraph(Graph(g.nodes + [Node(g.nextId, name, entityType, [])], g.edges, g.nextId + 1))
  {
    var ns := g.nodes + [Node(g.nextId, name, entityType, [])];
    assert forall n :: n in ns <==> n in g.nodes || n == Node(g.nextId, name, entityType, []);
    assert NodeIds(g.nodes) <= NodeIds(ns);
  }

  lemma ValidWithEntity(g: Graph, e: Entity)
    requires ValidGraph(g)
    ensures ValidGraph(WithEntity(g, e))
  {
    ValidWithNode(g, e.name, e.entityType);
    ValidWithObservations(Graph(g.nodes + [Node(g.nextId, e.name, e.entityType, [])], g.edges, g.nextId + 1),
                          e.name, e.observations);
  }

  /**
   * create_entity never checks for an existing name: the graph gains exactly one node
   * called `e.name`, carrying a fresh id, `e`'s type and `e`'s observations in order; nodes
   * that already had the name also receive those observations; nothing else changes.
   */
  lemma {:induction false} CreateEntityAlwaysAdds(g: Graph, e: Entity)
    ensures var h := WithEntity(g, e);
      |h.nodes| == |g.nodes| + 1
      && CountNamed(h.nodes, e.name) == CountNamed(g.nodes, e.name) + 1
      && h.nodes[|g.nodes|] == Node(g.nextId, e.name, e.entityType, e.observations)
      && h.edges == g.edges
      && forall i :: 0 <= i < |g.nodes| ==>
           h.nodes[i].id == g.nodes[i].id && h.nodes[i].name == g.nodes[i].name
           && h.nodes[i].entityType == g.nodes[i].entityType
           && h.nodes[i].observations
              == if g.nodes[i].name == e.name then g.nodes[i].observations + e.observations
                 else g.nodes[i].observations
  {
    var ns := g.nodes + [Node(g.nextId, e.name, e.entityType, [])];
    IdsNamedKeptByObservations(ns, e.name, e.observations, e.name);
    assert ns[..|ns| - 1] == g.nodes;
  }

  /** Two creates with one name leave two more nodes of that name, the first also holding the second's observations. */
  lemma TwoCreatesSameName(g: Graph, e1: Entity, e2: Entity)
    requires e1.name == e2.name
    ensures var h := WithEntity(WithEntity(g, e1), e2);
      CountNamed(h.nodes, e1.name) == CountNamed(g.nodes, e1.name) + 2
      && h.nodes[|g.nodes|].observations == e1.observations + e2.observations
      && h.nodes[|g.nodes| + 1].observations == e2.observations
  {
    CreateEntityAlwaysAdds(g, e1);
    CreateEntityAlwaysAdds(WithEntity(g, e1), e2);
  }

  /** add_observations on a name no node has changes nothing (and still reports every text). */
  lemma AddObservationsMissingName(ns: seq<Node>, name: string, os: seq<string>)
    requires forall n :: n in ns ==> n.name != name
    ensures WithObservations(ns, name, os) == ns
  {
    assert forall i :: 0 <= i < |ns| ==> ns[i] in ns;
  }

  /** create_entities: `WithEntity` for each input in turn, with the records it returns. */
  function CreateAll(g: Graph, es: seq<Entity>): (Graph, seq<CreatedEntity>)
    decreases |es|
  {
    if es == [] then (g, [])
    else
      var rest := CreateAll(WithEntity(g, es[0]), es[1..]);
      (rest.0, [CreatedEntity(g.nextId, es[0].name, es[0].entityType)] + rest.1)
  }

  /**
   * What create_entities leaves of the graph under the model's counter: the old nodes keep
   * their place, id, name and type, one node follows per input, the counter advances by the
   * number of inputs and the edges are untouched.
   */
  lemma {:induction false} CreateAllKeeps(g: Graph, es: seq<Entity>)
    ensures var (h, recs) := CreateAll(g, es);
      |recs| == |es| && |h.nodes| == |g.nodes| + |es|
      && h.nextId == g.nextId + |es| && h.edges == g.edges
      && (forall k :: 0 <= k < |g.nodes| ==>
            h.nodes[k].id == g.nodes[k].id && h.nodes[k].name == g.nodes[k].name
            && h.nodes[k].entityType == g.nodes[k].entityType)
    decreases |es|
  {
    if es != [] {
      var g1 := WithEntity(g, es[0]);
      CreateEntityAlwaysAdds(g, es[0]);
      CreateAllKeeps(g1, es[1..]);
      var rest := CreateAll(g1, es[1..]);
      assert CreateAll(g, es) == (rest.0, [CreatedEntity(g.nextId, es[0].name, es[0].entityType)] + rest.1);
      forall k | 0 <= k < |g.nodes|
        ensures rest.0.nodes[k].id == g.nodes[k].id && rest.0.nodes[k].name == g.nodes[k].name
        ensures rest.0.nodes[k].entityType == g.nodes[k].entityType
      {
        assert rest.0.nodes[k].id == g1.nodes[k].id && rest.0.nodes[k].name == g1.nodes[k].name;
        assert rest.0.nodes[k].entityType == g1.nodes[k].entityType;
      }
    }
  }

  /** create_entities keeps node and edge ids unique and every edge's endpoints among the nodes. */
  lemma {:induction false} CreateAllValid(g: Graph, es: seq<Entity>)
    requires ValidGraph(g)
    ensures ValidGraph(CreateAll(g, es).0)
    decreases |es|
  {
    if es != [] {
      ValidWithEntity(g, es[0]);
      CreateAllValid(WithEntity(g, es[0]), es[1..]);
    }
  }

  /** The i-th record and the i-th new node that create_entities makes under the model's counter. */
  lemma {:induction false} CreateAllAt(g: Graph, es: seq<Entity>, i: nat)
    requires i < |es|
    ensures var (h, recs) := CreateAll(g, es);
      i < |recs| && |g.nodes| + i < |h.nodes|
      && recs[i] == CreatedEntity(g.nextId + i, es[i].name, es[i].entityType)
      && h.nodes[|g.nodes| + i].id == g.nextId + i && h.nodes[|g.nodes| + i].name == es[i].name
      && h.nodes[|g.nodes| + i].entityType == es[i].entityType
    decreases i
  {
    var g1 := WithEntity(g, es[0]);
    CreateEntityAlwaysAdds(g, es[0]);
    CreateAllKeeps(g1, es[1..]);
    var rest := CreateAll(g1, es[1..]);
    var recs := [CreatedEntity(g.nextId, es[0].name, es[0].entityType)] + rest.1;
    assert CreateAll(g, es) == (rest.0, recs);
    if i == 0 {
      assert rest.0.nodes[|g.nodes|].id == g1.nodes[|g.nodes|].id;
      assert rest.0.nodes[|g.nodes|].name == g1.nodes[|g.nodes|].name;
      assert rest.0.nodes[|g.nodes|].entityType == g1.nodes[|g.nodes|].entityType;
    } else {
      CreateAllAt(g1, es[1..], i - 1);
      assert es[i] == es[1..][i - 1];
      assert recs[i] == rest.1[i - 1];
      assert |g.nodes| + i == |g1.nodes| + (i - 1);
    }
  }

  /**
   * How the model's counter numbers what create_entities makes: the i-th new node follows
   * the old ones and takes the id `nextId + i`, which is also the id of the i-th record.
   */
  lemma CreateAllCounter(g: Graph, es: seq<Entity>)
    ensures var (h, recs) := CreateAll(g, es);
      |recs| == |es| && |h.nodes| == |g.nodes| + |es|
      && (forall i :: 0 <= i < |es| ==>
            recs[i] == CreatedEntity(g.nextId + i, es[i].name, es[i].entityType)
            && h.nodes[|g.nodes| + i].id == g.nextId + i && h.nodes[|g.nodes| + i].name == es[i].name
            && h.nodes[|g.nodes| + i].entityType == es[i].entityType)
  {
    CreateAllKeeps(g, es);
    forall i | 0 <= i < |es|
      ensures var (h, recs) := CreateAll(g, es);
        recs[i] == CreatedEntity(g.nextId + i, es[i].name, es[i].entityType)
        && h.nodes[|g.nodes| + i].id == g.nextId + i && h.nodes[|g.nodes| + i].name == es[i].name
        && h.nodes[|g.nodes| + i].entityType == es[i].entityType
    {
      CreateAllAt(g, es, i);
    }
  }

  /**
   * One record per input, in input order, with the input's name and type. The ids are
   * pairwise distinct, none belongs to a node that existed before, and each is the id of a
   * node of the new graph with that name and type.
   */
  lemma CreateAllRecords(g: Graph, es: seq<Entity>)
    requires ValidGraph(g)
    ensures var (h, recs) := CreateAll(g, es);
      |recs| == |es|
      && (forall i :: 0 <= i < |es| ==> recs[i].name == es[i].name && recs[i].entityType == es[i].entityType)
      && (forall i, j :: 0 <= i < j < |es| ==> recs[i].id != recs[j].id)
      && (forall i :: 0 <= i < |es| ==> recs[i].id !in NodeIds(g.nodes))
      && (forall i :: 0 <= i < |es| ==>
            exists n :: n in h.nodes && n.id == recs[i].id && n.name == es[i].name && n.entityType == es[i].entityType)
      && |h.nodes| == |g.nodes| + |es| && h.edges == g.edges && ValidGraph(h)
  {
    CreateAllKeeps(g, es);
    CreateAllValid(g, es);
    CreateAllCounter(g, es);
    var (h, recs) := CreateAll(g, es);
    forall i | 0 <= i < |es|
      ensures exists n :: n in h.nodes && n.id == recs[i].id && n.name == es[i].name && n.entityType == es[i].entityType
    {
      assert h.nodes[|g.nodes| + i] in h.nodes;
    }
  }

  // ---------------------------------------------------------------------------
  // create_relation / create_relations
  // ---------------------------------------------------------------------------

  /** The rows of `MATCH (from ...) MATCH (to ...)`: every pairing, `from` outermost. */
  function Pairs(a: seq<nat>, b: seq<nat>): (r: seq<(nat, nat)>)
    ensures |r| == |a| * |b|
    ensures forall p :: p in r <==> p.0 in a && p.1 in b
  {
    if a == [] then []
    else
      var first := seq(|b|, j requires 0 <= j < |b| => (a[0], b[j]));
      var rest := Pairs(a[1..], b);
      assert |first + rest| == |a| * |b| by {
        assert |a| * |b| == |b| + (|a| - 1) * |b|;
      }
      assert forall p :: p in first <==> p.0 == a[0] && p.1 in b by {
        forall p: (nat, nat) | p.0 == a[0] && p.1 in b ensures p in first {
          var j :| 0 <= j < |b| && b[j] == p.1;
          assert first[j] == p;
        }
      }
      assert forall x :: x in a <==> x == a[0] || x in a[1..] by {
        assert a == [a[0]] + a[1..];
      }
      first + rest
  }

  /** `CREATE (from)-[r:RELATION {type}]->(to)` for every row, with fresh ids from `start`. */
  function NewEdges(ps: seq<(nat, nat)>, relationType: string, start: nat): (r: seq<Edge>)
    ensures |r| == |ps|
    ensures forall k :: 0 <= k < |ps| ==> r[k] == Edge(start + k, ps[k].0, relationType, ps[k].1)
  {
    seq(|ps|, k requires 0 <= k < |ps| => Edge(start + k, ps[k].0, relationType, ps[k].1))
  }

  /**
   * create_relation. With no node called `fromEntity` or none called `toEntity` the
   * statement matches nothing, `record` is `None` and reading it raises; otherwise one edge
   * is created per (from, to) pair of same-named nodes.
   */
  function WithRelation(g: Graph, r: Relation): Result<Graph>
  {
    var srcs := IdsNamed(g.nodes, r.fromEntity);
    var dsts := IdsNamed(g.nodes, r.toEntity);
    if srcs == [] || dsts == [] then Err("'NoneType' object is not subscriptable")
    else
      var ps := Pairs(srcs, dsts);
      Ok(Graph(g.nodes, g.edges + NewEdges(ps, r.relationType, g.nextId), g.nextId + |ps|))
  }

  function RowOf(r: Relation): RelationRow
  {
    RelationRow(r.fromEntity, r.relationType, r.toEntity)
  }

  /** create_relation succeeds exactly when both endpoint names exist. */
  lemma CreateRelationNeedsEndpoints(g: Graph, r: Relation)
    ensures WithRelation(g, r).Ok?
        <==> (exists n :: n in g.nodes && n.name == r.fromEntity) && (exists n :: n in g.nodes && n.name == r.toEntity)
  {
    var srcs := IdsNamed(g.nodes, r.fromEntity);
    var dsts := IdsNamed(g.nodes, r.toEntity);
    assert forall n :: n in g.nodes && n.name == r.fromEntity ==> n.id in srcs;
    assert forall n :: n in g.nodes && n.name == r.toEntity ==> n.id in dsts;
    if srcs != [] && dsts != [] {
      assert srcs[0] in srcs && dsts[0] in dsts;
    }
  }

  /** Edges numbered on from `nextId` between existing nodes keep a graph valid. */
  lemma ValidAppendEdges(g: Graph, added: seq<Edge>)
    requires ValidGraph(g)
    requires forall k :: 0 <= k < |added| ==>
               added[k].id == g.nextId + k && added[k].src in NodeIds(g.nodes) && added[k].dst in NodeIds(g.nodes)
    ensures ValidGraph(Graph(g.nodes, g.edges + added, g.nextId + |added|))
  {
    var h := Graph(g.nodes, g.edges + added, g.nextId + |added|);
    forall e | e in h.edges
      ensures e.id < h.nextId && e.src in NodeIds(g.nodes) && e.dst in NodeIds(g.nodes)
    {
      if e !in g.edges {
        var k :| 0 <= k < |added| && added[k] == e;
      }
    }
    forall e | e in added ensures g.nextId <= e.id {
      var k :| 0 <= k < |added| && added[k] == e;
    }
    forall a, b | a in added && b in added && a.id == b.id ensures a == b {
      var k :| 0 <= k < |added| && added[k] == a;
      var m :| 0 <= m < |added| && added[m] == b;
    }
  }

  lemma ValidWithRelation(g: Graph, r: Relation)
    requires ValidGraph(g) && WithRelation(g, r).Ok?
    ensures ValidGraph(WithRelation(g, r).value)
  {
    var srcs := IdsNamed(g.nodes, r.fromEntity);
    var dsts := IdsNamed(g.nodes, r.toEntity);
    var ps := Pairs(srcs, dsts);
    var added := NewEdges(ps, r.relationType, g.nextId);
    forall k | 0 <= k < |added|
      ensures added[k].id == g.nextId + k && added[k].src in NodeIds(g.nodes) && added[k].dst in NodeIds(g.nodes)
    {
      assert ps[k] in ps;
      var a :| a in g.nodes && a.name == r.fromEntity && a.id == ps[k].0;
      var b :| b in g.nodes && b.name == r.toEntity && b.id == ps[k].1;
    }
    ValidAppendEdges(g, added);
  }

  /**
   * A successful create_relation keeps every node and edge and adds one `RELATION` edge
   * of the requested type for every pair of nodes carrying the two names.
   */
  lemma CreateRelationAddsEdges(g: Graph, r: Relation)
    requires ValidGraph(g) && WithRelation(g, r).Ok?
    ensures var h := WithRelation(g, r).value;
      h.nodes == g.nodes && h.edges[..|g.edges|] == g.edges
      && |h.edges| == |g.edges| + CountNamed(g.nodes, r.fromEntity) * CountNamed(g.nodes, r.toEntity)
      && ValidGraph(h)
      && forall i :: |g.edges| <= i < |h.edges| ==>
           h.edges[i].relationType == r.relationType
           && NameOf(g.nodes, h.edges[i].src) == Some(r.fromEntity)
           && NameOf(g.nodes, h.edges[i].dst) == Some(r.toEntity)
  {
    ValidWithRelation(g, r);
    var srcs := IdsNamed(g.nodes, r.fromEntity);
    var dsts := IdsNamed(g.nodes, r.toEntity);
    var h := WithRelation(g, r).value;
    var ps := Pairs(srcs, dsts);
    var added := NewEdges(ps, r.relationType, g.nextId);
    assert h.edges == g.edges + added;
    forall i | |g.edges| <= i < |h.edges|
      ensures h.edges[i].relationType == r.relationType
           && NameOf(g.nodes, h.edges[i].src) == Some(r.fromEntity)
           && NameOf(g.nodes, h.edges[i].dst) == Some(r.toEntity)
    {
      var k := i - |g.edges|;
      assert h.edges[i] == added[k];
      assert ps[k] in ps;
      var a :| a in g.nodes && a.name == r.fromEntity && a.id == ps[k].0;
      var b :| b in g.nodes && b.name == r.toEntity && b.id == ps[k].1;
      NameOfNode(g.nodes, a);
      NameOfNode(g.nodes, b);
    }
  }

  /**
   * create_relations: create_relation for each input in turn. The first failure
   * propagates, and the relations created before it stay in the graph.
   */
  function WithRelations(g: Graph, rels: seq<Relation>): (Graph, Result<seq<RelationRow>>)
    decreases |rels|
  {
    if rels == [] then (g, Ok([]))
    else match WithRelation(g, rels[0])
      case Err(m) => (g, Err(m))
      case Ok(g1) =>
        var rest := WithRelations(g1, rels[1..]);
        (rest.0, match rest.1
                 case Ok(rows) => Ok([RowOf(rels[0])] + rows)
                 case Err(m) => Err(m))
  }

  /** On success there is one record per relation, echoing it, in input order. */
  lemma {:induction false} CreateRelationsRecords(g: Graph, rels: seq<Relation>)
    ensures WithRelations(g, rels).1.Ok? ==>
      WithRelations(g, rels).1.value == seq(|rels|, i requires 0 <= i < |rels| => RowOf(rels[i]))
    decreases |rels|
  {
    if rels != [] && WithRelation(g, rels[0]).Ok? {
      CreateRelationsRecords(WithRelation(g, rels[0]).value, rels[1..]);
    }
  }

  /**
   * Success or not, create_relations changes no node and removes no edge: the relations
   * created before a failure stay in the graph.
   */
  lemma {:induction false} CreateRelationsKeeps(g: Graph, rels: seq<Relation>)
    requires ValidGraph(g)
    ensures var h := WithRelations(g, rels).0;
      h.nodes == g.nodes && |g.edges| <= |h.edges| && h.edges[..|g.edges|] == g.edges && ValidGraph(h)
    decreases |rels|
  {
    if rels != [] && WithRelation(g, rels[0]).Ok? {
      CreateRelationAddsEdges(g, rels[0]);
      var g1 := WithRelation(g, rels[0]).value;
      CreateRelationsKeeps(g1, rels[1..]);
      var h := WithRelations(g1, rels[1..]).0;
      assert h == WithRelations(g, rels).0;
      assert h.edges[..|g.edges|] == h.edges[..|g1.edges|][..|g.edges|];
    }
  }

  // ---------------------------------------------------------------------------
  // delete_entities / delete_observations / delete_relations
  // ---------------------------------------------------------------------------

  /**
   * delete_entities: every node whose name is listed goes, together with every
   * relationship touching it in either direction.
   */
  function WithoutEntities(g: Graph, names: seq<string>): Graph
  {
    var kept := Seqs.Filter(g.nodes, (n: Node) => n.name !in names);
    var ids := NodeIds(kept);
    Graph(kept, Seqs.Filter(g.edges, (e: Edge) => e.src in ids && e.dst in ids), g.nextId)
  }

  /**
   * After delete_entities no node carries a listed name, every other node is still there,
   * and an edge survives exactly when neither of its endpoints was deleted.
   */
  lemma DeleteEntitiesEffect(g: Graph, names: seq<string>)
    requires ValidGraph(g)
    ensures var h := WithoutEntities(g, names);
      (forall n :: n in h.nodes <==> n in g.nodes && n.name !in names)
      && (forall e :: e in h.edges <==>
            e in g.edges && forall n :: n in g.nodes && (n.id == e.src || n.id == e.dst) ==> n.name !in names)
      && h.nextId == g.nextId
      && ValidGraph(h)
  {
    var h := WithoutEntities(g, names);
    forall e | e in g.edges
      ensures (e.src in NodeIds(h.nodes) && e.dst in NodeIds(h.nodes))
          <==> forall n :: n in g.nodes && (n.id == e.src || n.id == e.dst) ==> n.name !in names
    {
      var a :| a in g.nodes && a.id == e.src;
      var b :| b in g.nodes && b.id == e.dst;
      if e.src in NodeIds(h.nodes) && e.dst in NodeIds(h.nodes) {
        var a' :| a' in h.nodes && a'.id == e.src;
        var b' :| b' in h.nodes && b'.id == e.dst;
      }
    }
  }

  /** delete_observations: the listed texts leave every node called `name`. */
  function WithoutObservations(ns: seq<Node>, name: string, os: seq<string>): (r: seq<Node>)
    ensures |r| == |ns|
  {
    seq(|ns|, i requires 0 <= i < |ns| =>
      if ns[i].name == name
      then ns[i].(observations := Seqs.Filter(ns[i].observations, (o: string) => o !in os))
      else ns[i])
  }

  /**
   * Only the observations of nodes called `name` whose text is listed are removed; the
   * rest of those nodes' observations and every other node are unchanged.
   */
  lemma DeleteObservationsEffect(ns: seq<Node>, name: string, os: seq<string>)
    ensures var r := WithoutObservations(ns, name, os);
      forall i :: 0 <= i < |ns| ==>
        r[i].id == ns[i].id && r[i].name == ns[i].name && r[i].entityType == ns[i].entityType
        && (ns[i].name != name ==> r[i] == ns[i])
        && (ns[i].name == name ==> forall o :: o in r[i].observations <==> o in ns[i].observations && o !in os)
  {
  }

  /** The edge `e` is the relation `r`: same type, and endpoint names as listed. */
  predicate Describes(ns: seq<Node>, e: Edge, r: Relation)
  {
    NameOf(ns, e.src) == Some(r.fromEntity) && e.relationType == r.relationType
    && NameOf(ns, e.dst) == Some(r.toEntity)
  }

  /** delete_relations: every `RELATION` edge matching one of the triples goes. */
  function WithoutRelations(g: Graph, rels: seq<Relation>): Graph
  {
    g.(edges := Seqs.Filter(g.edges, (e: Edge) => forall r :: r in rels ==> !Describes(g.nodes, e, r)))
  }

  lemma DeleteRelationsEffect(g: Graph, rels: seq<Relation>)
    requires ValidGraph(g)
    ensures var h := WithoutRelations(g, rels);
      h.nodes == g.nodes && ValidGraph(h)
      && forall e :: e in h.edges <==> e in g.edges && forall r :: r in rels ==> !Describes(g.nodes, e, r)
  {
  }

  // ---------------------------------------------------------------------------
  // Implicit grouping of Cypher aggregation (`RETURN a, b, COLLECT(x)`)
  // ---------------------------------------------------------------------------

  /** A grouping key with the texts collected for it. */
  datatype Keyed<K> = Keyed(key: K, values: seq<string>)

  function KeysOf<K>(rs: seq<Keyed<K>>): (r: seq<K>)
    ensures |r| == |rs| && forall i :: 0 <= i < |rs| ==> r[i] == rs[i].key
  {
    seq(|rs|, i requires 0 <= i < |rs| => rs[i].key)
  }

  function KeyIndex<K(==)>(gs: seq<Keyed<K>>, k: K): (r: Option<nat>)
    ensures r.None? ==> k !in KeysOf(gs)
    ensures r.Some? ==> r.value < |gs| && gs[r.value].key == k
  {
    if gs == [] then None
    else if gs[0].key == k then Some(0)
    else match KeyIndex(gs[1..], k)
      case None => (assert KeysOf(gs) == [gs[0].key] + KeysOf(gs[1..]); None)
      case Some(i) => Some(i + 1)
  }

  /** Adds one row to the groups built so far. */
  function AddToGroups<K(==)>(gs: seq<Keyed<K>>, row: Keyed<K>): seq<Keyed<K>>
  {
    match KeyIndex(gs, row.key)
    case None => gs + [row]
    case Some(i) => gs[i := Keyed(row.key, gs[i].values + row.values)]
  }

  /** One group per distinct key, in order of first appearance, collecting values in row order. */
  function Group<K(==)>(rows: seq<Keyed<K>>): seq<Keyed<K>>
  {
    if rows == [] then [] else AddToGroups(Group(rows[..|rows| - 1]), rows[|rows| - 1])
  }

  /** Reference definition: everything collected for key `k`, in row order. */
  function ValuesFor<K(==)>(rows: seq<Keyed<K>>, k: K): seq<string>
  {
    if rows == [] then []
    else ValuesFor(rows[..|rows| - 1], k) + (if rows[|rows| - 1].key == k then rows[|rows| - 1].values else [])
  }

  lemma {:induction false} ValuesForAbsent<K>(rows: seq<Keyed<K>>, k: K)
    requires k !in KeysOf(rows)
    ensures ValuesFor(rows, k) == []
  {
    if rows != [] {
      assert KeysOf(rows[..|rows| - 1]) == KeysOf(rows)[..|rows| - 1];
      ValuesForAbsent(rows[..|rows| - 1], k);
    }
  }

  /**
   * Grouping yields pairwise distinct keys, exactly the keys of the rows, and for each key
   * everything the rows collected under it.
   */
  lemma {:induction false} GroupFacts<K>(rows: seq<Keyed<K>>)
    ensures var gs := Group(rows);
      (forall i, j :: 0 <= i < j < |gs| ==> gs[i].key != gs[j].key)
      && (forall k :: k in KeysOf(gs) <==> k in KeysOf(rows))
      && (forall i :: 0 <= i < |gs| ==> gs[i].values == ValuesFor(rows, gs[i].key))
  {
    if rows != [] {
      var pre := rows[..|rows| - 1];
      var last := rows[|rows| - 1];
      GroupFacts(pre);
      var gs0 := Group(pre);
      var gs := Group(rows);
      assert KeysOf(rows) == KeysOf(pre) + [last.key];
      match KeyIndex(gs0, last.key)
      case None =>
        ValuesForAbsent(pre, last.key);
        assert gs == gs0 + [last];
        assert KeysOf(gs) == KeysOf(gs0) + [last.key];
      case Some(m) =>
        assert gs == gs0[m := Keyed(last.key, gs0[m].values + last.values)];
        assert KeysOf(gs) == KeysOf(gs0);
        forall i | 0 <= i < |gs| ensures gs[i].values == ValuesFor(rows, gs[i].key) {
          if i != m {
            assert gs[i] == gs0[i];
          }
        }
    }
  }

  // ---------------------------------------------------------------------------
  // read_graph / search_nodes / open_nodes
  // ---------------------------------------------------------------------------

  /** One row per node of the entity query before aggregation, keyed by name and type. */
  function EntityRecords(ns: seq<Node>): (r: seq<Keyed<(string, string)>>)
    ensures |r| == |ns|
    ensures forall i :: 0 <= i < |ns| ==> r[i] == Keyed((ns[i].name, ns[i].entityType), ns[i].observations)
  {
    seq(|ns|, i requires 0 <= i < |ns| => Keyed((ns[i].name, ns[i].entityType), ns[i].observations))
  }

  function RowOfGroup(k: Keyed<(string, string)>): EntityRow
  {
    EntityRow(k.key.0, k.key.1, k.values)
  }

  function RowsOfGroups(gs: seq<Keyed<(string, string)>>): (r: seq<EntityRow>)
    ensures |r| == |gs| && forall i :: 0 <= i < |gs| ==> r[i] == RowOfGroup(gs[i])
  {
    seq(|gs|, i requires 0 <= i < |gs| => RowOfGroup(gs[i]))
  }

  /** The entity rows of read_graph: aggregation is by (name, entity_type), not by node. */
  function ReadEntities(ns: seq<Node>): seq<EntityRow>
  {
    RowsOfGroups(Group(EntityRecords(ns)))
  }

  /** Reference definition: the observations of all nodes with this name and type, in node order. */
  function ObservationsOf(ns: seq<Node>, name: string, entityType: string): seq<string>
  {
    if ns == [] then []
    else ObservationsOf(ns[..|ns| - 1], name, entityType)
         + (var n := ns[|ns| - 1]; if n.name == name && n.entityType == entityType then n.observations else [])
  }

  lemma {:induction false} ValuesForEntityRecords(ns: seq<Node>, name: string, entityType: string)
    ensures ValuesFor(EntityRecords(ns), (name, entityType)) == ObservationsOf(ns, name, entityType)
  {
    if ns != [] {
      assert EntityRecords(ns)[..|ns| - 1] == EntityRecords(ns[..|ns| - 1]);
      ValuesForEntityRecords(ns[..|ns| - 1], name, entityType);
    }
  }

  lemma EntityRecordKeys(ns: seq<Node>)
    ensures forall k :: k in KeysOf(EntityRecords(ns)) <==> exists n :: n in ns && k == (n.name, n.entityType)
  {
    var recs := EntityRecords(ns);
    forall k | k in KeysOf(recs) ensures exists n :: n in ns && k == (n.name, n.entityType) {
      var j :| 0 <= j < |recs| && KeysOf(recs)[j] == k;
      assert ns[j] in ns;
    }
    forall n | n in ns ensures (n.name, n.entityType) in KeysOf(recs) {
      var j :| 0 <= j < |ns| && ns[j] == n;
      assert KeysOf(recs)[j] == (n.name, n.entityType);
    }
  }

  /**
   * Entity rows built from grouped records: one per distinct (name, type) key of the records,
   * each carrying everything collected under its key.
   */
  lemma EntityRowsOfGroups(recs: seq<Keyed<(string, string)>>)
    ensures var rows := RowsOfGroups(Group(recs));
      (forall i, j :: 0 <= i < j < |rows| ==> (rows[i].name, rows[i].entityType) != (rows[j].name, rows[j].entityType))
      && (forall i :: 0 <= i < |rows| ==>
            (rows[i].name, rows[i].entityType) in KeysOf(recs)
            && rows[i].observations == ValuesFor(recs, (rows[i].name, rows[i].entityType)))
      && (forall k :: k in KeysOf(recs) ==> exists i :: 0 <= i < |rows| && (rows[i].name, rows[i].entityType) == k)
  {
    var gs := Group(recs);
    var rows := RowsOfGroups(gs);
    GroupFacts(recs);
    forall i | 0 <= i < |rows|
      ensures (rows[i].name, rows[i].entityType) in KeysOf(recs)
      ensures rows[i].observations == ValuesFor(recs, (rows[i].name, rows[i].entityType))
    {
      assert rows[i] == RowOfGroup(gs[i]);
      assert KeysOf(gs)[i] == gs[i].key;
    }
    forall k | k in KeysOf(recs) ensures exists i :: 0 <= i < |rows| && (rows[i].name, rows[i].entityType) == k {
      assert k in KeysOf(gs);
      var i :| 0 <= i < |gs| && KeysOf(gs)[i] == k;
      assert rows[i] == RowOfGroup(gs[i]);
    }
  }

  /** read_graph lists each (name, entity_type) at most once. */
  lemma ReadGraphDistinct(ns: seq<Node>)
    ensures var rows := ReadEntities(ns);
      forall i, j :: 0 <= i < j < |rows| ==> (rows[i].name, rows[i].entityType) != (rows[j].name, rows[j].entityType)
  {
    var recs := EntityRecords(ns);
    var rows := ReadEntities(ns);
    assert rows == RowsOfGroups(Group(recs));
    EntityRowsOfGroups(recs);
  }

  /** Every node is represented by the row of its (name, entity_type). */
  lemma ReadGraphCovers(ns: seq<Node>)
    ensures var rows := ReadEntities(ns);
      forall n :: n in ns ==> exists i :: 0 <= i < |rows| && rows[i].name == n.name && rows[i].entityType == n.entityType
  {
    var recs := EntityRecords(ns);
    var rows := ReadEntities(ns);
    assert rows == RowsOfGroups(Group(recs));
    EntityRowsOfGroups(recs);
    forall n | n in ns
      ensures exists i :: 0 <= i < |rows| && rows[i].name == n.name && rows[i].entityType == n.entityType
    {
      var j :| 0 <= j < |ns| && ns[j] == n;
      assert KeysOf(recs)[j] == (n.name, n.entityType);
      assert (n.name, n.entityType) in KeysOf(recs);
      var i :| 0 <= i < |rows| && (rows[i].name, rows[i].entityType) == (n.name, n.entityType);
    }
  }

  /** Every entity row of read_graph comes from some node. */
  lemma ReadGraphFrom(ns: seq<Node>)
    ensures var rows := ReadEntities(ns);
      forall i :: 0 <= i < |rows| ==> exists n :: n in ns && rows[i].name == n.name && rows[i].entityType == n.entityType
  {
    var recs := EntityRecords(ns);
    var rows := ReadEntities(ns);
    assert rows == RowsOfGroups(Group(recs));
    EntityRowsOfGroups(recs);
    forall i | 0 <= i < |rows|
      ensures exists n :: n in ns && rows[i].name == n.name && rows[i].entityType == n.entityType
    {
      var k := (rows[i].name, rows[i].entityType);
      var j :| 0 <= j < |recs| && KeysOf(recs)[j] == k;
      assert ns[j] in ns;
    }
  }

  /**
   * Each entity row of read_graph carries the observations of every node with that name
   * and type, in node order: same-named, same-typed nodes are merged.
   */
  lemma ReadGraphObservations(ns: seq<Node>)
    ensures var rows := ReadEntities(ns);
      forall i :: 0 <= i < |rows| ==> rows[i].observations == ObservationsOf(ns, rows[i].name, rows[i].entityType)
  {
    var recs := EntityRecords(ns);
    var rows := ReadEntities(ns);
    assert rows == RowsOfGroups(Group(recs));
    EntityRowsOfGroups(recs);
    forall i | 0 <= i < |rows|
      ensures rows[i].observations == ObservationsOf(ns, rows[i].name, rows[i].entityType)
    {
      ValuesForEntityRecords(ns, rows[i].name, rows[i].entityType);
    }
  }

  /** The relation rows of read_graph: one per `RELATION` edge, as (from name, type, to name). */
  function ReadRelations(g: Graph): (r: seq<RelationRow>)
    ensures |r| == |g.edges|
  {
    seq(|g.edges|, i requires 0 <= i < |g.edges| =>
      RelationRow(NameOf(g.nodes, g.edges[i].src).GetOr(""), g.edges[i].relationType,
                  NameOf(g.nodes, g.edges[i].dst).GetOr("")))
  }

  /**
   * read_graph lists one relation row per `RELATION` edge, naming the nodes the edge
   * joins and its type.
   */
  lemma ReadGraphRelations(g: Graph)
    requires ValidGraph(g)
    ensures |ReadRelations(g)| == |g.edges|
    ensures forall i, a, b ::
      0 <= i < |g.edges| && a in g.nodes && b in g.nodes && a.id == g.edges[i].src && b.id == g.edges[i].dst
      ==> ReadRelations(g)[i] == RelationRow(a.name, g.edges[i].relationType, b.name)
  {
    forall i, a, b | 0 <= i < |g.edges| && a in g.nodes && b in g.nodes
        && a.id == g.edges[i].src && b.id == g.edges[i].dst
      ensures ReadRelations(g)[i] == RelationRow(a.name, g.edges[i].relationType, b.name)
    {
      NameOfNode(g.nodes, a);
      NameOfNode(g.nodes, b);
    }
  }

  /**
   * The async driver's `AsyncSession.run(query, parameters=None, **kwargs)`: the statement
   * fills its parameter `query` positionally, so a keyword argument with that name gives
   * it a second value, and the call raises this TypeError before anything is sent.
   */
  const RunClash: string := "AsyncSession.run() got multiple values for argument 'query'"

  /** The TypeError of a `session.run` call with these keyword argument names, if any. */
  function RunRefusal(keywords: set<string>): Option<string>
  {
    if "query" in keywords then Some(RunClash) else None
  }

  /**
   * The keyword arguments search_nodes gives `session.run`: `query=query` as written, and
   * `parameters={"query": query}` corrected.
   */
  function SearchKeywords(v: Version): set<string>
  {
    match v
    case AsWritten => {"query"}
    case Corrected => {"parameters"}
  }

  /** search_nodes: the driver's refusal, or the query echoed with the statement's rows. */
  function SearchNodesSpec(ns: seq<Node>, q: string, v: Version): Result<SearchResult>
  {
    match RunRefusal(SearchKeywords(v))
    case Some(e) => Err(e)
    case None => Ok(SearchResult(q, SearchRows(ns, q)))
  }

  /** As written, search_nodes raises the driver's TypeError whatever the query and the graph. */
  lemma SearchNodesFailsAsWritten(ns: seq<Node>, q: string)
    ensures SearchNodesSpec(ns, q, AsWritten) == Err("AsyncSession.run() got multiple values for argument 'query'")
  {
  }

  /**
   * Corrected, search_nodes answers with the query it was given and one row per matching
   * (name, entity_type, matching observations): each row comes from a node whose name or type contains the query,
   * with that node's matching observations, and every such node is represented.
   */
  lemma SearchNodesAnswers(ns: seq<Node>, q: string)
    ensures var r := SearchNodesSpec(ns, q, Corrected);
      r.Ok? && r.value.query == q
      && (forall row :: row in r.value.entities ==> exists n :: n in ns && SearchRowFor(row, n, q))
      && (forall n :: n in ns && NodeMatches(n, q) ==>
            exists i :: 0 <= i < |r.value.entities| && r.value.entities[i].name == n.name
                        && r.value.entities[i].entityType == n.entityType)
  {
    SearchNodesFrom(ns, q);
    SearchNodesCovers(ns, q);
  }

  /** `e.name CONTAINS $query OR e.entity_type CONTAINS $query` (case-sensitive). */
  predicate NodeMatches(n: Node, q: string)
  {
    Contains(n.name, q) || Contains(n.entityType, q)
  }

  /** `COLLECT(DISTINCT o.text)` over the observations containing the query. */
  function MatchingObservations(n: Node, q: string): seq<string>
  {
    Seqs.Distinct(Seqs.Filter(n.observations, (o: string) => Contains(o, q)))
  }

  /**
   * The rows reaching the final `RETURN` of search_nodes: one per matching node, grouped by
   * name, entity_type and its matching observations.
   */
  function SearchRecords(ns: seq<Node>, q: string): seq<Keyed<(string, string, seq<string>)>>
  {
    if ns == [] then []
    else
      var n := ns[|ns| - 1];
      SearchRecords(ns[..|ns| - 1], q)
      + (if NodeMatches(n, q) then [Keyed((n.name, n.entityType, MatchingObservations(n, q)), n.observations)] else [])
  }

  function SearchRowOf(k: Keyed<(string, string, seq<string>)>): SearchRow
  {
    SearchRow(k.key.0, k.key.1, k.key.2, Seqs.Distinct(k.values))
  }

  function SearchRows(ns: seq<Node>, q: string): (r: seq<SearchRow>)
    ensures var gs := Group(SearchRecords(ns, q));
      |r| == |gs| && forall i :: 0 <= i < |gs| ==> r[i] == SearchRowOf(gs[i])
  {
    var gs := Group(SearchRecords(ns, q));
    seq(|gs|, i requires 0 <= i < |gs| => SearchRowOf(gs[i]))
  }

  lemma {:induction false} SearchRecordsFrom(ns: seq<Node>, q: string)
    ensures forall k :: k in KeysOf(SearchRecords(ns, q)) <==>
      exists n :: n in ns && NodeMatches(n, q) && k == (n.name, n.entityType, MatchingObservations(n, q))
  {
    if ns != [] {
      var pre := ns[..|ns| - 1];
      SearchRecordsFrom(pre, q);
      assert forall n :: n in ns <==> n in pre || n == ns[|ns| - 1] by {
        assert ns == pre + [ns[|ns| - 1]];
      }
      var n := ns[|ns| - 1];
      assert KeysOf(SearchRecords(ns, q)) == KeysOf(SearchRecords(pre, q))
        + (if NodeMatches(n, q) then [(n.name, n.entityType, MatchingObservations(n, q))] else []);
    }
  }

  /** `row` is the search_nodes row of node `n`: the node matches and the row shows it. */
  predicate SearchRowFor(row: SearchRow, n: Node, q: string)
  {
    NodeMatches(n, q) && row.name == n.name && row.entityType == n.entityType
    && row.matchingObservations == MatchingObservations(n, q)
  }

  /**
   * Every row of search_nodes comes from a node whose name or type contains the query,
   * and carries that node's matching observations.
   */
  lemma SearchNodesFrom(ns: seq<Node>, q: string)
    ensures forall row :: row in SearchRows(ns, q) ==> exists n :: n in ns && SearchRowFor(row, n, q)
  {
    var rows := SearchRows(ns, q);
    forall row | row in rows ensures exists n :: n in ns && SearchRowFor(row, n, q) {
      var i :| 0 <= i < |rows| && rows[i] == row;
      var n := SearchRowSource(ns, q, i);
    }
  }

  /** The node that row `i` of search_nodes stands for. */
  lemma SearchRowSource(ns: seq<Node>, q: string, i: nat) returns (n: Node)
    requires i < |SearchRows(ns, q)|
    ensures n in ns && SearchRowFor(SearchRows(ns, q)[i], n, q)
  {
    var recs := SearchRecords(ns, q);
    var gs := Group(recs);
    GroupFacts(recs);
    SearchRecordsFrom(ns, q);
    var k := gs[i].key;
    assert KeysOf(gs)[i] == k;
    assert k in KeysOf(recs);
    n :| n in ns && NodeMatches(n, q) && k == (n.name, n.entityType, MatchingObservations(n, q));
  }

  /** Every node whose name or type contains the query is represented in search_nodes. */
  lemma SearchNodesCovers(ns: seq<Node>, q: string)
    ensures var rows := SearchRows(ns, q);
      forall n :: n in ns && NodeMatches(n, q) ==>
        exists i :: 0 <= i < |rows| && rows[i].name == n.name && rows[i].entityType == n.entityType
  {
    var recs := SearchRecords(ns, q);
    var gs := Group(recs);
    var rows := SearchRows(ns, q);
    GroupFacts(recs);
    SearchRecordsFrom(ns, q);
    forall n | n in ns && NodeMatches(n, q)
      ensures exists i :: 0 <= i < |rows| && rows[i].name == n.name && rows[i].entityType == n.entityType
    {
      var k := (n.name, n.entityType, MatchingObservations(n, q));
      assert k in KeysOf(recs);
      assert k in KeysOf(gs);
      var i :| 0 <= i < |gs| && KeysOf(gs)[i] == k;
      assert rows[i] == SearchRowOf(gs[i]);
    }
  }

  /** The matching observations of a row are distinct texts that contain the query. */
  lemma SearchNodesMatching(ns: seq<Node>, q: string)
    ensures forall row :: row in SearchRows(ns, q) ==>
      (forall o :: o in row.matchingObservations ==> Contains(o, q))
      && (forall a, b :: 0 <= a < b < |row.matchingObservations| ==>
            row.matchingObservations[a] != row.matchingObservations[b])
  {
    SearchNodesFrom(ns, q);
  }

  /** The rows of open_nodes before aggregation: for each listed name, each node so called. */
  function OpenRecords(ns: seq<Node>, names: seq<string>): seq<Keyed<(string, string)>>
  {
    if names == [] then []
    else OpenRecords(ns, names[..|names| - 1])
         + EntityRecords(Seqs.Filter(ns, (n: Node) => n.name == names[|names| - 1]))
  }

  function OpenRows(ns: seq<Node>, names: seq<string>): seq<EntityRow>
  {
    RowsOfGroups(Group(OpenRecords(ns, names)))
  }

  lemma {:induction false} OpenRecordsFrom(ns: seq<Node>, names: seq<string>)
    ensures forall k :: k in KeysOf(OpenRecords(ns, names)) <==>
      exists n :: n in ns && n.name in names && k == (n.name, n.entityType)
  {
    if names != [] {
      var pre := names[..|names| - 1];
      var last := names[|names| - 1];
      OpenRecordsFrom(ns, pre);
      assert forall x :: x in names <==> x in pre || x == last by {
        assert names == pre + [last];
      }
      var part := EntityRecords(Seqs.Filter(ns, (n: Node) => n.name == last));
      assert KeysOf(OpenRecords(ns, names)) == KeysOf(OpenRecords(ns, pre)) + KeysOf(part);
      forall k | k in KeysOf(part) ensures exists n :: n in ns && n.name in names && k == (n.name, n.entityType) {
        var j :| 0 <= j < |part| && KeysOf(part)[j] == k;
        var f := Seqs.Filter(ns, (n: Node) => n.name == last);
        assert f[j] in f;
      }
      forall n | n in ns && n.name == last ensures (n.name, n.entityType) in KeysOf(part) {
        var f := Seqs.Filter(ns, (n: Node) => n.name == last);
        var j :| 0 <= j < |f| && f[j] == n;
        assert KeysOf(part)[j] == (n.name, n.entityType);
      }
    }
  }

  /**
   * Reference definition: what open_nodes collects for one (name, entity_type): for every
   * requested name equal to `name`, in request order, the observations of all nodes with
   * that name and type, in node order.
   */
  function OpenObservations(ns: seq<Node>, names: seq<string>, name: string, entityType: string): seq<string>
  {
    if names == [] then []
    else OpenObservations(ns, names[..|names| - 1], name, entityType)
         + (if names[|names| - 1] == name then ObservationsOf(ns, name, entityType) else [])
  }

  lemma {:induction false} ValuesForAppend<K>(a: seq<Keyed<K>>, b: seq<Keyed<K>>, k: K)
    ensures ValuesFor(a + b, k) == ValuesFor(a, k) + ValuesFor(b, k)
    decreases |b|
  {
    if b != [] {
      var pre := b[..|b| - 1];
      assert (a + b)[..|a + b| - 1] == a + pre;
      ValuesForAppend(a, pre, k);
    } else {
      assert a + b == a;
    }
  }

  /** The nodes a name filter keeps contribute to one (name, type) only when the names agree. */
  lemma {:induction false} ObservationsOfFiltered(ns: seq<Node>, p: Node -> bool, last: string, name: string, entityType: string)
    requires forall n :: p(n) == (n.name == last)
    ensures ObservationsOf(Seqs.Filter(ns, p), name, entityType)
         == if last == name then ObservationsOf(ns, name, entityType) else []
  {
    if ns != [] {
      var pre := ns[..|ns| - 1];
      var x := ns[|ns| - 1];
      ObservationsOfFiltered(pre, p, last, name, entityType);
      assert ns == pre + [x];
      Seqs.FilterAppend(pre, [x], p);
      assert Seqs.Filter([x], p) == if p(x) then [x] else [];
      var f := Seqs.Filter(pre, p);
      var own := if x.name == name && x.entityType == entityType then x.observations else [];
      assert ObservationsOf(ns, name, entityType) == ObservationsOf(pre, name, entityType) + own;
      if p(x) {
        assert Seqs.Filter(ns, p) == f + [x];
        assert (f + [x])[..|f + [x]| - 1] == f;
        assert ObservationsOf(f + [x], name, entityType) == ObservationsOf(f, name, entityType) + own;
      } else {
        assert Seqs.Filter(ns, p) == f;
        assert last == name ==> own == [];
      }
    }
  }

  lemma {:induction false} ValuesForOpenRecords(ns: seq<Node>, names: seq<string>, name: string, entityType: string)
    ensures ValuesFor(OpenRecords(ns, names), (name, entityType)) == OpenObservations(ns, names, name, entityType)
  {
    if names != [] {
      var pre := names[..|names| - 1];
      var last := names[|names| - 1];
      var p := (n: Node) => n.name == last;
      ValuesForOpenRecords(ns, pre, name, entityType);
      ValuesForAppend(OpenRecords(ns, pre), EntityRecords(Seqs.Filter(ns, p)), (name, entityType));
      ValuesForEntityRecords(Seqs.Filter(ns, p), name, entityType);
      ObservationsOfFiltered(ns, p, last, name, entityType);
    }
  }

  /**
   * With no name requested twice, open_nodes collects for a requested (name, type) exactly
   * what read_graph collects for it, and nothing for a name not requested.
   */
  lemma {:induction false} OpenObservationsDistinct(ns: seq<Node>, names: seq<string>, name: string, entityType: string)
    requires forall i, j :: 0 <= i < j < |names| ==> names[i] != names[j]
    ensures OpenObservations(ns, names, name, entityType)
         == if name in names then ObservationsOf(ns, name, entityType) else []
  {
    if names != [] {
      var pre := names[..|names| - 1];
      OpenObservationsDistinct(ns, pre, name, entityType);
      assert names == pre + [names[|names| - 1]];
      if names[|names| - 1] == name {
        forall j | 0 <= j < |pre| ensures pre[j] != name {
          assert pre[j] == names[j];
        }
      }
    }
  }

  /** A name requested twice brings its observations twice. */
  lemma OpenObservationsRepeated(ns: seq<Node>, name: string, entityType: string)
    ensures OpenObservations(ns, [name, name], name, entityType)
         == ObservationsOf(ns, name, entityType) + ObservationsOf(ns, name, entityType)
  {
    var obs := ObservationsOf(ns, name, entityType);
    assert [name, name][..1] == [name];
    assert [name][..0] == [];
    assert OpenObservations(ns, [name], name, entityType) == OpenObservations(ns, [], name, entityType) + obs;
    assert OpenObservations(ns, [name, name], name, entityType) == OpenObservations(ns, [name], name, entityType) + obs;
  }

  /**
   * open_nodes lists one row per distinct (name, entity_type) among the nodes whose name
   * is requested, and no other; each carries, once per time its name is requested, the
   * observations of every node with that name and type.
   */
  lemma OpenNodesRows(ns: seq<Node>, names: seq<string>)
    ensures var rows := OpenRows(ns, names);
      (forall i, j :: 0 <= i < j < |rows| ==> (rows[i].name, rows[i].entityType) != (rows[j].name, rows[j].entityType))
      && (forall i :: 0 <= i < |rows| ==>
            rows[i].name in names && exists n :: n in ns && n.name == rows[i].name && n.entityType == rows[i].entityType)
      && (forall n :: n in ns && n.name in names ==>
            exists i :: 0 <= i < |rows| && rows[i].name == n.name && rows[i].entityType == n.entityType)
      && (forall i :: 0 <= i < |rows| ==>
            rows[i].observations == OpenObservations(ns, names, rows[i].name, rows[i].entityType))
  {
    var recs := OpenRecords(ns, names);
    var gs := Group(recs);
    var rows := OpenRows(ns, names);
    GroupFacts(recs);
    OpenRecordsFrom(ns, names);
    EntityRowsOfGroups(recs);
    forall i | 0 <= i < |rows|
      ensures rows[i].observations == OpenObservations(ns, names, rows[i].name, rows[i].entityType)
    {
      ValuesForOpenRecords(ns, names, rows[i].name, rows[i].entityType);
    }
    forall i | 0 <= i < |rows|
      ensures rows[i].name in names && exists n :: n in ns && n.name == rows[i].name && n.entityType == rows[i].entityType
    {
      var k := gs[i].key;
      assert KeysOf(gs)[i] == k;
      assert k in KeysOf(recs);
      var n :| n in ns && n.name in names && k == (n.name, n.entityType);
      assert rows[i] == RowOfGroup(gs[i]);
    }
    forall n | n in ns && n.name in names
      ensures exists i :: 0 <= i < |rows| && rows[i].name == n.name && rows[i].entityType == n.entityType
    {
      assert (n.name, n.entityType) in KeysOf(recs);
      assert (n.name, n.entityType) in KeysOf(gs);
      var i :| 0 <= i < |gs| && KeysOf(gs)[i] == (n.name, n.entityType);
      assert rows[i] == RowOfGroup(gs[i]);
    }
  }

  /** `created + rest` on success, the error otherwise: the results create_relations accumulates. */
  function Prefixed(created: seq<RelationRow>, rest: Result<seq<RelationRow>>): Result<seq<RelationRow>>
  {
    match rest
    case Ok(rows) => Ok(created + rows)
    case Err(m) => Err(m)
  }

  lemma PrefixedNone(r: Result<seq<RelationRow>>)
    ensures Prefixed([], r) == r
  {
    if r.Ok? {
      assert [] + r.value == r.value;
    }
  }

  /** One round of the create_entities loop, as `CreateAll` sees it. */
  lemma CreateAllStep(g: Graph, es: seq<Entity>, i: nat, created: seq<CreatedEntity>)
    requires i < |es|
    ensures CreateAll(g, es[i..]).0 == CreateAll(WithEntity(g, es[i]), es[i + 1..]).0
    ensures created + CreateAll(g, es[i..]).1
         == (created + [CreatedEntity(g.nextId, es[i].name, es[i].entityType)]) + CreateAll(WithEntity(g, es[i]), es[i + 1..]).1
  {
    assert es[i..][1..] == es[i + 1..];
  }

  /** One round of the create_relations loop, as `WithRelations` sees it. */
  lemma WithRelationsStep(g: Graph, rels: seq<Relation>, i: nat, created: seq<RelationRow>)
    requires i < |rels|
    ensures WithRelation(g, rels[i]).Err? ==>
      WithRelations(g, rels[i..]) == (g, Err(WithRelation(g, rels[i]).error))
    ensures WithRelation(g, rels[i]).Ok? ==>
      var rest := WithRelations(WithRelation(g, rels[i]).value, rels[i + 1..]);
      WithRelations(g, rels[i..]).0 == rest.0
      && Prefixed(created, WithRelations(g, rels[i..]).1) == Prefixed(created + [RowOf(rels[i])], rest.1)
  {
    assert rels[i..][1..] == rels[i + 1..];
    if WithRelation(g, rels[i]).Ok? {
      var rest := WithRelations(WithRelation(g, rels[i]).value, rels[i + 1..]);
      if rest.1.Ok? {
        assert created + ([RowOf(rels[i])] + rest.1.value) == (created + [RowOf(rels[i])]) + rest.1.value;
      }
    }
  }

  lemma ValidWithoutObservations(g: Graph, name: string, os: seq<string>)
    requires ValidGraph(g)
    ensures ValidGraph(g.(nodes := WithoutObservations(g.nodes, name, os)))
  {
    var ns := WithoutObservations(g.nodes, name, os);
    assert forall i :: 0 <= i < |ns| ==> ns[i].id == g.nodes[i].id;
    assert forall n :: n in ns ==> exists i :: 0 <= i < |ns| && ns[i] == n;
    assert forall i :: 0 <= i < |ns| ==> g.nodes[i] in g.nodes;
    assert NodeIds(g.nodes) <= NodeIds(ns) by {
      forall id | id in NodeIds(g.nodes) ensures id in NodeIds(ns) {
        var n :| n in g.nodes && n.id == id;
        var i :| 0 <= i < |g.nodes| && g.nodes[i] == n;
        assert ns[i] in ns;
      }
    }
  }

  // ---------------------------------------------------------------------------
  // The store
  // ---------------------------------------------------------------------------

  /** The entity loop of read_graph: one row per group, in group order. */
  method EntityRowsOf(groups: seq<Keyed<(string, string)>>) returns (entities: seq<EntityRow>)
    ensures entities == RowsOfGroups(groups)
  {
    entities := [];
    var i := 0;
    while i < |groups|
      invariant 0 <= i <= |groups|
      invariant entities == RowsOfGroups(groups)[..i]
    {
      entities := entities + [RowOfGroup(groups[i])];
      i := i + 1;
    }
  }

  /** The relation loop of read_graph: one row per edge, in edge order. */
  method RelationRowsOf(g: Graph) returns (relations: seq<RelationRow>)
    ensures relations == ReadRelations(g)
  {
    relations := [];
    var j := 0;
    while j < |g.edges|
      invariant 0 <= j <= |g.edges|
      invariant relations == ReadRelations(g)[..j]
    {
      var e := g.edges[j];
      relations := relations + [RelationRow(NameOf(g.nodes, e.src).GetOr(""), e.relationType, NameOf(g.nodes, e.dst).GetOr(""))];
      j := j + 1;
    }
  }

  /**
   * `Neo4jMemoryStore`: a connection to the database. The fields are the database's
   * contents; each method runs the statements of the Python method in the same order.
   */
  class MemoryStore {
    var nodes: seq<Node>
    var edges: seq<Edge>
    var nextId: nat

    function State(): Graph
      reads this
    {
      Graph(nodes, edges, nextId)
    }

    ghost predicate Valid()
      reads this
    {
      ValidGraph(State())
    }

    /** Connects to a database that already holds `g`. */
    constructor (g: Graph)
      requires ValidGraph(g)
      ensures State() == g && Valid()
    {
      nodes := g.nodes;
      edges := g.edges;
      nextId := g.nextId;
    }

    /** `_add_observation`: one `Observation` for every node called `name`. */
    method AddObservation(name: string, text: string)
      requires Valid()
      modifies this
      ensures nodes == WithObservations(old(nodes), name, [text])
      ensures edges == old(edges) && nextId == old(nextId) && Valid()
    {
      ValidWithObservations(State(), name, [text]);
      nodes := WithObservations(nodes, name, [text]);
    }

    /** create_entity: a new node, then `_add_observation` for each observation in order. */
    method CreateEntity(e: Entity) returns (created: CreatedEntity)
      requires Valid()
      modifies this
      ensures State() == WithEntity(old(State()), e) && Valid()
      ensures created == CreatedEntity(old(nextId), e.name, e.entityType)
    {
      ValidWithNode(State(), e.name, e.entityType);
      created := CreatedEntity(nextId, e.name, e.entityType);
      nodes := nodes + [Node(nextId, e.name, e.entityType, [])];
      nextId := nextId + 1;
      ghost var base := nodes;
      WithObservationsNone(base, e.name);
      var i := 0;
      while i < |e.observations|
        invariant 0 <= i <= |e.observations|
        invariant nodes == WithObservations(base, e.name, e.observations[..i])
        invariant edges == old(edges) && nextId == old(nextId) + 1 && Valid()
      {
        AddObservation(e.name, e.observations[i]);
        WithObservationsThen(base, e.name, e.observations[..i], [e.observations[i]]);
        assert e.observations[..i] + [e.observations[i]] == e.observations[..i + 1];
        i := i + 1;
      }
      assert e.observations[..i] == e.observations;
    }

    /** create_entities: create_entity for each input in order, collecting the records. */
    method CreateEntities(es: seq<Entity>) returns (created: seq<CreatedEntity>)
      requires Valid()
      modifies this
      ensures (State(), created) == CreateAll(old(State()), es) && Valid()
    {
      ghost var total := CreateAll(State(), es);
      created := [];
      var i := 0;
      assert es[i..] == es;
      while i < |es|
        invariant 0 <= i <= |es| && Valid()
        invariant total.0 == CreateAll(State(), es[i..]).0
        invariant total.1 == created + CreateAll(State(), es[i..]).1
      {
        CreateAllStep(State(), es, i, created);
        var c := CreateEntity(es[i]);
        created := created + [c];
        i := i + 1;
      }
      assert es[i..] == [];
      assert created + [] == created;
    }

    /** create_relation: one statement; with a missing endpoint, reading its record raises. */
    method CreateRelation(r: Relation) returns (result: Result<RelationRow>)
      requires Valid()
      modifies this
      ensures WithRelation(old(State()), r).Ok? ==>
        State() == WithRelation(old(State()), r).value && result == Ok(RowOf(r))
      ensures WithRelation(old(State()), r).Err? ==>
        State() == old(State()) && result == Err(WithRelation(old(State()), r).error)
      ensures Valid()
    {
      var srcs := IdsNamed(nodes, r.fromEntity);
      var dsts := IdsNamed(nodes, r.toEntity);
      if srcs == [] || dsts == [] {
        return Err("'NoneType' object is not subscriptable");
      }
      ValidWithRelation(State(), r);
      var ps := Pairs(srcs, dsts);
      edges := edges + NewEdges(ps, r.relationType, nextId);
      nextId := nextId + |ps|;
      result := Ok(RowOf(r));
    }

    /** create_relations: create_relation for each input in order; an error propagates. */
    method CreateRelations(rels: seq<Relation>) returns (result: Result<seq<RelationRow>>)
      requires Valid()
      modifies this
      ensures (State(), result) == WithRelations(old(State()), rels) && Valid()
    {
      ghost var total := WithRelations(State(), rels);
      var created := [];
      var i := 0;
      assert rels[i..] == rels;
      PrefixedNone(total.1);
      while i < |rels|
        invariant 0 <= i <= |rels| && Valid()
        invariant total.0 == WithRelations(State(), rels[i..]).0
        invariant total.1 == Prefixed(created, WithRelations(State(), rels[i..]).1)
      {
        WithRelationsStep(State(), rels, i, created);
        var one := CreateRelation(rels[i]);
        if one.Err? {
          return Err(one.error);
        }
        created := created + [one.value];
        i := i + 1;
      }
      assert rels[i..] == [];
      assert created + [] == created;
      result := Ok(created);
    }

    /** add_observations: `_add_observation` per text; the count reported is the input's length. */
    method AddObservations(name: string, os: seq<string>) returns (report: ObservationReport)
      requires Valid()
      modifies this
      ensures nodes == WithObservations(old(nodes), name, os)
      ensures edges == old(edges) && nextId == old(nextId) && Valid()
      ensures report == ObservationReport(name, |os|)
    {
      ghost var base := nodes;
      WithObservationsNone(base, name);
      var i := 0;
      while i < |os|
        invariant 0 <= i <= |os|
        invariant nodes == WithObservations(base, name, os[..i])
        invariant edges == old(edges) && nextId == old(nextId) && Valid()
      {
        AddObservation(name, os[i]);
        WithObservationsThen(base, name, os[..i], [os[i]]);
        assert os[..i] + [os[i]] == os[..i + 1];
        i := i + 1;
      }
      assert os[..i] == os;
      report := ObservationReport(name, |os|);
    }

    /** delete_entities: reports the requested names as given, deleted or not. */
    method DeleteEntities(names: seq<string>) returns (deleted: seq<string>)
      requires Valid()
      modifies this
      ensures State() == WithoutEntities(old(State()), names) && Valid()
      ensures deleted == names
    {
      DeleteEntitiesEffect(State(), names);
      var h := WithoutEntities(State(), names);
      nodes, edges := h.nodes, h.edges;
      deleted := names;
    }

    /** delete_observations: reports the number of texts requested, not the number removed. */
    method DeleteObservations(name: string, os: seq<string>) returns (report: ObservationReport)
      requires Valid()
      modifies this
      ensures nodes == WithoutObservations(old(nodes), name, os)
      ensures edges == old(edges) && nextId == old(nextId) && Valid()
      ensures report == ObservationReport(name, |os|)
    {
      ValidWithoutObservations(State(), name, os);
      nodes := WithoutObservations(nodes, name, os);
      report := ObservationReport(name, |os|);
    }

    /** delete_relations: reports the number of triples requested. */
    method DeleteRelations(rels: seq<Relation>) returns (count: nat)
      requires Valid()
      modifies this
      ensures State() == WithoutRelations(old(State()), rels) && Valid()
      ensures count == |rels|
    {
      DeleteRelationsEffect(State(), rels);
      edges := WithoutRelations(State(), rels).edges;
      count := |rels|;
    }

    /** read_graph: one dict per row of each query, appended in row order. */
    method ReadGraph() returns (result: GraphRows)
      requires Valid()
      ensures result == GraphRows(ReadEntities(nodes), ReadRelations(State()))
    {
      var entities := EntityRowsOf(Group(EntityRecords(nodes)));
      var relations := RelationRowsOf(State());
      result := GraphRows(entities, relations);
    }

    /**
     * search_nodes: `session.run` with the statement and the version's keyword arguments,
     * then one dict per result row.
     */
    method SearchNodes(query: string, v: Version) returns (result: Result<SearchResult>)
      ensures result == SearchNodesSpec(nodes, query, v)
    {
      var refused := RunRefusal(SearchKeywords(v));
      if refused.Some? {
        return Err(refused.value);
      }
      var groups := Group(SearchRecords(nodes, query));
      var entities := [];
      var i := 0;
      while i < |groups|
        invariant 0 <= i <= |groups|
        invariant entities == SearchRows(nodes, query)[..i]
      {
        entities := entities + [SearchRowOf(groups[i])];
        i := i + 1;
      }
      assert SearchRows(nodes, query)[..i] == SearchRows(nodes, query);
      result := Ok(SearchResult(query, entities));
      assert SearchNodesSpec(nodes, query, v) == Ok(SearchResult(query, SearchRows(nodes, query)));
    }

    /** open_nodes: one dict per result row. */
    method OpenNodes(names: seq<string>) returns (entities: seq<EntityRow>)
      ensures entities == OpenRows(nodes, names)
    {
      var groups := Group(OpenRecords(nodes, names));
      entities := [];
      var i := 0;
      while i < |groups|
        invariant 0 <= i <= |groups|
        invariant entities == RowsOfGroups(groups)[..i]
      {
        entities := entities + [RowOfGroup(groups[i])];
        i := i + 1;
      }
    }
  }
}
