/**
 * `KnowledgeGraphRetriever.retrieve` of emvr/retrieval/knowledge_graph_retriever.py: the
 * filter clauses and parameters, the choice of one of three Cypher templates, the keyword
 * taken from the query, and the results built from the matched `(n)-[r]->(m)` rows.
 *
 * The database is the in-memory graph of the memory store, or the error the driver raises.
 * A template is evaluated on the graph edge by edge, in creation order, which is one of
 * the orders Neo4j may return; the observation query likewise reads the observations of
 * the nodes with the given name in node order.
 */
module KnowledgeGraphRetriever {
  import opened Outcomes
  import opened Text
  import opened RetrievalBase
  import opened GraphStore
  import Seqs

  /** A value of the `filters` dict: a list of type names, or any other value. */
  datatype FilterValue = ListValue(items: seq<string>) | OtherValue

  /** A Cypher parameter: a list of type names or a text. */
  datatype Param = ListParam(items: seq<string>) | TextParam(text: string)

  /** The three query templates. */
  datatype Template = ImplementsTemplate | RelatedTemplate | DefaultTemplate

  /** The query about to be run, apart from its text: its template and its parameters. */
  datatype Plan = Plan(template: Template, params: map<string, Param>)

  /** One `n, r, m` record: source entity, relation and target entity. */
  datatype Row = Row(source: Node, relation: Edge, target: Node)

  const EntityClause: string := "AND n.entity_type IN $entityTypes "
  const RelationClause: string := "AND r.type IN $relationTypes "

  /** Tokens never taken as the keyword. */
  const StopWords: seq<string> := ["what", "who", "when", "where", "how", "related", "connection"]

  /** The indentation of the template lines inside the triple-quoted strings. */
  const Indent: string := "                "

  // ---------------------------------------------------------------------------
  // Filters
  // ---------------------------------------------------------------------------

  /** The list under `key` when it is a non-empty list, else the empty list. */
  function ListFilter(filters: map<string, FilterValue>, key: string): (r: seq<string>)
    ensures r != [] <==> key in filters && filters[key].ListValue? && filters[key].items != []
    ensures r != [] ==> r == filters[key].items
  {
    if key in filters && filters[key].ListValue? then filters[key].items else []
  }

  /** The extra WHERE text: the entity-type clause, then the relation-type clause. */
  function FilterWhere(filters: map<string, FilterValue>): string
  {
    (if ListFilter(filters, "entity_types") != [] then EntityClause else "")
    + (if ListFilter(filters, "relation_types") != [] then RelationClause else "")
  }

  /** The parameters the filter clauses bind. */
  function FilterParams(filters: map<string, FilterValue>): map<string, Param>
  {
    var entityTypes := ListFilter(filters, "entity_types");
    var relationTypes := ListFilter(filters, "relation_types");
    var p: map<string, Param> := if entityTypes != [] then map["entityTypes" := ListParam(entityTypes)] else map[];
    if relationTypes != [] then p["relationTypes" := ListParam(relationTypes)] else p
  }

  /** The `if filters:` block: clauses and parameters for the non-empty list filters. */
  method FilterClauses(filters: map<string, FilterValue>) returns (where: string, params: map<string, Param>)
    ensures where == FilterWhere(filters) && params == FilterParams(filters)
  {
    params := map[];
    where := "";
    if |filters| > 0 {
      if "entity_types" in filters {
        var entityTypes := filters["entity_types"];
        if entityTypes.ListValue? && |entityTypes.items| > 0 {
          params := params["entityTypes" := ListParam(entityTypes.items)];
          where := where + EntityClause;
        }
      }
      if "relation_types" in filters {
        var relationTypes := filters["relation_types"];
        if relationTypes.ListValue? && |relationTypes.items| > 0 {
          params := params["relationTypes" := ListParam(relationTypes.items)];
          where := where + RelationClause;
        }
      }
    }
  }

  // ---------------------------------------------------------------------------
  // Template choice and keyword
  // ---------------------------------------------------------------------------

  function Classify(query: string): Template
  {
    var q := Lower(query);
    if Contains(q, "implement") || Contains(q, "build") then ImplementsTemplate
    else if Contains(q, "related") || Contains(q, "connection") then RelatedTemplate
    else DefaultTemplate
  }

  /**
   * The lowercased query picks the implements template when it mentions "implement" or
   * "build", whatever else it mentions; otherwise the related template when it mentions
   * "related" or "connection"; otherwise the default template.
   */
  lemma ClassifyPriority(query: string)
    ensures var q := Lower(query);
      (Classify(query) == ImplementsTemplate <==> Contains(q, "implement") || Contains(q, "build"))
      && (Classify(query) == RelatedTemplate <==>
            !Contains(q, "implement") && !Contains(q, "build") && (Contains(q, "related") || Contains(q, "connection")))
      && (Classify(query) == DefaultTemplate <==>
            !Contains(q, "implement") && !Contains(q, "build") && !Contains(q, "related") && !Contains(q, "connection"))
  {
  }

  /** A token that may be the keyword: longer than three characters and not a stop word. */
  predicate Qualifies(token: string)
  {
    |token| > 3 && token !in StopWords
  }

  /** The first qualifying token, or "" when none qualifies. */
  function FirstKeyword(tokens: seq<string>): string
  {
    if tokens == [] then ""
    else if Qualifies(tokens[0]) then tokens[0]
    else FirstKeyword(tokens[1..])
  }

  /**
   * The keyword is "" exactly when no token qualifies; otherwise it is a qualifying token
   * and every token before it fails to qualify.
   */
  lemma {:induction false} FirstKeywordFacts(tokens: seq<string>)
    ensures var k := FirstKeyword(tokens);
      (k == "" <==> forall i :: 0 <= i < |tokens| ==> !Qualifies(tokens[i]))
      && (k != "" ==> exists i :: 0 <= i < |tokens| && tokens[i] == k && Qualifies(k)
                                 && forall j :: 0 <= j < i ==> !Qualifies(tokens[j]))
  {
    if tokens != [] && !Qualifies(tokens[0]) {
      FirstKeywordFacts(tokens[1..]);
      var k := FirstKeyword(tokens);
      if k != "" {
        var i :| 0 <= i < |tokens[1..]| && tokens[1..][i] == k && Qualifies(k)
                 && forall j :: 0 <= j < i ==> !Qualifies(tokens[1..][j]);
        assert tokens[i + 1] == k;
        assert forall j :: 0 <= j < i + 1 ==> !Qualifies(tokens[j]) by {
          forall j | 0 <= j < i + 1 ensures !Qualifies(tokens[j]) {
            if j > 0 {
              assert tokens[j] == tokens[1..][j - 1];
            }
          }
        }
      } else {
        forall i | 0 <= i < |tokens| ensures !Qualifies(tokens[i]) {
          if i > 0 {
            assert tokens[i] == tokens[1..][i - 1];
          }
        }
      }
    }
  }

  /** The for/else loop over the lowercased tokens. */
  method ExtractKeyword(query: string) returns (keyword: string)
    ensures keyword == FirstKeyword(SplitWs(Lower(query)))
  {
    var tokens := SplitWs(Lower(query));
    var i := 0;
    while i < |tokens|
      invariant 0 <= i <= |tokens|
      invariant FirstKeyword(tokens[i..]) == FirstKeyword(tokens)
    {
      var token := tokens[i];
      if |token| > 3 && token !in StopWords {
        assert tokens[i..][0] == token;
        keyword := token;
        return;
      }
      assert tokens[i..][1..] == tokens[i + 1..];
      i := i + 1;
    }
    assert tokens[i..] == [];
    keyword := "";
  }

  // ---------------------------------------------------------------------------
  // The query text and its parameters
  // ---------------------------------------------------------------------------

  /** The condition a template puts before the filter clauses. */
  function Condition(t: Template): string
  {
    match t
    case ImplementsTemplate => "r.type = 'implements' OR r.type = 'uses_framework'"
    case RelatedTemplate => "n.name CONTAINS $keyword OR m.name CONTAINS $keyword"
    case DefaultTemplate => "toLower(n.name) CONTAINS toLower($query) OR toLower(m.name) CONTAINS toLower($query)"
  }

  /** The first line of every template. */
  const MatchLine: string := "\n" + Indent + "MATCH (n:Entity)-[r:RELATION]->(m:Entity)\n"

  /** The line returning the three matched elements. */
  const ReturnLine: string := Indent + "RETURN n, r, m\n"

  /**
   * The WHERE line: the template's condition followed by the filter clauses; the corrected
   * form puts the condition in parentheses so that the clauses constrain both alternatives.
   */
  function WhereLine(v: Version, t: Template, where: string): string
  {
    match v
    case AsWritten => "WHERE " + Condition(t) + " " + where + "\n"
    case Corrected => "WHERE (" + Condition(t) + ") " + where + "\n"
  }

  /** The last line of every template: the limit and the closing indentation. */
  function LimitLine(topK: int): string
  {
    Indent + "LIMIT " + IntToString(topK) + "\n" + Indent
  }

  /** The f-string of a template with the filter clauses and `top_k` filled in. */
  function CypherText(v: Version, t: Template, where: string, topK: int): string
  {
    MatchLine + Indent + WhereLine(v, t, where) + (ReturnLine + LimitLine(topK))
  }

  /**
   * Every template starts by matching `(n:Entity)-[r:RELATION]->(m:Entity)`, puts the
   * filter clauses right after its own condition, and ends with `LIMIT top_k`.
   */
  lemma CypherShape(v: Version, t: Template, where: string, topK: int)
    ensures var text := CypherText(v, t, where, topK);
      StartsWith(text, MatchLine)
      && Contains(text, WhereLine(v, t, where))
      && |LimitLine(topK)| <= |text| && text[|text| - |LimitLine(topK)|..] == LimitLine(topK)
  {
    FivePartText(MatchLine, Indent, WhereLine(v, t, where), ReturnLine, LimitLine(topK));
  }

  /** The shape facts of a text `m + i + w + (r + l)`, for any five parts. */
  lemma FivePartText(m: string, i: string, w: string, r: string, l: string)
    ensures var text := m + i + w + (r + l);
      StartsWith(text, m) && Contains(text, w) && |l| <= |text| && text[|text| - |l|..] == l
  {
    var text := m + i + w + (r + l);
    assert text[..|m|] == m;
    Seqs.DropFront(m + i + w, r, l);
    ContainsInside(m + i, w, r + l);
  }

  /** `params` with what the template binds besides the filters. */
  function WithTemplateParams(params: map<string, Param>, t: Template, query: string): map<string, Param>
  {
    match t
    case ImplementsTemplate => params
    case RelatedTemplate => params["keyword" := TextParam(FirstKeyword(SplitWs(Lower(query))))]
    case DefaultTemplate => params["query" := TextParam(query)]
  }

  /** The template and parameters `retrieve` uses for `query` and `filters`. */
  function PlanFor(query: string, filters: map<string, FilterValue>): Plan
  {
    var t := Classify(query);
    Plan(t, WithTemplateParams(FilterParams(filters), t, query))
  }

  /**
   * Lines 82-133: the clauses and parameters are built up, then the template is chosen and
   * its parameter bound; the Cypher text is `CypherText(v, plan.template, where, top_k)`.
   */
  method BuildQuery(query: string, filters: map<string, FilterValue>) returns (where: string, plan: Plan)
    ensures where == FilterWhere(filters)
    ensures plan == PlanFor(query, filters)
  {
    var params;
    where, params := FilterClauses(filters);
    var q := Lower(query);
    var template;
    if Contains(q, "implement") || Contains(q, "build") {
      template := ImplementsTemplate;
    } else if Contains(q, "related") || Contains(q, "connection") {
      template := RelatedTemplate;
      var keyword := ExtractKeyword(query);
      params := params["keyword" := TextParam(keyword)];
    } else {
      template := DefaultTemplate;
      params := params["query" := TextParam(query)];
    }
    plan := Plan(template, params);
  }

  /**
   * Each non-empty list filter binds its parameter to the list; the related template binds
   * `$keyword` to the extracted keyword, the default template binds `$query` to the query as
   * given (not lowercased), and nothing else is bound.
   */
  lemma PlanParams(query: string, filters: map<string, FilterValue>)
    ensures var plan := PlanFor(query, filters);
      var p := plan.params;
      p.Keys <= {"entityTypes", "relationTypes", "keyword", "query"}
      && ("entityTypes" in p <==> ListFilter(filters, "entity_types") != [])
      && ("entityTypes" in p ==> p["entityTypes"] == ListParam(ListFilter(filters, "entity_types")))
      && ("relationTypes" in p <==> ListFilter(filters, "relation_types") != [])
      && ("relationTypes" in p ==> p["relationTypes"] == ListParam(ListFilter(filters, "relation_types")))
      && ("keyword" in p <==> plan.template == RelatedTemplate)
      && ("keyword" in p ==> p["keyword"] == TextParam(FirstKeyword(SplitWs(Lower(query)))))
      && ("query" in p <==> plan.template == DefaultTemplate)
      && ("query" in p ==> p["query"] == TextParam(query))
  {
  }

  // ---------------------------------------------------------------------------
  // Evaluating a template on the graph
  // ---------------------------------------------------------------------------

  /** The node with id `id`, if any. */
  function NodeById(ns: seq<Node>, id: nat): (r: Option<Node>)
    ensures r.Some? ==> r.value in ns && r.value.id == id
    ensures r.None? ==> forall n :: n in ns ==> n.id != id
  {
    if ns == [] then None
    else if ns[0].id == id then Some(ns[0])
    else
      var r := NodeById(ns[1..], id);
      assert forall n :: n in ns ==> n == ns[0] || n in ns[1..];
      r
  }

  function TextParamOf(params: map<string, Param>, key: string): string
  {
    if key in params && params[key].TextParam? then params[key].text else ""
  }

  /** The two alternatives joined by OR in the template's own condition, for one row. */
  function Alternatives(t: Template, params: map<string, Param>, row: Row): (bool, bool)
  {
    match t
    case ImplementsTemplate =>
      (row.relation.relationType == "implements", row.relation.relationType == "uses_framework")
    case RelatedTemplate =>
      var k := TextParamOf(params, "keyword");
      (Contains(row.source.name, k), Contains(row.target.name, k))
    case DefaultTemplate =>
      var q := Lower(TextParamOf(params, "query"));
      (Contains(Lower(row.source.name), q), Contains(Lower(row.target.name), q))
  }

  /** The filter clauses: the source's type and the relation's type are in the bound lists. */
  predicate FiltersHold(params: map<string, Param>, row: Row)
  {
    ("entityTypes" in params && params["entityTypes"].ListParam? ==>
       row.source.entityType in params["entityTypes"].items)
    && ("relationTypes" in params && params["relationTypes"].ListParam? ==>
          row.relation.relationType in params["relationTypes"].items)
  }

  /**
   * The WHERE clause as the templates write it, `A OR B AND <filters>`: AND binds more
   * tightly than OR in Cypher, so the filters only restrict the second alternative.
   */
  predicate PassesAsWritten(t: Template, params: map<string, Param>, row: Row)
  {
    var alt := Alternatives(t, params, row);
    alt.0 || (alt.1 && FiltersHold(params, row))
  }

  /** The WHERE clause as intended, `(A OR B) AND <filters>`. */
  predicate Passes(t: Template, params: map<string, Param>, row: Row)
  {
    var alt := Alternatives(t, params, row);
    (alt.0 || alt.1) && FiltersHold(params, row)
  }

  /**
   * The intended clause enforces the filters, is never weaker than the written one, and
   * agrees with it on every row that meets the filters.
   */
  lemma PassesFacts(t: Template, params: map<string, Param>, row: Row)
    ensures Passes(t, params, row) ==> FiltersHold(params, row) && PassesAsWritten(t, params, row)
    ensures FiltersHold(params, row) ==> (Passes(t, params, row) <==> PassesAsWritten(t, params, row))
  {
  }

  /** The WHERE clause of the version: as the templates write it, or as intended. */
  predicate Admits(v: Version, t: Template, params: map<string, Param>, row: Row)
  {
    match v
    case AsWritten => PassesAsWritten(t, params, row)
    case Corrected => Passes(t, params, row)
  }

  /**
   * The keyword arguments `session.run` receives besides the query text: as written, one
   * per bound parameter (`**cypher_params`); corrected, the single `parameters` dict.
   */
  function RunKeywords(v: Version, plan: Plan): set<string>
  {
    match v
    case AsWritten => plan.params.Keys
    case Corrected => {"parameters"}
  }

  /**
   * As written, `session.run` refuses exactly the default template's call, whose `$query`
   * parameter arrives as a second value for the run's own `query` argument; the corrected
   * call is never refused.
   */
  lemma RunRefusedExactly(v: Version, query: string, filters: map<string, FilterValue>)
    ensures RunRefusal(RunKeywords(v, PlanFor(query, filters))).Some?
        <==> v == AsWritten && Classify(query) == DefaultTemplate
    ensures RunRefusal(RunKeywords(v, PlanFor(query, filters))).Some? ==>
        RunRefusal(RunKeywords(v, PlanFor(query, filters))).value == RunClash
  {
    PlanParams(query, filters);
  }

  /** The rows the MATCH ... WHERE part yields, one per admitted edge in `edges`, in order. */
  function MatchRows(g: Graph, v: Version, t: Template, params: map<string, Param>, edges: seq<Edge>): (r: seq<Row>)
    ensures forall row :: row in r ==>
      row.relation in edges && row.source in g.nodes && row.target in g.nodes
      && row.source.id == row.relation.src && row.target.id == row.relation.dst
      && Admits(v, t, params, row)
  {
    if edges == [] then []
    else
      var e := edges[0];
      var rest := MatchRows(g, v, t, params, edges[1..]);
      assert forall x :: x in edges[1..] ==> x in edges;
      match (NodeById(g.nodes, e.src), NodeById(g.nodes, e.dst))
      case (Some(n), Some(m)) =>
        if Admits(v, t, params, Row(n, e, m)) then [Row(n, e, m)] + rest else rest
      case _ => rest
  }

  /** Every edge between two existing nodes whose row the WHERE clause admits is matched. */
  lemma {:induction false} MatchRowsComplete(g: Graph, v: Version, t: Template, params: map<string, Param>,
                                             edges: seq<Edge>, row: Row)
    requires UniqueNodeIds(g.nodes)
    requires row.relation in edges && row.source in g.nodes && row.target in g.nodes
    requires row.source.id == row.relation.src && row.target.id == row.relation.dst
    requires Admits(v, t, params, row)
    ensures row in MatchRows(g, v, t, params, edges)
  {
    var e := edges[0];
    if e == row.relation {
      var n := NodeById(g.nodes, e.src);
      var m := NodeById(g.nodes, e.dst);
      assert n == Some(row.source) && m == Some(row.target);
      assert MatchRows(g, v, t, params, edges) == [row] + MatchRows(g, v, t, params, edges[1..]);
    } else {
      assert row.relation in edges[1..] by {
        assert edges == [e] + edges[1..];
      }
      MatchRowsComplete(g, v, t, params, edges[1..], row);
    }
  }

  // ---------------------------------------------------------------------------
  // Building the results
  // ---------------------------------------------------------------------------

  /** The observation texts of every entity called `name`. */
  function ObservationsNamed(ns: seq<Node>, name: string): (r: seq<string>)
    ensures forall o :: o in r <==> exists n :: n in ns && n.name == name && o in n.observations
  {
    if ns == [] then []
    else
      var r := (if ns[0].name == name then ns[0].observations else []) + ObservationsNamed(ns[1..], name);
      assert forall n :: n in ns <==> n == ns[0] || n in ns[1..];
      r
  }

  /** The rows of the `LIMIT 3` observation query for `name`. */
  function ShownObservations(ns: seq<Node>, name: string): seq<string>
  {
    Seqs.PyTake(ObservationsNamed(ns, name), 3)
  }

  /**
   * At most three observations are shown, all of entities with that name, and some are
   * shown exactly when an entity with that name has an observation.
   */
  lemma ShownObservationsFacts(ns: seq<Node>, name: string)
    ensures var r := ShownObservations(ns, name);
      |r| <= 3
      && (forall o :: o in r ==> exists n :: n in ns && n.name == name && o in n.observations)
      && (r != [] <==> exists n :: n in ns && n.name == name && n.observations != [])
  {
    var all := ObservationsNamed(ns, name);
    var r := ShownObservations(ns, name);
    assert forall o :: o in r ==> o in all;
    if all != [] {
      assert all[0] in all;
      assert r[0] in r;
    }
    if exists n :: n in ns && n.name == name && n.observations != [] {
      var n :| n in ns && n.name == name && n.observations != [];
      assert n.observations[0] in all;
    }
  }

  /** `f"{source.id}-{relation.id}-{target.id}"`. */
  function ResultId(row: Row): string
  {
    NatToString(row.source.id) + "-" + NatToString(row.relation.id) + "-" + NatToString(row.target.id)
  }

  /** Splitting an id at '-' gives back the three printed ids. */
  lemma ResultIdParts(row: Row)
    ensures SplitOn(ResultId(row), '-') ==
      [NatToString(row.source.id), NatToString(row.relation.id), NatToString(row.target.id)]
  {
    var a, b, c := NatToString(row.source.id), NatToString(row.relation.id), NatToString(row.target.id);
    assert '-' !in a && '-' !in b && '-' !in c by {
      assert !IsDigit('-');
    }
    assert ResultId(row) == a + ['-'] + (b + ['-'] + c);
    SplitOnAfter(a, b + ['-'] + c, '-');
    SplitOnAfter(b, c, '-');
    SplitOnFree(c, '-');
  }

  /** Two rows get the same id only when their source, relation and target ids agree. */
  lemma ResultIdInjective(x: Row, y: Row)
    requires ResultId(x) == ResultId(y)
    ensures x.source.id == y.source.id && x.relation.id == y.relation.id && x.target.id == y.target.id
  {
    ResultIdParts(x);
    ResultIdParts(y);
    NatToStringInjective(x.source.id, y.source.id);
    NatToStringInjective(x.relation.id, y.relation.id);
    NatToStringInjective(x.target.id, y.target.id);
  }

  /** `f"{source['name']} --{relation['type']}--> {target['name']}"`. */
  function Arrow(row: Row): string
  {
    row.source.name + " --" + row.relation.relationType + "--> " + row.target.name
  }

  /** The line listing the source's observations, absent when there are none. */
  function SourceLine(name: string, obs: seq<string>): string
  {
    if obs == [] then "" else "\nSource (" + name + "): " + Join(obs, "; ")
  }

  /** The line listing the target's observations, absent when there are none. */
  function TargetLine(name: string, obs: seq<string>): string
  {
    if obs == [] then "" else "\nTarget (" + name + "): " + Join(obs, "; ")
  }

  function ResultMetadata(row: Row): map<string, string>
  {
    map["source_entity" := row.source.name, "source_type" := row.source.entityType,
        "relation" := row.relation.relationType,
        "target_entity" := row.target.name, "target_type" := row.target.entityType]
  }

  /** The result built for one row. */
  function ResultOf(ns: seq<Node>, row: Row): RetrievalResult
  {
    var text := Arrow(row)
      + SourceLine(row.source.name, ShownObservations(ns, row.source.name))
      + TargetLine(row.target.name, ShownObservations(ns, row.target.name));
    RetrievalResult(ResultId(row), text, Some(1.0), ResultMetadata(row), None)
  }

  /**
   * The result for a row is scored 1.0, carries the row's id and the five metadata keys,
   * and its text starts with the arrow line.
   */
  lemma ResultOfFacts(ns: seq<Node>, row: Row)
    ensures var r := ResultOf(ns, row);
      r.id == ResultId(row) && r.score == Some(1.0) && r.sources.None?
      && r.metadata == ResultMetadata(row)
      && r.metadata.Keys == {"source_entity", "source_type", "relation", "target_entity", "target_type"}
      && StartsWith(r.text, Arrow(row))
  {
    var s := SourceLine(row.source.name, ShownObservations(ns, row.source.name));
    var t := TargetLine(row.target.name, ShownObservations(ns, row.target.name));
    assert (Arrow(row) + s + t)[..|Arrow(row)|] == Arrow(row);
  }

  /** The rows `LIMIT top_k` lets through, for a non-negative `top_k`. */
  function LimitedRows(g: Graph, v: Version, plan: Plan, topK: nat): (r: seq<Row>)
  {
    Seqs.PyTake(MatchRows(g, v, plan.template, plan.params, g.edges), topK)
  }

  /**
   * `retrieve` as a value: an unreachable database, a refused `session.run` call or a
   * negative `top_k` (which Cypher rejects in LIMIT) raises, and the handler returns [].
   */
  function RetrieveSpec(v: Version, query: string, topK: int, filters: map<string, FilterValue>,
                        db: Result<Graph>): seq<RetrievalResult>
  {
    var plan := PlanFor(query, filters);
    if db.Err? || RunRefusal(RunKeywords(v, plan)).Some? || topK < 0 then []
    else
      var rows := LimitedRows(db.value, v, plan, topK);
      seq(|rows|, i requires 0 <= i < |rows| => ResultOf(db.value.nodes, rows[i]))
  }

  /** The body of the record loop: id, text with the observation lines, score and metadata. */
  method BuildResult(ns: seq<Node>, row: Row) returns (result: RetrievalResult)
    ensures result == ResultOf(ns, row)
  {
    var resultId := NatToString(row.source.id) + "-" + NatToString(row.relation.id) + "-" + NatToString(row.target.id);
    var resultText := row.source.name + " --" + row.relation.relationType + "--> " + row.target.name;
    var sourceObs := ShownObservations(ns, row.source.name);
    var targetObs := ShownObservations(ns, row.target.name);
    if sourceObs != [] {
      resultText := resultText + ("\nSource (" + row.source.name + "): " + Join(sourceObs, "; "));
    }
    assert resultText == Arrow(row) + SourceLine(row.source.name, sourceObs);
    if targetObs != [] {
      resultText := resultText + ("\nTarget (" + row.target.name + "): " + Join(targetObs, "; "));
    }
    assert resultText == Arrow(row) + SourceLine(row.source.name, sourceObs) + TargetLine(row.target.name, targetObs);
    var metadata := map["source_entity" := row.source.name, "source_type" := row.source.entityType,
                        "relation" := row.relation.relationType,
                        "target_entity" := row.target.name, "target_type" := row.target.entityType];
    result := RetrievalResult(resultId, resultText, Some(1.0), metadata, None);
  }

  /** The `async for record in result` loop: one result per record, in order. */
  method ResultsOf(ns: seq<Node>, rows: seq<Row>) returns (results: seq<RetrievalResult>)
    ensures |results| == |rows| && forall j :: 0 <= j < |rows| ==> results[j] == ResultOf(ns, rows[j])
  {
    results := [];
    var i := 0;
    while i < |rows|
      invariant 0 <= i <= |rows| && |results| == i
      invariant forall j :: 0 <= j < i ==> results[j] == ResultOf(ns, rows[j])
    {
      var result := BuildResult(ns, rows[i]);
      results := results + [result];
      i := i + 1;
    }
  }

  /** `retrieve`: build the query, run it, and turn each record into a result. */
  method Retrieve(query: string, topK: int, filters: map<string, FilterValue>, db: Result<Graph>, v: Version)
    returns (results: seq<RetrievalResult>)
    ensures results == RetrieveSpec(v, query, topK, filters, db)
  {
    var where, plan := BuildQuery(query, filters);
    // The f-string retrieve sends to Neo4j; the run below is modelled by its rows, not by this text.
    var cypher := CypherText(v, plan.template, where, topK);
    if db.Err? {
      return [];
    }
    var refused := RunRefusal(RunKeywords(v, plan));
    if refused.Some? || topK < 0 {
      return [];
    }
    var rows := LimitedRows(db.value, v, plan, topK);
    results := ResultsOf(db.value.nodes, rows);
  }

  // ---------------------------------------------------------------------------
  // Properties of retrieve
  // ---------------------------------------------------------------------------

  /** Any raised error (no database, negative `top_k`) gives no results. */
  lemma RetrieveFails(v: Version, query: string, topK: int, filters: map<string, FilterValue>, db: Result<Graph>)
    requires db.Err? || topK < 0
    ensures RetrieveSpec(v, query, topK, filters, db) == []
  {
  }

  /**
   * As written, a query that mentions none of the template words gets no results whatever
   * the graph holds: the default template's `session.run` call raises a TypeError.
   */
  lemma RetrieveDefaultFailsAsWritten(query: string, topK: int, filters: map<string, FilterValue>, db: Result<Graph>)
    requires Classify(query) == DefaultTemplate
    ensures RetrieveSpec(AsWritten, query, topK, filters, db) == []
  {
    RunRefusedExactly(AsWritten, query, filters);
  }

  /**
   * At most `top_k` results, each the result of a row the WHERE clause admits, made from an
   * edge of the graph between two of its nodes: scored 1.0, with the five metadata keys, an
   * id naming the three and a text that starts with the arrow line.
   */
  lemma RetrieveFromGraph(v: Version, query: string, topK: int, filters: map<string, FilterValue>, g: Graph)
    ensures var r := RetrieveSpec(v, query, topK, filters, Ok(g));
      var plan := PlanFor(query, filters);
      (topK >= 0 ==> |r| <= topK)
      && forall i :: 0 <= i < |r| ==>
           r[i].score == Some(1.0) && r[i].sources.None?
           && r[i].metadata.Keys == {"source_entity", "source_type", "relation", "target_entity", "target_type"}
           && exists row: Row :: row.relation in g.edges && row.source in g.nodes && row.target in g.nodes
                && row.source.id == row.relation.src && row.target.id == row.relation.dst
                && Admits(v, plan.template, plan.params, row) && r[i] == ResultOf(g.nodes, row)
                && r[i].id == ResultId(row) && r[i].metadata == ResultMetadata(row)
                && StartsWith(r[i].text, Arrow(row))
  {
    var r := RetrieveSpec(v, query, topK, filters, Ok(g));
    var plan := PlanFor(query, filters);
    if topK >= 0 && RunRefusal(RunKeywords(v, plan)).None? {
      var rows := LimitedRows(g, v, plan, topK);
      forall i | 0 <= i < |r|
        ensures r[i].score == Some(1.0) && r[i].sources.None?
        ensures r[i].metadata.Keys == {"source_entity", "source_type", "relation", "target_entity", "target_type"}
        ensures exists row: Row ::
                  row.relation in g.edges && row.source in g.nodes && row.target in g.nodes
                  && row.source.id == row.relation.src && row.target.id == row.relation.dst
                  && Admits(v, plan.template, plan.params, row) && r[i] == ResultOf(g.nodes, row)
                  && r[i].id == ResultId(row) && r[i].metadata == ResultMetadata(row)
                  && StartsWith(r[i].text, Arrow(row))
      {
        var row := rows[i];
        assert row in MatchRows(g, v, plan.template, plan.params, g.edges);
        assert r[i] == ResultOf(g.nodes, row);
        ResultOfFacts(g.nodes, row);
      }
    }
  }

  /**
   * With the corrected WHERE clause every result respects the filters: with a non-empty
   * `entity_types` list its source type is in the list, and with a non-empty
   * `relation_types` list its relation type is.
   */
  lemma RetrieveHonoursFilters(query: string, topK: int, filters: map<string, FilterValue>, db: Result<Graph>)
    ensures var r := RetrieveSpec(Corrected, query, topK, filters, db);
      forall i :: 0 <= i < |r| ==>
        (ListFilter(filters, "entity_types") != [] ==>
           r[i].metadata["source_type"] in ListFilter(filters, "entity_types"))
        && (ListFilter(filters, "relation_types") != [] ==>
              r[i].metadata["relation"] in ListFilter(filters, "relation_types"))
  {
    var r := RetrieveSpec(Corrected, query, topK, filters, db);
    if db.Ok? && topK >= 0 {
      var g := db.value;
      var plan := PlanFor(query, filters);
      PlanParams(query, filters);
      var rows := LimitedRows(g, Corrected, plan, topK);
      forall i | 0 <= i < |r|
        ensures ListFilter(filters, "entity_types") != [] ==>
          r[i].metadata["source_type"] in ListFilter(filters, "entity_types")
        ensures ListFilter(filters, "relation_types") != [] ==>
          r[i].metadata["relation"] in ListFilter(filters, "relation_types")
      {
        var row := rows[i];
        assert row in MatchRows(g, Corrected, plan.template, plan.params, g.edges);
        assert FiltersHold(plan.params, row);
        RowHonoursFilters(g.nodes, row, plan.params, filters);
      }
    }
  }

  /** The result of a row that meets the bound filter parameters meets the filters. */
  lemma RowHonoursFilters(ns: seq<Node>, row: Row, params: map<string, Param>, filters: map<string, FilterValue>)
    requires FiltersHold(params, row)
    requires ListFilter(filters, "entity_types") != [] ==>
               "entityTypes" in params && params["entityTypes"] == ListParam(ListFilter(filters, "entity_types"))
    requires ListFilter(filters, "relation_types") != [] ==>
               "relationTypes" in params && params["relationTypes"] == ListParam(ListFilter(filters, "relation_types"))
    ensures ListFilter(filters, "entity_types") != [] ==>
              ResultOf(ns, row).metadata["source_type"] in ListFilter(filters, "entity_types")
    ensures ListFilter(filters, "relation_types") != [] ==>
              ResultOf(ns, row).metadata["relation"] in ListFilter(filters, "relation_types")
  {
    ResultOfFacts(ns, row);
  }

  /**
   * When `top_k` covers every edge and the run is not refused, every edge between two nodes
   * of a graph with unique node ids whose row the WHERE clause admits yields its result.
   */
  lemma RetrieveComplete(v: Version, query: string, topK: int, filters: map<string, FilterValue>, g: Graph, row: Row)
    requires v == Corrected || Classify(query) != DefaultTemplate
    requires UniqueNodeIds(g.nodes) && topK >= |g.edges|
    requires row.relation in g.edges && row.source in g.nodes && row.target in g.nodes
    requires row.source.id == row.relation.src && row.target.id == row.relation.dst
    requires Admits(v, PlanFor(query, filters).template, PlanFor(query, filters).params, row)
    ensures ResultOf(g.nodes, row) in RetrieveSpec(v, query, topK, filters, Ok(g))
  {
    var plan := PlanFor(query, filters);
    RunRefusedExactly(v, query, filters);
    var all := MatchRows(g, v, plan.template, plan.params, g.edges);
    MatchRowsComplete(g, v, plan.template, plan.params, g.edges, row);
    MatchRowsLength(g, v, plan.template, plan.params, g.edges);
    var rows := LimitedRows(g, v, plan, topK);
    assert rows == all;
    var i :| 0 <= i < |rows| && rows[i] == row;
    assert RetrieveSpec(v, query, topK, filters, Ok(g))[i] == ResultOf(g.nodes, row);
  }

  /**
   * As written, an `implements` edge whose source type is outside a non-empty
   * `entity_types` filter is still returned; the corrected retrieve leaves it out.
   */
  lemma FilterBypassedAsWritten(query: string, topK: int, filters: map<string, FilterValue>, g: Graph, row: Row)
    requires UniqueNodeIds(g.nodes) && topK >= |g.edges|
    requires row.relation in g.edges && row.source in g.nodes && row.target in g.nodes
    requires row.source.id == row.relation.src && row.target.id == row.relation.dst
    requires Classify(query) == ImplementsTemplate && row.relation.relationType == "implements"
    requires ListFilter(filters, "entity_types") != [] && row.source.entityType !in ListFilter(filters, "entity_types")
    ensures ResultOf(g.nodes, row) in RetrieveSpec(AsWritten, query, topK, filters, Ok(g))
    ensures ResultOf(g.nodes, row) !in RetrieveSpec(Corrected, query, topK, filters, Ok(g))
  {
    ImplementsAdmittedAsWritten(query, filters, row);
    RetrieveComplete(AsWritten, query, topK, filters, g, row);
    SourceTypeExcluded(query, topK, filters, g, row);
  }

  /** As written, the implements template lets every "implements" relationship through its first alternative. */
  lemma ImplementsAdmittedAsWritten(query: string, filters: map<string, FilterValue>, row: Row)
    requires Classify(query) == ImplementsTemplate && row.relation.relationType == "implements"
    ensures Admits(AsWritten, PlanFor(query, filters).template, PlanFor(query, filters).params, row)
  {
    var plan := PlanFor(query, filters);
    assert plan.template == ImplementsTemplate;
    assert Alternatives(plan.template, plan.params, row).0;
  }

  /** A row whose source type lies outside a non-empty entity_types filter never yields a corrected result. */
  lemma SourceTypeExcluded(query: string, topK: int, filters: map<string, FilterValue>, g: Graph, row: Row)
    requires ListFilter(filters, "entity_types") != []
    requires row.source.entityType !in ListFilter(filters, "entity_types")
    ensures ResultOf(g.nodes, row) !in RetrieveSpec(Corrected, query, topK, filters, Ok(g))
  {
    var result := ResultOf(g.nodes, row);
    assert result.metadata == ResultMetadata(row);
    RetrieveHonoursFilters(query, topK, filters, Ok(g));
    var r := RetrieveSpec(Corrected, query, topK, filters, Ok(g));
    forall i | 0 <= i < |r| ensures r[i] != result {
      assert r[i].metadata["source_type"] in ListFilter(filters, "entity_types");
    }
  }

  lemma {:induction false} MatchRowsLength(g: Graph, v: Version, t: Template, params: map<string, Param>, edges: seq<Edge>)
    ensures |MatchRows(g, v, t, params, edges)| <= |edges|
  {
    if edges != [] {
      MatchRowsLength(g, v, t, params, edges[1..]);
    }
  }
}
