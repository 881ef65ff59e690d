/** `KnowledgeGraphService`: the object that owns the in-memory graph,
    rebuilds it from the database rows, renders it, and runs relationship
    analysis over the whole catalog. */
module GraphService {
  import opened Wrappers
  import opened GraphModel
  import opened GraphBuild
  import opened GraphBuildFacts
  import opened Projection

  /** One relationship as the analysis returns it; the score and the
      reasoning may be missing. */
  datatype Judgment = Judgment(
    targetProductId: int,
    relationshipType: string,
    similarityScore: Option<real>,
    reasoning: Option<string>)

  /** What analysing one product gives: an exception, or the relationships found. */
  datatype AnalysisOutcome = Failed | Analyzed(relationships: seq<Judgment>)

  /** The dictionary `batch_analyze_all_products` returns. */
  datatype BatchSummary = BatchSummary(totalProducts: nat, processed: nat, totalRelationships: nat)

  /** The row stored for a judgment about product `source`: a missing score
      is stored as 0.5 and a missing reasoning as ''. */
  function StoredRow(source: int, j: Judgment): RelationshipRow {
    RelationshipRow(source, j.targetProductId, j.relationshipType,
                    j.similarityScore.GetOr(0.5), j.reasoning.GetOr(""))
  }

  /** Once a judgment is stored (as the newest row) and the graph rebuilt, the
      graph has the edge from the analysed product to the target, carrying
      the judgment's type, its score or 0.5, and its reasoning or ''. */
  lemma StoredJudgmentEdge(db: Database, source: int, j: Judgment)
    ensures var stored := db.(relationships := db.relationships + [StoredRow(source, j)]);
      var g := BuildGraph(stored);
      var e := (IntId(source), IntId(j.targetProductId));
      && e in g.edges
      && g.edges[e].relationshipType == Some(j.relationshipType)
      && g.edges[e].similarityScore == Some(if j.similarityScore.Some? then j.similarityScore.value else 0.5)
      && g.edges[e].reasoning == Some(if j.reasoning.Some? then j.reasoning.value else "")
  {
    var stored := db.(relationships := db.relationships + [StoredRow(source, j)]);
    BuildRelationshipEdge(stored, |db.relationships|);
  }

  /** The number of relationships an outcome contributes: none for a failure. */
  function Found(o: AnalysisOutcome): nat {
    match o
    case Failed => 0
    case Analyzed(rels) => |rels|
  }

  /** The relationships the analyses of `ids` return, added up. */
  function RelationshipsFound(ids: seq<int>, analyze: int -> AnalysisOutcome): nat
    decreases |ids|
  {
    if ids == [] then 0
    else RelationshipsFound(ids[..|ids| - 1], analyze) + Found(analyze(ids[|ids| - 1]))
  }

  lemma {:induction false} RelationshipsFoundAppend(a: seq<int>, b: seq<int>, analyze: int -> AnalysisOutcome)
    ensures RelationshipsFound(a + b, analyze) == RelationshipsFound(a, analyze) + RelationshipsFound(b, analyze)
    decreases |b|
  {
    if b != [] {
      var b' := b[..|b| - 1];
      assert (a + b)[..|a + b| - 1] == a + b';
      RelationshipsFoundAppend(a, b', analyze);
    } else {
      assert a + b == a;
    }
  }

  /** A failed analysis adds nothing, and the products after it still count. */
  lemma FailureAddsNothing(a: seq<int>, id: int, b: seq<int>, analyze: int -> AnalysisOutcome)
    requires analyze(id).Failed?
    ensures RelationshipsFound(a + [id] + b, analyze) == RelationshipsFound(a, analyze) + RelationshipsFound(b, analyze)
  {
    RelationshipsFoundAppend(a + [id], b, analyze);
    RelationshipsFoundAppend(a, [id], analyze);
    assert RelationshipsFound([id], analyze) == RelationshipsFound([], analyze) + Found(analyze(id)) by {
      assert [id][..0] == [];
    }
  }

  /** When every analysis fails, no relationship is counted. */
  lemma {:induction false} AllFailuresFindNothing(ids: seq<int>, analyze: int -> AnalysisOutcome)
    requires forall i | 0 <= i < |ids| :: analyze(ids[i]).Failed?
    ensures RelationshipsFound(ids, analyze) == 0
    decreases |ids|
  {
    if ids != [] {
      AllFailuresFindNothing(ids[..|ids| - 1], analyze);
    }
  }

  class KnowledgeGraphService {
    var nodes: map<NodeId, NodeRecord>
    var edges: map<(NodeId, NodeId), EdgeAttrs>

    function Current(): Graph
      reads this
    {
      Graph(nodes, edges)
    }

    /** Every edge joins two nodes, as in any networkx graph. */
    ghost predicate Valid()
      reads this
    {
      WellFormed(Current())
    }

    /** `nx.DiGraph()`. */
    constructor ()
      ensures Current() == EmptyGraph && Valid()
    {
      nodes := map[];
      edges := map[];
    }

    /** `graph.clear()`. */
    method Clear()
      modifies this
      ensures Current() == EmptyGraph && Valid()
    {
      nodes := map[];
      edges := map[];
    }

    /** `graph.add_node(id, **attrs)`. */
    method AddNode(id: NodeId, rec: NodeRecord)
      modifies this
      ensures Current() == GraphModel.AddNode(old(Current()), id, rec)
      ensures old(Valid()) ==> Valid()
    {
      nodes := nodes[id := rec];
    }

    /** `graph.add_edge(u, v, **attrs)`. */
    method AddEdge(u: NodeId, v: NodeId, attrs: EdgeAttrs)
      modifies this
      ensures Current() == GraphModel.AddEdge(old(Current()), u, v, attrs)
      ensures old(Valid()) ==> Valid()
    {
      if u !in nodes {
        nodes := nodes[u := Untyped];
      }
      if v !in nodes {
        nodes := nodes[v := Untyped];
      }
      if (u, v) in edges {
        edges := edges[(u, v) := UpdateAttrs(edges[(u, v)], attrs)];
      } else {
        edges := edges[(u, v) := attrs];
      }
    }

    /** The product node loop. */
    method AddProductNodeRows(ps: seq<ProductRow>)
      modifies this
      ensures Current() == AddProductNodes(old(Current()), ps)
    {
      ghost var start := Current();
      for i := 0 to |ps|
        invariant Current() == AddProductNodes(start, ps[..i])
      {
        assert ps[..i + 1][..i] == ps[..i];
        AddNode(IntId(ps[i].id), ProductRecord(ps[i]));
      }
      assert ps[..|ps|] == ps;
    }

    /** The category (or brand) node loop. */
    method AddAnchorNodeRows(ps: seq<ProductRow>, a: Anchor)
      modifies this
      ensures Current() == AddAnchorNodes(old(Current()), ps, a)
    {
      ghost var start := Current();
      for i := 0 to |ps|
        invariant Current() == AddAnchorNodes(start, ps[..i], a)
      {
        assert ps[..i + 1][..i] == ps[..i];
        var name := AnchorName(ps[i], a);
        if name.Some? && name.value != "" {
          AddNode(AnchorId(name.value, a), AnchorRecord(name.value, a));
        }
      }
      assert ps[..|ps|] == ps;
    }

    /** The relationship edge loop. */
    method AddRelationshipRows(rs: seq<RelationshipRow>)
      modifies this
      ensures Current() == AddRelationshipEdges(old(Current()), rs)
    {
      ghost var start := Current();
      for i := 0 to |rs|
        invariant Current() == AddRelationshipEdges(start, rs[..i])
      {
        assert rs[..i + 1][..i] == rs[..i];
        AddEdge(IntId(rs[i].source), IntId(rs[i].target), RelationshipAttrs(rs[i]));
      }
      assert rs[..|rs|] == rs;
    }

    /** The BELONGS_TO (or MADE_BY) edge loop. */
    method AddAnchorEdgeRows(ps: seq<ProductRow>, a: Anchor)
      modifies this
      ensures Current() == AddAnchorEdges(old(Current()), ps, a)
    {
      ghost var start := Current();
      for i := 0 to |ps|
        invariant Current() == AddAnchorEdges(start, ps[..i], a)
      {
        assert ps[..i + 1][..i] == ps[..i];
        var name := AnchorName(ps[i], a);
        if name.Some? && name.value != "" {
          AddEdge(IntId(ps[i].id), AnchorId(name.value, a), AnchorAttrs(a));
        }
      }
      assert ps[..|ps|] == ps;
    }

    /** `build_graph_from_db`: whatever the graph held before, afterwards it
        is the graph of the rows, so rebuilding from the same rows gives the
        same graph. */
    method BuildGraphFromDb(db: Database) returns (g: Graph)
      modifies this
      ensures Current() == BuildGraph(db) && g == Current()
      ensures Valid()
    {
      Clear();
      AddProductNodeRows(db.products);
      AddAnchorNodeRows(db.products, CategoryAnchor);
      AddAnchorNodeRows(db.products, BrandAnchor);
      AddRelationshipRows(db.relationships);
      AddAnchorEdgeRows(db.products, CategoryAnchor);
      AddAnchorEdgeRows(db.products, BrandAnchor);
      BuildGraphShape(db);
      g := Current();
    }

    /** `get_graph_visualization_data`: rebuilds the graph first when given
        the database, then renders the graph chosen for `productId`. */
    method GetGraphVisualizationData(productId: Option<int>, db: Option<Database>) returns (r: VisData)
      modifies this
      ensures db.Some? ==> Current() == BuildGraph(db.value)
      ensures db.None? ==> Current() == old(Current())
      ensures r == Visualize(Current(), productId)
      ensures old(Valid()) || db.Some? ==> Valid()
    {
      if db.Some? {
        var _ := BuildGraphFromDb(db.value);
      }
      r := Visualize(Current(), productId);
    }

    /** `batch_analyze_all_products`: every product is counted as processed,
        whether its analysis succeeds or fails, and only successful analyses
        add their relationships to the total. */
    method BatchAnalyzeAllProducts(productIds: seq<int>, analyze: int -> AnalysisOutcome)
      returns (s: BatchSummary)
      ensures s.totalProducts == |productIds| && s.processed == |productIds|
      ensures s.totalRelationships == RelationshipsFound(productIds, analyze)
    {
      var total := |productIds|;
      var processed := 0;
      var created := 0;
      for i := 0 to |productIds|
        invariant processed == i
        invariant created == RelationshipsFound(productIds[..i], analyze)
      {
        assert productIds[..i + 1][..i] == productIds[..i];
        match analyze(productIds[i])
        case Analyzed(rels) =>
          created := created + |rels|;
          processed := processed + 1;
        case Failed =>
          processed := processed + 1;
      }
      assert productIds[..|productIds|] == productIds;
      s := BatchSummary(total, processed, created);
    }
  }
}
