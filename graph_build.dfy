/** What `build_graph_from_db` constructs from the rows of the `products` and
    `product_relationships` tables, stated as a function of those rows. */
module GraphBuild {
  import opened Wrappers
  import opened GraphModel

  /** A row of `products LEFT JOIN enriched_products`; NULL is `None`. */
  datatype ProductRow = ProductRow(
    id: int,
    sku: string,
    rawTitle: string,
    category: Option<string>,
    brand: Option<string>,
    price: Option<real>,
    enrichedTitle: Option<string>,
    semanticTags: seq<string>)

  /** A row of `product_relationships`. */
  datatype RelationshipRow = RelationshipRow(
    source: int,
    target: int,
    relationshipType: string,
    similarityScore: real,
    reasoning: string)

  /** The tables the graph is read from. */
  datatype Database = Database(products: seq<ProductRow>, relationships: seq<RelationshipRow>)

  /** Python truthiness of an optional string: present and non-empty. */
  predicate Truthy(o: Option<string>) {
    o.Some? && o.value != ""
  }

  /** `enriched_title or raw_title`. */
  function DisplayTitle(p: ProductRow): string {
    if Truthy(p.enrichedTitle) then p.enrichedTitle.value else p.rawTitle
  }

  function ProductRecord(p: ProductRow): NodeRecord {
    ProductNode(p.sku, DisplayTitle(p), p.category, p.brand, p.price, p.semanticTags)
  }

  function RelationshipAttrs(r: RelationshipRow): EdgeAttrs {
    EdgeAttrs(Some(r.relationshipType), Some(r.similarityScore), Some(r.reasoning))
  }

  /** The two kinds of node a product points at: its category (edge
      BELONGS_TO) and its brand (edge MADE_BY). */
  datatype Anchor = CategoryAnchor | BrandAnchor

  function AnchorName(p: ProductRow, a: Anchor): Option<string> {
    match a
    case CategoryAnchor => p.category
    case BrandAnchor => p.brand
  }

  function AnchorId(name: string, a: Anchor): NodeId {
    match a
    case CategoryAnchor => CategoryId(name)
    case BrandAnchor => BrandId(name)
  }

  function AnchorRecord(name: string, a: Anchor): NodeRecord {
    match a
    case CategoryAnchor => CategoryNode(name)
    case BrandAnchor => BrandNode(name)
  }

  /** A BELONGS_TO or MADE_BY edge carries its type and nothing else. */
  function AnchorAttrs(a: Anchor): EdgeAttrs {
    match a
    case CategoryAnchor => EdgeAttrs(Some("BELONGS_TO"), None, None)
    case BrandAnchor => EdgeAttrs(Some("MADE_BY"), None, None)
  }

  function OtherAnchor(a: Anchor): Anchor {
    match a
    case CategoryAnchor => BrandAnchor
    case BrandAnchor => CategoryAnchor
  }

  // ---------------------------------------------------------------------
  // The passes, each a left-to-right fold over its rows
  // ---------------------------------------------------------------------

  function AddProductNodes(g: Graph, ps: seq<ProductRow>): Graph
    decreases |ps|
  {
    if ps == [] then g
    else
      var p := ps[|ps| - 1];
      AddNode(AddProductNodes(g, ps[..|ps| - 1]), IntId(p.id), ProductRecord(p))
  }

  /** The category (or brand) node pass. The source reads the distinct
      non-NULL values of the column; folding over every product row adds the
      same nodes, since a repeated value replaces its node by an equal one. */
  function AddAnchorNodes(g: Graph, ps: seq<ProductRow>, a: Anchor): Graph
    decreases |ps|
  {
    if ps == [] then g
    else
      var p := ps[|ps| - 1];
      var q := AddAnchorNodes(g, ps[..|ps| - 1], a);
      var name := AnchorName(p, a);
      if Truthy(name) then AddNode(q, AnchorId(name.value, a), AnchorRecord(name.value, a)) else q
  }

  function AddRelationshipEdges(g: Graph, rs: seq<RelationshipRow>): Graph
    decreases |rs|
  {
    if rs == [] then g
    else
      var r := rs[|rs| - 1];
      AddEdge(AddRelationshipEdges(g, rs[..|rs| - 1]), IntId(r.source), IntId(r.target), RelationshipAttrs(r))
  }

  /** The BELONGS_TO (or MADE_BY) edge pass. */
  function AddAnchorEdges(g: Graph, ps: seq<ProductRow>, a: Anchor): Graph
    decreases |ps|
  {
    if ps == [] then g
    else
      var p := ps[|ps| - 1];
      var q := AddAnchorEdges(g, ps[..|ps| - 1], a);
      var name := AnchorName(p, a);
      if Truthy(name) then AddEdge(q, IntId(p.id), AnchorId(name.value, a), AnchorAttrs(a)) else q
  }

  /** The graph after the three node passes. */
  function NodeStage(db: Database): Graph {
    var ps := db.products;
    AddAnchorNodes(AddAnchorNodes(AddProductNodes(EmptyGraph, ps), ps, CategoryAnchor), ps, BrandAnchor)
  }

  /** The graph after `build_graph_from_db`: it starts from an empty graph, so
      it is a function of the rows alone. */
  function BuildGraph(db: Database): Graph {
    var ps := db.products;
    var withRelationships := AddRelationshipEdges(NodeStage(db), db.relationships);
    AddAnchorEdges(AddAnchorEdges(withRelationships, ps, CategoryAnchor), ps, BrandAnchor)
  }

  // ---------------------------------------------------------------------
  // Key sets
  // ---------------------------------------------------------------------

  function ProductIds(ps: seq<ProductRow>): set<NodeId> {
    set p | p in ps :: IntId(p.id)
  }

  function SourceIds(rs: seq<RelationshipRow>): set<NodeId> {
    set r | r in rs :: IntId(r.source)
  }

  function TargetIds(rs: seq<RelationshipRow>): set<NodeId> {
    set r | r in rs :: IntId(r.target)
  }

  function EndpointIds(rs: seq<RelationshipRow>): set<NodeId> {
    SourceIds(rs) + TargetIds(rs)
  }

  function AnchorIds(ps: seq<ProductRow>, a: Anchor): set<NodeId> {
    set p | p in ps && Truthy(AnchorName(p, a)) :: AnchorId(AnchorName(p, a).value, a)
  }

  function RelationshipPairs(rs: seq<RelationshipRow>): set<(NodeId, NodeId)> {
    set r | r in rs :: (IntId(r.source), IntId(r.target))
  }

  function AnchorPairs(ps: seq<ProductRow>, a: Anchor): set<(NodeId, NodeId)> {
    set p | p in ps && Truthy(AnchorName(p, a)) :: (IntId(p.id), AnchorId(AnchorName(p, a).value, a))
  }

  /** Row `i` is the last row for its product id. */
  ghost predicate LastWithId(ps: seq<ProductRow>, i: int) {
    0 <= i < |ps| && forall j | i < j < |ps| :: ps[j].id != ps[i].id
  }

  /** Row `i` is the last relationship row for its (source, target) pair. */
  ghost predicate LastForPair(rs: seq<RelationshipRow>, i: int) {
    0 <= i < |rs| && forall j | i < j < |rs| :: (rs[j].source, rs[j].target) != (rs[i].source, rs[i].target)
  }

  lemma Members<T>(s: seq<T>)
    requires s != []
    ensures forall x :: x in s <==> x in s[..|s| - 1] || x == s[|s| - 1]
  {
    assert s == s[..|s| - 1] + [s[|s| - 1]];
  }

  lemma AnchorIdInjective(x: string, y: string, a: Anchor)
    ensures AnchorId(x, a) == AnchorId(y, a) <==> x == y
  {
    match a
    case CategoryAnchor => CategoryIdInjective(x, y);
    case BrandAnchor => BrandIdInjective(x, y);
  }

  /** The key of a category never is the key of a brand. */
  lemma AnchorIdsDistinct(x: string, y: string, a: Anchor)
    ensures AnchorId(x, a) != AnchorId(y, OtherAnchor(a))
  {
    match a
    case CategoryAnchor => CategoryIsNotBrand(x, y);
    case BrandAnchor => CategoryIsNotBrand(y, x);
  }

  /** An anchor key is in the key set of its kind exactly when some row names
      it, and never in the key set of the other kind. */
  lemma AnchorIdsMembership(ps: seq<ProductRow>, name: string, a: Anchor)
    ensures AnchorId(name, a) in AnchorIds(ps, a) <==>
      exists p :: p in ps && AnchorName(p, a) == Some(name) && name != ""
    ensures AnchorId(name, a) !in AnchorIds(ps, OtherAnchor(a))
  {
    var id := AnchorId(name, a);
    if id in AnchorIds(ps, a) {
      var p :| p in ps && Truthy(AnchorName(p, a)) && id == AnchorId(AnchorName(p, a).value, a);
      AnchorIdInjective(name, AnchorName(p, a).value, a);
    }
    if exists p :: p in ps && AnchorName(p, a) == Some(name) && name != "" {
      var p :| p in ps && AnchorName(p, a) == Some(name) && name != "";
      assert id == AnchorId(AnchorName(p, a).value, a);
    }
    if id in AnchorIds(ps, OtherAnchor(a)) {
      var o := OtherAnchor(a);
      var p :| p in ps && Truthy(AnchorName(p, o)) && id == AnchorId(AnchorName(p, o).value, o);
      AnchorIdsDistinct(name, AnchorName(p, o).value, a);
    }
  }

  /** The pairs of one kind of anchor edge share no key with the other kind. */
  lemma AnchorPairsDistinct(ps: seq<ProductRow>, e: (NodeId, NodeId), a: Anchor)
    requires e in AnchorPairs(ps, a)
    ensures e !in AnchorPairs(ps, OtherAnchor(a)) && e.1.StrId?
  {
    var p :| p in ps && Truthy(AnchorName(p, a)) && e == (IntId(p.id), AnchorId(AnchorName(p, a).value, a));
    AnchorIdsMembership(ps, AnchorName(p, a).value, a);
  }

  // ---------------------------------------------------------------------
  // The passes, one lemma each for keys and one for values
  // ---------------------------------------------------------------------

  lemma {:induction false} ProductNodesPass(g: Graph, ps: seq<ProductRow>)
    ensures var r := AddProductNodes(g, ps);
      && r.edges == g.edges
      && r.nodes.Keys == g.nodes.Keys + ProductIds(ps)
    decreases |ps|
  {
    if ps != [] {
      var init := ps[..|ps| - 1];
      ProductNodesPass(g, init);
      Members(ps);
      assert ProductIds(ps) == ProductIds(init) + {IntId(ps[|ps| - 1].id)};
    }
  }

  /** The node of a product id carries the attributes of the last row with that id. */
  lemma {:induction false} ProductNodesRecord(g: Graph, ps: seq<ProductRow>, i: int)
    requires LastWithId(ps, i)
    ensures var r := AddProductNodes(g, ps);
      IntId(ps[i].id) in r.nodes && r.nodes[IntId(ps[i].id)] == ProductRecord(ps[i])
    decreases |ps|
  {
    if i < |ps| - 1 {
      var init := ps[..|ps| - 1];
      assert LastWithId(init, i);
      ProductNodesRecord(g, init, i);
    }
  }

  lemma {:induction false} AnchorNodesPass(g: Graph, ps: seq<ProductRow>, a: Anchor)
    ensures var r := AddAnchorNodes(g, ps, a);
      && r.edges == g.edges
      && r.nodes.Keys == g.nodes.Keys + AnchorIds(ps, a)
    decreases |ps|
  {
    if ps != [] {
      var init := ps[..|ps| - 1];
      var name := AnchorName(ps[|ps| - 1], a);
      AnchorNodesPass(g, init, a);
      Members(ps);
      if Truthy(name) {
        assert AnchorIds(ps, a) == AnchorIds(init, a) + {AnchorId(name.value, a)};
      } else {
        assert AnchorIds(ps, a) == AnchorIds(init, a);
      }
    }
  }

  /** Nodes whose key no row names keep their attributes. */
  lemma {:induction false} AnchorNodesFrame(g: Graph, ps: seq<ProductRow>, a: Anchor, n: NodeId)
    requires n in g.nodes && n !in AnchorIds(ps, a)
    ensures var r := AddAnchorNodes(g, ps, a); n in r.nodes && r.nodes[n] == g.nodes[n]
    decreases |ps|
  {
    if ps != [] {
      var init := ps[..|ps| - 1];
      Members(ps);
      assert AnchorIds(init, a) <= AnchorIds(ps, a);
      AnchorNodesFrame(g, init, a, n);
    }
  }

  /** A named category (or brand) has a node of its kind carrying its name. */
  lemma {:induction false} AnchorNodesRecord(g: Graph, ps: seq<ProductRow>, a: Anchor, name: string)
    requires AnchorId(name, a) in AnchorIds(ps, a)
    ensures var r := AddAnchorNodes(g, ps, a);
      AnchorId(name, a) in r.nodes && r.nodes[AnchorId(name, a)] == AnchorRecord(name, a)
    decreases |ps|
  {
    var id := AnchorId(name, a);
    var p :| p in ps && Truthy(AnchorName(p, a)) && id == AnchorId(AnchorName(p, a).value, a);
    var init := ps[..|ps| - 1];
    var last := AnchorName(ps[|ps| - 1], a);
    Members(ps);
    if Truthy(last) && last.value == name {
    } else {
      assert id in AnchorIds(init, a) by {
        if Truthy(last) {
          AnchorIdInjective(name, last.value, a);
        }
        assert p != ps[|ps| - 1] by {
          AnchorIdInjective(name, AnchorName(p, a).value, a);
        }
      }
      AnchorNodesRecord(g, init, a, name);
      if Truthy(last) {
        AnchorIdInjective(name, last.value, a);
      }
    }
  }

  lemma {:induction false} RelationshipNodesPass(g: Graph, rs: seq<RelationshipRow>)
    ensures AddRelationshipEdges(g, rs).nodes.Keys == g.nodes.Keys + EndpointIds(rs)
    decreases |rs|
  {
    if rs != [] {
      var init := rs[..|rs| - 1];
      var last := rs[|rs| - 1];
      RelationshipNodesPass(g, init);
      Members(rs);
      assert SourceIds(rs) == SourceIds(init) + {IntId(last.source)};
      assert TargetIds(rs) == TargetIds(init) + {IntId(last.target)};
    }
  }

  /** Nodes that were there before keep their attributes; nodes the pass
      creates have none. */
  lemma {:induction false} RelationshipNodesValue(g: Graph, rs: seq<RelationshipRow>, n: NodeId)
    requires n in AddRelationshipEdges(g, rs).nodes
    ensures var r := AddRelationshipEdges(g, rs);
      && (n in g.nodes ==> r.nodes[n] == g.nodes[n])
      && (n !in g.nodes ==> r.nodes[n] == Untyped)
    decreases |rs|
  {
    if rs != [] {
      var init := rs[..|rs| - 1];
      var q := AddRelationshipEdges(g, init);
      if n in q.nodes {
        RelationshipNodesValue(g, init, n);
      } else {
        RelationshipNodesPass(g, init);
      }
    }
  }

  lemma {:induction false} RelationshipEdgesPass(g: Graph, rs: seq<RelationshipRow>)
    ensures var r := AddRelationshipEdges(g, rs);
      && r.edges.Keys == g.edges.Keys + RelationshipPairs(rs)
      && (forall e | e in g.edges && e !in RelationshipPairs(rs) :: r.edges[e] == g.edges[e])
    decreases |rs|
  {
    if rs != [] {
      var init := rs[..|rs| - 1];
      var last := rs[|rs| - 1];
      RelationshipEdgesPass(g, init);
      Members(rs);
      assert RelationshipPairs(rs) == RelationshipPairs(init) + {(IntId(last.source), IntId(last.target))};
    }
  }

  /** A later row for the same ordered pair overwrites the type, score and
      reasoning of an earlier one: the edge carries the last row's values. */
  lemma {:induction false} RelationshipEdgesLastRowWins(g: Graph, rs: seq<RelationshipRow>, i: int)
    requires LastForPair(rs, i)
    ensures var e := (IntId(rs[i].source), IntId(rs[i].target));
      e in AddRelationshipEdges(g, rs).edges && AddRelationshipEdges(g, rs).edges[e] == RelationshipAttrs(rs[i])
    decreases |rs|
  {
    if i < |rs| - 1 {
      var init := rs[..|rs| - 1];
      assert LastForPair(init, i);
      RelationshipEdgesLastRowWins(g, init, i);
    }
  }

  lemma {:induction false} AnchorEdgesPass(g: Graph, ps: seq<ProductRow>, a: Anchor)
    ensures AddAnchorEdges(g, ps, a).edges.Keys == g.edges.Keys + AnchorPairs(ps, a)
    decreases |ps|
  {
    if ps != [] {
      var init := ps[..|ps| - 1];
      var last := ps[|ps| - 1];
      var name := AnchorName(last, a);
      Members(ps);
      AnchorEdgesPass(g, init, a);
      if Truthy(name) {
        assert AnchorPairs(ps, a) == AnchorPairs(init, a) + {(IntId(last.id), AnchorId(name.value, a))};
      } else {
        assert AnchorPairs(ps, a) == AnchorPairs(init, a);
      }
    }
  }

  /** When the products and their anchors are nodes already, the pass adds no node. */
  lemma {:induction false} AnchorEdgesNodes(g: Graph, ps: seq<ProductRow>, a: Anchor)
    requires ProductIds(ps) + AnchorIds(ps, a) <= g.nodes.Keys
    ensures AddAnchorEdges(g, ps, a).nodes == g.nodes
    decreases |ps|
  {
    if ps != [] {
      var init := ps[..|ps| - 1];
      var last := ps[|ps| - 1];
      Members(ps);
      assert ProductIds(init) <= ProductIds(ps);
      assert AnchorIds(init, a) <= AnchorIds(ps, a);
      AnchorEdgesNodes(g, init, a);
      if Truthy(AnchorName(last, a)) {
        assert IntId(last.id) in ProductIds(ps);
        assert AnchorId(AnchorName(last, a).value, a) in AnchorIds(ps, a);
      }
    }
  }

  /** Edges of any other pair keep their attributes. */
  lemma {:induction false} AnchorEdgesFrame(g: Graph, ps: seq<ProductRow>, a: Anchor, e: (NodeId, NodeId))
    requires e in g.edges && e !in AnchorPairs(ps, a)
    ensures var r := AddAnchorEdges(g, ps, a); e in r.edges && r.edges[e] == g.edges[e]
    decreases |ps|
  {
    if ps != [] {
      var init := ps[..|ps| - 1];
      Members(ps);
      assert AnchorPairs(init, a) <= AnchorPairs(ps, a);
      AnchorEdgesFrame(g, init, a, e);
    }
  }

  /** An anchor edge that was not in the graph before the pass carries only
      its type, however many rows name it. */
  lemma {:induction false} AnchorEdgesRecord(g: Graph, ps: seq<ProductRow>, a: Anchor, e: (NodeId, NodeId))
    requires e in AnchorPairs(ps, a) && e !in g.edges
    ensures var r := AddAnchorEdges(g, ps, a); e in r.edges && r.edges[e] == AnchorAttrs(a)
    decreases |ps|
  {
    var p :| p in ps && Truthy(AnchorName(p, a)) && e == (IntId(p.id), AnchorId(AnchorName(p, a).value, a));
    var init := ps[..|ps| - 1];
    var q := AddAnchorEdges(g, init, a);
    Members(ps);
    if e in AnchorPairs(init, a) {
      AnchorEdgesRecord(g, init, a, e);
    } else {
      AnchorEdgesAbsent(g, init, a, e);
      assert ps[|ps| - 1] == p;
    }
  }

  /** Before its first row, an anchor edge is missing. */
  lemma {:induction false} AnchorEdgesAbsent(g: Graph, ps: seq<ProductRow>, a: Anchor, e: (NodeId, NodeId))
    requires e !in g.edges && e !in AnchorPairs(ps, a)
    ensures e !in AddAnchorEdges(g, ps, a).edges
    decreases |ps|
  {
    if ps != [] {
      var init := ps[..|ps| - 1];
      Members(ps);
      assert AnchorPairs(init, a) <= AnchorPairs(ps, a);
      AnchorEdgesAbsent(g, init, a, e);
    }
  }
}

module GraphBuildFacts {
  import opened Wrappers
  import opened GraphModel
  import opened GraphBuild

  lemma NodeStageShape(db: Database)
    ensures var g := NodeStage(db);
      && g.edges == map[]
      && g.nodes.Keys == ProductIds(db.products)
                         + AnchorIds(db.products, CategoryAnchor) + AnchorIds(db.products, BrandAnchor)
  {
    var ps := db.products;
    var g1 := AddProductNodes(EmptyGraph, ps);
    var g2 := AddAnchorNodes(g1, ps, CategoryAnchor);
    ProductNodesPass(EmptyGraph, ps);
    AnchorNodesPass(g1, ps, CategoryAnchor);
    AnchorNodesPass(g2, ps, BrandAnchor);
  }

  /** The graph after the relationship pass. */
  function RelationshipStage(db: Database): Graph {
    AddRelationshipEdges(NodeStage(db), db.relationships)
  }

  /** The two anchor edge passes add no node: the relationship stage holds
      the nodes of the built graph already. */
  lemma EdgePassesNodes(db: Database)
    ensures RelationshipStage(db).nodes.Keys == NodeStage(db).nodes.Keys + EndpointIds(db.relationships)
    ensures BuildGraph(db).nodes == RelationshipStage(db).nodes
  {
    var ps := db.products;
    var g4 := RelationshipStage(db);
    var g5 := AddAnchorEdges(g4, ps, CategoryAnchor);
    NodeStageShape(db);
    RelationshipNodesPass(NodeStage(db), db.relationships);
    AnchorEdgesNodes(g4, ps, CategoryAnchor);
    AnchorEdgesNodes(g5, ps, BrandAnchor);
  }

  lemma BuildGraphNodes(db: Database)
    ensures BuildGraph(db).nodes.Keys == ProductIds(db.products) + EndpointIds(db.relationships)
      + AnchorIds(db.products, CategoryAnchor) + AnchorIds(db.products, BrandAnchor)
  {
    NodeStageShape(db);
    EdgePassesNodes(db);
  }

  lemma BuildGraphEdges(db: Database)
    ensures BuildGraph(db).edges.Keys == RelationshipPairs(db.relationships)
      + AnchorPairs(db.products, CategoryAnchor) + AnchorPairs(db.products, BrandAnchor)
  {
    var ps := db.products;
    var g4 := RelationshipStage(db);
    NodeStageShape(db);
    RelationshipEdgesPass(NodeStage(db), db.relationships);
    AnchorEdgesPass(g4, ps, CategoryAnchor);
    AnchorEdgesPass(AddAnchorEdges(g4, ps, CategoryAnchor), ps, BrandAnchor);
  }

  lemma BuildGraphWellFormed(db: Database)
    ensures WellFormed(BuildGraph(db))
  {
    var ps, rs := db.products, db.relationships;
    var g := BuildGraph(db);
    BuildGraphNodes(db);
    BuildGraphEdges(db);
    forall e | e in g.edges
      ensures e.0 in g.nodes && e.1 in g.nodes
    {
      if e in RelationshipPairs(rs) {
        var r :| r in rs && e == (IntId(r.source), IntId(r.target));
        assert e.0 in SourceIds(rs) && e.1 in TargetIds(rs);
      } else {
        var a := if e in AnchorPairs(ps, CategoryAnchor) then CategoryAnchor else BrandAnchor;
        var p :| p in ps && Truthy(AnchorName(p, a)) && e == (IntId(p.id), AnchorId(AnchorName(p, a).value, a));
        assert e.0 in ProductIds(ps) && e.1 in AnchorIds(ps, a);
      }
    }
  }

  /** The graph built from `db`: every edge joins two of its nodes, its nodes
      are the product ids, the relationship endpoints, the category keys and
      the brand keys, and its edges are the relationship pairs, the
      BELONGS_TO pairs and the MADE_BY pairs. */
  lemma BuildGraphShape(db: Database)
    ensures var g := BuildGraph(db);
      && WellFormed(g)
      && g.nodes.Keys == ProductIds(db.products) + EndpointIds(db.relationships)
                         + AnchorIds(db.products, CategoryAnchor) + AnchorIds(db.products, BrandAnchor)
      && g.edges.Keys == RelationshipPairs(db.relationships)
                         + AnchorPairs(db.products, CategoryAnchor) + AnchorPairs(db.products, BrandAnchor)
  {
    BuildGraphNodes(db);
    BuildGraphEdges(db);
    BuildGraphWellFormed(db);
  }

  /** The edge passes leave every node of the node stage as it was. */
  lemma BuildKeepsStageNode(db: Database, n: NodeId)
    requires n in NodeStage(db).nodes
    ensures n in BuildGraph(db).nodes && BuildGraph(db).nodes[n] == NodeStage(db).nodes[n]
  {
    EdgePassesNodes(db);
    RelationshipNodesValue(NodeStage(db), db.relationships, n);
  }

  /** A product node carries the attributes of the last row with its id:
      its title is the enriched title when there is one, else the raw title. */
  lemma BuildProductNode(db: Database, i: int)
    requires LastWithId(db.products, i)
    ensures var g := BuildGraph(db);
      IntId(db.products[i].id) in g.nodes && g.nodes[IntId(db.products[i].id)] == ProductRecord(db.products[i])
  {
    var ps := db.products;
    var g1 := AddProductNodes(EmptyGraph, ps);
    var g2 := AddAnchorNodes(g1, ps, CategoryAnchor);
    var n := IntId(ps[i].id);
    ProductNodesRecord(EmptyGraph, ps, i);
    AnchorNodesFrame(g1, ps, CategoryAnchor, n);
    AnchorNodesFrame(g2, ps, BrandAnchor, n);
    BuildKeepsStageNode(db, n);
  }

  /** A category node `"category_" + c` (a brand node `"brand_" + b`) exists
      exactly when some product row has that non-empty category (brand), and
      it is a node of that kind carrying the name. */
  lemma BuildAnchorNode(db: Database, name: string, a: Anchor)
    ensures var g := BuildGraph(db);
      && (AnchorId(name, a) in g.nodes <==> exists p :: p in db.products && AnchorName(p, a) == Some(name) && name != "")
      && (AnchorId(name, a) in g.nodes ==> g.nodes[AnchorId(name, a)] == AnchorRecord(name, a))
  {
    var ps := db.products;
    var id := AnchorId(name, a);
    BuildGraphNodes(db);
    AnchorIdsMembership(ps, name, a);
    assert id.StrId?;
    if id in AnchorIds(ps, a) {
      var g1 := AddProductNodes(EmptyGraph, ps);
      var g2 := AddAnchorNodes(g1, ps, CategoryAnchor);
      if a == CategoryAnchor {
        AnchorNodesRecord(g1, ps, CategoryAnchor, name);
        AnchorNodesFrame(g2, ps, BrandAnchor, id);
      } else {
        AnchorNodesRecord(g2, ps, BrandAnchor, name);
      }
      BuildKeepsStageNode(db, id);
    }
  }

  /** A relationship endpoint that is no product id becomes an attribute-less node. */
  lemma BuildUntypedNode(db: Database, n: NodeId)
    requires n in EndpointIds(db.relationships) && n !in ProductIds(db.products)
    ensures var g := BuildGraph(db); n in g.nodes && g.nodes[n] == Untyped
  {
    var ps := db.products;
    NodeStageShape(db);
    EdgePassesNodes(db);
    assert n.IntId?;
    assert n !in AnchorIds(ps, CategoryAnchor) && n !in AnchorIds(ps, BrandAnchor);
    RelationshipNodesValue(NodeStage(db), db.relationships, n);
  }

  /** The graph has an edge from product `s` to product `t` carrying the type,
      score and reasoning of the last relationship row for that ordered pair. */
  lemma BuildRelationshipEdge(db: Database, i: int)
    requires LastForPair(db.relationships, i)
    ensures var g := BuildGraph(db);
      var e := (IntId(db.relationships[i].source), IntId(db.relationships[i].target));
      e in g.edges && g.edges[e] == RelationshipAttrs(db.relationships[i])
  {
    var ps, rs := db.products, db.relationships;
    var g4 := RelationshipStage(db);
    var e := (IntId(rs[i].source), IntId(rs[i].target));
    RelationshipEdgesLastRowWins(NodeStage(db), rs, i);
    assert e !in AnchorPairs(ps, CategoryAnchor) && e !in AnchorPairs(ps, BrandAnchor);
    AnchorEdgesFrame(g4, ps, CategoryAnchor, e);
    AnchorEdgesFrame(AddAnchorEdges(g4, ps, CategoryAnchor), ps, BrandAnchor, e);
  }

  /** Product-to-product edges are exactly the pairs of the relationship rows. */
  lemma BuildProductEdges(db: Database, s: int, t: int)
    ensures (IntId(s), IntId(t)) in BuildGraph(db).edges <==>
      exists r :: r in db.relationships && r.source == s && r.target == t
  {
    BuildGraphEdges(db);
    var e := (IntId(s), IntId(t));
    assert e !in AnchorPairs(db.products, CategoryAnchor) && e !in AnchorPairs(db.products, BrandAnchor);
    if exists r :: r in db.relationships && r.source == s && r.target == t {
      var r :| r in db.relationships && r.source == s && r.target == t;
      assert e in RelationshipPairs(db.relationships);
    }
  }

  /** Each product with a non-empty category has a BELONGS_TO edge to its
      category node, each with a non-empty brand a MADE_BY edge to its brand
      node; neither edge has a score or a reasoning. */
  lemma BuildAnchorEdge(db: Database, p: ProductRow, a: Anchor)
    requires p in db.products && Truthy(AnchorName(p, a))
    ensures var g := BuildGraph(db);
      var e := (IntId(p.id), AnchorId(AnchorName(p, a).value, a));
      e in g.edges && g.edges[e] == AnchorAttrs(a)
  {
    var ps := db.products;
    var g4 := RelationshipStage(db);
    var g5 := AddAnchorEdges(g4, ps, CategoryAnchor);
    var e := (IntId(p.id), AnchorId(AnchorName(p, a).value, a));
    NodeStageShape(db);
    RelationshipEdgesPass(NodeStage(db), db.relationships);
    AnchorEdgesPass(g4, ps, CategoryAnchor);
    assert e in AnchorPairs(ps, a);
    AnchorPairsDistinct(ps, e, a);
    assert e !in g4.edges;
    if a == CategoryAnchor {
      AnchorEdgesRecord(g4, ps, CategoryAnchor, e);
      AnchorEdgesFrame(g5, ps, BrandAnchor, e);
    } else {
      AnchorEdgesRecord(g5, ps, BrandAnchor, e);
    }
  }
}
