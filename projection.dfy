/** `get_graph_visualization_data`: the graph to show (the radius-2
    neighbourhood of a product in the undirected view of the graph, or the
    whole graph) and its rendering as node entries and link entries. */
module Projection {
  import opened Wrappers
  import opened Text
  import opened GraphModel

  // ---------------------------------------------------------------------
  // The ego graph
  // ---------------------------------------------------------------------

  /** `u` and `v` are joined in `to_undirected()`: an edge in either direction. */
  predicate Adjacent(g: Graph, u: NodeId, v: NodeId) {
    (u, v) in g.edges || (v, u) in g.edges
  }

  /** One level of breadth-first search: the nodes of `s` and their
      undirected neighbours. */
  function Expand(g: Graph, s: set<NodeId>): set<NodeId> {
    s + set v | v in g.nodes && exists u :: u in s && Adjacent(g, u, v)
  }

  /** The nodes breadth-first search from `c` reaches within `radius` levels. */
  function Ball(g: Graph, c: NodeId, radius: nat): set<NodeId> {
    if radius == 0 then {c} else Expand(g, Ball(g, c, radius - 1))
  }

  /** `v` is a node at undirected distance at most 2 from `c`. */
  ghost predicate WithinTwo(g: Graph, c: NodeId, v: NodeId) {
    && v in g.nodes
    && (|| v == c
        || Adjacent(g, c, v)
        || exists m :: m in g.nodes && Adjacent(g, c, m) && Adjacent(g, m, v))
  }

  /** The subgraph on the nodes of `s` with every edge between two of them. */
  function Induced(g: Graph, s: set<NodeId>): Graph {
    Graph(
      map n | n in g.nodes && n in s :: g.nodes[n],
      map e | e in g.edges && e.0 in s && e.1 in s :: g.edges[e])
  }

  /** `ego_graph(graph.to_undirected(), c, radius=2)`. */
  function EgoGraph(g: Graph, c: NodeId): Graph {
    Induced(g, Ball(g, c, 2))
  }

  /** The graph shown: with a truthy product id that is a node, its ego
      graph; with no id, id 0, or an id that is not a node (the `except`
      branch), the whole graph. */
  function ChosenGraph(g: Graph, productId: Option<int>): Graph {
    if productId.Some? && productId.value != 0 && IntId(productId.value) in g.nodes then
      EgoGraph(g, IntId(productId.value))
    else g
  }

  /** The choice as the source writes it: for a truthy product id that is not
      a node, `ego_graph` raises `NodeNotFound`, which is not a
      `NetworkXError`, so the `except` clause does not catch it and the call
      fails (`None`). Otherwise it agrees with `ChosenGraph`. */
  function ChosenGraphAsWritten(g: Graph, productId: Option<int>): (r: Option<Graph>)
    ensures r.None? <==> productId.Some? && productId.value != 0 && IntId(productId.value) !in g.nodes
    ensures r.Some? ==> r.value == ChosenGraph(g, productId)
  {
    if productId.Some? && productId.value != 0 then
      if IntId(productId.value) in g.nodes then Some(EgoGraph(g, IntId(productId.value))) else None
    else Some(g)
  }

  /** A product id with no node makes the visualization fail as written,
      where the fallback the `except` branch means shows the whole graph. */
  lemma MissingCentreFails()
    ensures ChosenGraphAsWritten(Graph(map[IntId(1) := Untyped], map[]), Some(7)).None?
    ensures ChosenGraph(Graph(map[IntId(1) := Untyped], map[]), Some(7)) == Graph(map[IntId(1) := Untyped], map[])
  {
  }

  /** Breadth-first search to depth 2 finds exactly the nodes within
      undirected distance 2 of the centre. */
  lemma BallTwo(g: Graph, c: NodeId, v: NodeId)
    requires c in g.nodes
    ensures v in Ball(g, c, 2) <==> WithinTwo(g, c, v)
  {
    var b1 := Ball(g, c, 1);
    assert Ball(g, c, 0) == {c};
    assert b1 == Expand(g, {c});
    if v in Ball(g, c, 2) && v !in b1 {
      var u :| u in b1 && Adjacent(g, u, v);
      if u != c {
        assert u in g.nodes && Adjacent(g, c, u);
      }
    }
    if WithinTwo(g, c, v) && v != c && !Adjacent(g, c, v) {
      var m :| m in g.nodes && Adjacent(g, c, m) && Adjacent(g, m, v);
      assert m in b1;
    }
  }

  /** With a product id, the ego graph holds exactly the nodes within
      distance 2 of the product, with their attributes, and every edge of the
      graph between two of them, with its attributes; without one (or with
      id 0, or an id that is not a node) the whole graph is shown. */
  lemma ChosenGraphMeaning(g: Graph, productId: Option<int>)
    ensures var h := ChosenGraph(g, productId);
      && (forall n | n in h.nodes :: n in g.nodes && h.nodes[n] == g.nodes[n])
      && (forall e | e in h.edges :: e in g.edges && h.edges[e] == g.edges[e])
      && (productId.None? || productId == Some(0) || IntId(productId.value) !in g.nodes ==> h == g)
      && (productId.Some? && productId.value != 0 && IntId(productId.value) in g.nodes ==>
            var c := IntId(productId.value);
            && (forall v :: v in h.nodes <==> WithinTwo(g, c, v))
            && (forall e :: e in h.edges <==> e in g.edges && WithinTwo(g, c, e.0) && WithinTwo(g, c, e.1)))
  {
    if productId.Some? && productId.value != 0 && IntId(productId.value) in g.nodes {
      var c := IntId(productId.value);
      var h := ChosenGraph(g, productId);
      forall v
        ensures v in h.nodes <==> WithinTwo(g, c, v)
      {
        BallTwo(g, c, v);
      }
      forall e
        ensures e in h.edges <==> e in g.edges && WithinTwo(g, c, e.0) && WithinTwo(g, c, e.1)
      {
        BallTwo(g, c, e.0);
        BallTwo(g, c, e.1);
      }
    }
  }

  // ---------------------------------------------------------------------
  // Rendering
  // ---------------------------------------------------------------------

  /** A node entry: `id`, `label`, `type`, `group` and `data`. The group of a
      product is its category column, which may be NULL. */
  datatype VisNode = VisNode(id: string, labelText: string, nodeType: string, group: Option<string>, data: NodeRecord)

  /** A link entry: `source`, `target`, `type`, `score` and `reasoning`. */
  datatype Link = Link(source: string, target: string, linkType: string, score: real, reasoning: string)

  /** The node entries by node id and the link entries by (source, target). */
  datatype VisData = VisData(nodes: map<NodeId, VisNode>, links: map<(NodeId, NodeId), Link>)

  /** `str(node_id)`. */
  function NodeIdString(n: NodeId): string {
    match n
    case IntId(i) => IntToString(i)
    case StrId(s) => s
  }

  function RenderNode(n: NodeId, rec: NodeRecord): VisNode {
    match rec
    case ProductNode(_, title, category, _, _, _) => VisNode(NodeIdString(n), title, "product", category, rec)
    case CategoryNode(name) => VisNode(NodeIdString(n), name, "category", Some("Category"), rec)
    case BrandNode(name) => VisNode(NodeIdString(n), name, "brand", Some("Brand"), rec)
    case Untyped => VisNode(NodeIdString(n), NodeIdString(n), "unknown", Some("Unknown"), rec)
  }

  /** Missing attributes read as `'UNKNOWN'`, `0` and `''`. */
  function RenderLink(e: (NodeId, NodeId), a: EdgeAttrs): Link {
    Link(NodeIdString(e.0), NodeIdString(e.1),
         a.relationshipType.GetOr("UNKNOWN"), a.similarityScore.GetOr(0.0), a.reasoning.GetOr(""))
  }

  function Visualize(g: Graph, productId: Option<int>): VisData {
    var h := ChosenGraph(g, productId);
    VisData(
      map n | n in h.nodes :: RenderNode(n, h.nodes[n]),
      map e | e in h.edges :: RenderLink(e, h.edges[e]))
  }

  /** One node entry per node and one link entry per edge of the graph shown;
      each entry is rendered from the node's or edge's attributes in `g`. */
  lemma VisualizeMeaning(g: Graph, productId: Option<int>)
    ensures var r := Visualize(g, productId);
      var h := ChosenGraph(g, productId);
      && r.nodes.Keys == h.nodes.Keys
      && r.links.Keys == h.edges.Keys
      && (forall n | n in r.nodes :: n in g.nodes && r.nodes[n] == RenderNode(n, g.nodes[n]))
      && (forall n | n in r.nodes :: r.nodes[n].id == NodeIdString(n))
      && (forall e | e in r.links :: e in g.edges && r.links[e] == RenderLink(e, g.edges[e]))
  {
    ChosenGraphMeaning(g, productId);
  }
}

/** What the visualization shows of a graph built from the database rows. */
module ProjectionFacts {
  import opened Wrappers
  import opened Text
  import opened GraphModel
  import opened GraphBuild
  import opened GraphBuildFacts
  import opened Projection

  /** `str` of a category or brand key. */
  function AnchorKey(name: string, a: Anchor): string {
    (if a == CategoryAnchor then "category_" else "brand_") + name
  }

  /** The node shown for a product carries the title of the last row with its
      id (the enriched title when there is one) and its category as group; it
      is shown in the whole graph and in the graph centred on it. */
  lemma ShownProductNode(db: Database, productId: Option<int>, i: int)
    requires LastWithId(db.products, i)
    ensures var p := db.products[i];
      var r := Visualize(BuildGraph(db), productId);
      && (productId.None? || productId == Some(p.id) ==> IntId(p.id) in r.nodes)
      && (IntId(p.id) in r.nodes ==>
            r.nodes[IntId(p.id)] == VisNode(IntToString(p.id), DisplayTitle(p), "product", p.category, ProductRecord(p)))
  {
    var p := db.products[i];
    var g := BuildGraph(db);
    BuildProductNode(db, i);
    VisualizeMeaning(g, productId);
    ChosenGraphMeaning(g, productId);
    if productId == Some(p.id) && p.id != 0 {
      BallTwo(g, IntId(p.id), IntId(p.id));
    }
  }

  /** A category (brand) node is shown only for a category (brand) some row
      has, labelled with its name and grouped as 'Category' ('Brand'); in the
      whole graph it is shown for every such name. */
  lemma ShownAnchorNode(db: Database, productId: Option<int>, name: string, a: Anchor)
    ensures var r := Visualize(BuildGraph(db), productId);
      var id := AnchorId(name, a);
      var named := exists p :: p in db.products && AnchorName(p, a) == Some(name) && name != "";
      && (id in r.nodes ==> named)
      && (productId.None? ==> (id in r.nodes <==> named))
      && (id in r.nodes ==>
            r.nodes[id] == VisNode(AnchorKey(name, a), name,
                                   if a == CategoryAnchor then "category" else "brand",
                                   Some(if a == CategoryAnchor then "Category" else "Brand"),
                                   AnchorRecord(name, a)))
  {
    var g := BuildGraph(db);
    BuildAnchorNode(db, name, a);
    VisualizeMeaning(g, productId);
  }

  /** A relationship endpoint with no product row is shown as an 'unknown'
      node labelled with its id. */
  lemma ShownUntypedNode(db: Database, productId: Option<int>, n: NodeId)
    requires n in EndpointIds(db.relationships) && n !in ProductIds(db.products)
    ensures var r := Visualize(BuildGraph(db), productId);
      && (productId.None? ==> n in r.nodes)
      && (n in r.nodes ==> r.nodes[n] == VisNode(IntToString(n.n), IntToString(n.n), "unknown", Some("Unknown"), Untyped))
  {
    var g := BuildGraph(db);
    var r := Visualize(g, productId);
    BuildUntypedNode(db, n);
    VisualizeMeaning(g, productId);
    if productId.None? {
      assert ChosenGraph(g, productId) == g;
    }
    if n in r.nodes {
      assert r.nodes[n] == RenderNode(n, Untyped);
    }
  }

  /** A relationship link carries the type, score and reasoning of the last
      row for its pair. */
  lemma ShownRelationshipLink(db: Database, productId: Option<int>, i: int)
    requires LastForPair(db.relationships, i)
    ensures var row := db.relationships[i];
      var e := (IntId(row.source), IntId(row.target));
      var r := Visualize(BuildGraph(db), productId);
      && (productId.None? ==> e in r.links)
      && (e in r.links ==>
            r.links[e] == Link(IntToString(row.source), IntToString(row.target),
                               row.relationshipType, row.similarityScore, row.reasoning))
  {
    var g := BuildGraph(db);
    BuildRelationshipEdge(db, i);
    VisualizeMeaning(g, productId);
  }

  /** BELONGS_TO and MADE_BY links have no stored score or reasoning, so they
      are shown with score 0 and empty reasoning. */
  lemma ShownAnchorLink(db: Database, productId: Option<int>, p: ProductRow, a: Anchor)
    requires p in db.products && Truthy(AnchorName(p, a))
    ensures var name := AnchorName(p, a).value;
      var e := (IntId(p.id), AnchorId(name, a));
      var r := Visualize(BuildGraph(db), productId);
      && (productId.None? ==> e in r.links)
      && (e in r.links ==>
            r.links[e] == Link(IntToString(p.id), AnchorKey(name, a),
                               if a == CategoryAnchor then "BELONGS_TO" else "MADE_BY", 0.0, ""))
  {
    var g := BuildGraph(db);
    BuildAnchorEdge(db, p, a);
    VisualizeMeaning(g, productId);
  }

  /** The keys of a built graph are product ids and "category_"/"brand_" keys. */
  lemma BuiltNodeKinds(db: Database, n: NodeId)
    requires n in BuildGraph(db).nodes
    ensures n.IntId? || (|n.s| > 0 && (n.s[0] == 'c' || n.s[0] == 'b'))
  {
    BuildGraphNodes(db);
    if n.StrId? {
      var ps := db.products;
      var a := if n in AnchorIds(ps, CategoryAnchor) then CategoryAnchor else BrandAnchor;
      var p :| p in ps && Truthy(AnchorName(p, a)) && n == AnchorId(AnchorName(p, a).value, a);
    }
  }

  /** No two node entries of a built graph share an `id` string. */
  lemma ShownNodeIdsDistinct(db: Database, productId: Option<int>, m: NodeId, n: NodeId)
    requires var r := Visualize(BuildGraph(db), productId); m in r.nodes && n in r.nodes && m != n
    ensures var r := Visualize(BuildGraph(db), productId); r.nodes[m].id != r.nodes[n].id
  {
    var g := BuildGraph(db);
    VisualizeMeaning(g, productId);
    BuiltNodeKinds(db, m);
    BuiltNodeKinds(db, n);
    if m.IntId? && n.IntId? {
      IntToStringInjective(m.n, n.n);
    } else if m.IntId? || n.IntId? {
      assert NodeIdString(m)[0] != NodeIdString(n)[0];
    }
  }
}
