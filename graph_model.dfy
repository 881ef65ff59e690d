/** The in-memory knowledge graph: a directed graph with at most one edge per
    ordered pair of node ids, node attributes by node id and edge attributes
    by (source, target), as networkx's `DiGraph` holds them; and the two
    mutating primitives the service uses, `add_node` and `add_edge`. */
module GraphModel {
  import opened Wrappers

  /** A node id is a Python int (a product id) or a str (a category or brand key). */
  datatype NodeId = IntId(n: int) | StrId(s: string)

  function CategoryId(name: string): NodeId {
    StrId("category_" + name)
  }

  function BrandId(name: string): NodeId {
    StrId("brand_" + name)
  }

  /** The attribute dictionary of a node. `Untyped` is the empty dictionary
      that `add_edge` gives an endpoint it has not seen before. */
  datatype NodeRecord =
    | ProductNode(
        sku: string,
        title: string,
        category: Option<string>,
        brand: Option<string>,
        price: Option<real>,
        semanticTags: seq<string>)
    | CategoryNode(name: string)
    | BrandNode(name: string)
    | Untyped

  /** The attribute dictionary of an edge: each key may be absent. */
  datatype EdgeAttrs = EdgeAttrs(
    relationshipType: Option<string>,
    similarityScore: Option<real>,
    reasoning: Option<string>)

  datatype Graph = Graph(
    nodes: map<NodeId, NodeRecord>,
    edges: map<(NodeId, NodeId), EdgeAttrs>)

  const EmptyGraph := Graph(map[], map[])

  /** Every edge joins two nodes of the graph. */
  ghost predicate WellFormed(g: Graph) {
    forall e | e in g.edges :: e.0 in g.nodes && e.1 in g.nodes
  }

  /** Python's `dict.update`: keys present in `newer` win. */
  function UpdateAttrs(older: EdgeAttrs, newer: EdgeAttrs): EdgeAttrs {
    EdgeAttrs(
      if newer.relationshipType.Some? then newer.relationshipType else older.relationshipType,
      if newer.similarityScore.Some? then newer.similarityScore else older.similarityScore,
      if newer.reasoning.Some? then newer.reasoning else older.reasoning)
  }

  /** `add_node(id, **attrs)`. Every call in the service passes the complete
      attribute set of its kind, so the dictionary update is a replacement. */
  function AddNode(g: Graph, id: NodeId, rec: NodeRecord): (r: Graph)
    ensures r.nodes.Keys == g.nodes.Keys + {id} && r.nodes[id] == rec
    ensures forall n | n in g.nodes && n != id :: r.nodes[n] == g.nodes[n]
    ensures r.edges == g.edges
    ensures WellFormed(g) ==> WellFormed(r)
  {
    g.(nodes := g.nodes[id := rec])
  }

  function EnsureNode(nodes: map<NodeId, NodeRecord>, id: NodeId): map<NodeId, NodeRecord> {
    if id in nodes then nodes else nodes[id := Untyped]
  }

  /** `add_edge(u, v, **attrs)`: missing endpoints become attribute-less nodes,
      and an existing edge for the same ordered pair has its attributes
      updated instead of a second edge being added. */
  function AddEdge(g: Graph, u: NodeId, v: NodeId, attrs: EdgeAttrs): (r: Graph)
    ensures r.nodes.Keys == g.nodes.Keys + {u, v}
    ensures forall n | n in g.nodes :: r.nodes[n] == g.nodes[n]
    ensures forall n | n in r.nodes && n !in g.nodes :: r.nodes[n] == Untyped
    ensures r.edges.Keys == g.edges.Keys + {(u, v)}
    ensures r.edges[(u, v)] == if (u, v) in g.edges then UpdateAttrs(g.edges[(u, v)], attrs) else attrs
    ensures forall e | e in g.edges && e != (u, v) :: r.edges[e] == g.edges[e]
    ensures WellFormed(g) ==> WellFormed(r)
  {
    var pair := (u, v);
    Graph(
      EnsureNode(EnsureNode(g.nodes, u), v),
      g.edges[pair := if pair in g.edges then UpdateAttrs(g.edges[pair], attrs) else attrs])
  }

  // ---------------------------------------------------------------------
  // Facts about node keys
  // ---------------------------------------------------------------------

  lemma CategoryIdInjective(a: string, b: string)
    ensures CategoryId(a) == CategoryId(b) <==> a == b
  {
    if CategoryId(a) == CategoryId(b) {
      assert a == ("category_" + a)[9..];
      assert b == ("category_" + b)[9..];
    }
  }

  lemma BrandIdInjective(a: string, b: string)
    ensures BrandId(a) == BrandId(b) <==> a == b
  {
    if BrandId(a) == BrandId(b) {
      assert a == ("brand_" + a)[6..];
      assert b == ("brand_" + b)[6..];
    }
  }

  /** No category key is a brand key. */
  lemma CategoryIsNotBrand(a: string, b: string)
    ensures CategoryId(a) != BrandId(b)
  {
    assert ("category_" + a)[0] == 'c';
    assert ("brand_" + b)[0] == 'b';
  }
}
