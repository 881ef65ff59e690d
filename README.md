# AEO product catalog: score and knowledge graph

This project models the core of a catalog service for answer-engine optimisation (AEO). The service enriches product listings and relates products to each other. Two parts are modelled.

- **The AEO score** (`calculate_aeo_score`). The service grades an enrichment on five factors worth 20 points each:
  - the length of the enriched title;
  - the number of key attributes;
  - the description's word count plus the number of FAQs;
  - the number of semantic tags plus the number of use cases;
  - consistency with the raw product: a brand lost from the title, or a category missing from the description.

  It returns the total and a breakdown with one explanation per factor. `AeoScore` (aeo_score.dfy) models this. `Text` (text.dfy) holds the small part of Python's string behaviour the scorer relies on: `str.split()`, ASCII `lower()`, `in`, and `str(int)`.
- **The knowledge graph** (`KnowledgeGraphService`):
  - **Building.** The service rebuilds a networkx directed graph from the product and relationship tables. The graph has product, category and brand nodes, and relationship, BELONGS_TO and MADE_BY edges.
    - `GraphModel` (graph_model.dfy) models the graph and networkx's `add_node` and `add_edge`. `add_edge` creates a missing endpoint. Adding an edge for a pair that already has one updates that edge's attributes.
    - `GraphBuild` and `GraphBuildFacts` (graph_build.dfy) state the build as folds over the rows and prove what the built graph holds.
  - **Recommendations.** The service buckets a product's relationships by type, sorts each bucket stably by descending score and cuts it with Python's `[:limit]`. `Recommend` (recommend.dfy) models this.
  - **Visualisation.** The service renders either the whole graph or the radius-2 ego graph of a product, as node and link entries. `Projection` and `ProjectionFacts` (projection.dfy) model this.
  - **Batch analysis.** The service analyses every product in turn and counts products and relationships.
  - `GraphService` (graph_service.dfy) has the service as a class. Its fields are the node and edge maps. Each of its loop methods is proved equal to the fold that specifies it.

Choices made:
- External effects and values:
  - Database reads are parameters: the rows, in the order the queries return them.
  - The outcome of analysing one product is a parameter: a function from the product id to `Failed` or the judgments found. This covers the language-model call behind it and the exception that call may raise.
  - Floating-point scores are `real`.
- Ordered output lists (visualisation nodes and links) are maps keyed by node id and by (source, target).
- The graph is rebuilt from scratch and starts from an empty graph, so the built graph is a function of the rows alone.

## Model

| member | source | states |
|---|---|---|
| `Text.Split` | backend/services/enrichment.py:150 | `str.split()` yields only non-empty words free of whitespace |
| `Text.SplitMeaning` | backend/services/enrichment.py:150 | for every text, the words laid end to end are its non-whitespace characters in order, and their number is the number of word starts (a non-whitespace character that is first or follows whitespace), whatever the gaps and leading or trailing whitespace |
| `Text.SplitJoin` | backend/services/enrichment.py:150 | splitting a text of single-space-separated words gives back exactly those words, so the word count is the number of words |
| `Text.Lower` | backend/services/enrichment.py:185-195 | lower-casing keeps the length and maps each character by itself (A–Z to a–z, others unchanged) |
| `Text.ContainsIff` | backend/services/enrichment.py:190-196 | the `in` test holds exactly when the needle occurs at some position of the haystack |
| `Text.NatToStringRoundTrip` | backend/services/enrichment.py:137-181 | the decimal digits printed in the details parse back to the count |
| `Text.IntToStringInjective` | backend/services/knowledge_graph.py:416 | `str` of two node ids that are integers is equal exactly when the integers are |
| `AeoScore.TitleScore` | backend/services/enrichment.py:119-130 | 20 exactly for 45–60 characters, 15 exactly for 40–44 or 61–70, 10 exactly for other non-empty titles, 0 exactly for an empty one |
| `AeoScore.TitleDetail` | backend/services/enrichment.py:122-130 | the explanation is "Optimal length", "Acceptable length" or "Suboptimal length" exactly when the title scores 20, 15 or 10, and absent exactly when the title is empty |
| `AeoScore.AttributeScore` | backend/services/enrichment.py:132-146 | 20 exactly from 7 attributes, 15 exactly for 5–6, 10 exactly for 3–4, 5 exactly below 3 |
| `AeoScore.AttributeDetail` | backend/services/enrichment.py:135-146 | the explanation is the count followed by "attributes (excellent)", "(good)", "(acceptable)" or "(poor)" exactly when the count scores 20, 15, 10 or 5 |
| `AeoScore.AttributeScoreMonotone` | backend/services/enrichment.py:135-146 | more attributes never earn fewer points |
| `AeoScore.DescriptionScore` | backend/services/enrichment.py:154-160 | 10 exactly for 150–200 words, 7 exactly for 120–149 or 201–250, 5 exactly for other positive counts, 0 exactly for none |
| `AeoScore.FaqScore` | backend/services/enrichment.py:162-168 | 10 exactly from 5 FAQs, 7 exactly for 3–4, 5 exactly for 1–2, 0 exactly for none |
| `AeoScore.TagsScore` | backend/services/enrichment.py:177 | two points per tag capped at 10, reached exactly from 5 tags |
| `AeoScore.UseCasesScore` | backend/services/enrichment.py:178 | three points per use case capped at 10, reached exactly from 4 use cases |
| `AeoScore.BrandPenalty` | backend/services/enrichment.py:185-190 | defines the brand penalty: the lower-cased brand is non-empty, absent from the lower-cased enriched title and present in the lower-cased raw title; scored by `ConsistencyMeaning` |
| `AeoScore.CategoryPenalty` | backend/services/enrichment.py:194-196 | defines the category penalty: the lower-cased category is non-empty and absent from the lower-cased description; scored by `ConsistencyMeaning` |
| `AeoScore.ConsistencyScore` | backend/services/enrichment.py:183-206 | defines the consistency points, 20 less 5 per penalty clamped at 0; its values are stated by `ConsistencyMeaning` |
| `AeoScore.ConsistencyDetail` | backend/services/enrichment.py:188-204 | defines the consistency explanation; its wording in every case is stated by `ConsistencyMeaning` |
| `AeoScore.ConsistencyMeaning` | backend/services/enrichment.py:183-206 | consistency is 20 minus 5 per penalty (so one of 10, 15, 20); its explanation is "Excellent alignment" exactly when no penalty applies and otherwise names the penalties in order |
| `AeoScore.Breakdown` | backend/services/enrichment.py:110-206 | defines the breakdown from the factor functions and the explanations; its sub-scores are stated by `CalculateAeoScore` and `CalculateAeoScoreFactors` |
| `AeoScore.CalculateAeoScore` | backend/services/enrichment.py:208-217 | every sub-score lies in [0, 20] (consistency in [10, 20]); the total is their sum and lies in [10, 100] |
| `AeoScore.CalculateAeoScoreFactors` | backend/services/enrichment.py:99-217 | each sub-score is its factor function of the measured title length, attribute count, word count, FAQ count, tag count and use-case count |
| `AeoScore.PerfectScore` | backend/services/enrichment.py:110-217 | the total is 100 exactly when every factor is at its best and neither penalty applies |
| `AeoScore.WorkedExample` | backend/services/enrichment.py:122-215 | a 50-character title, 6 attributes, 180 words, 4 FAQs, 8 tags, 3 use cases and no penalty score 91 |
| `AeoScore.EmptyEnrichment` | backend/services/enrichment.py:120-204 | an empty enrichment of a product without brand and category scores 25 and has no title explanation |
| `GraphModel.UpdateAttrs` | backend/services/knowledge_graph.py:74-80 | defines `dict.update` on the three edge keys: a key given again wins, the others keep their old value; what the built edges then carry is stated by `GraphBuild.RelationshipEdgesLastRowWins`, `GraphBuild.AnchorEdgesRecord` and `GraphBuildFacts.BuildRelationshipEdge` |
| `GraphModel.AddNode` | backend/services/knowledge_graph.py:33-42 | `add_node` sets the node's attributes, keeps every other node and every edge, and keeps every edge between nodes |
| `GraphModel.AddEdge` | backend/services/knowledge_graph.py:74-80 | `add_edge` adds missing endpoints without attributes, keeps existing nodes, adds or updates only its own pair's edge, and keeps every edge between nodes |
| `GraphModel.CategoryIdInjective` | backend/services/knowledge_graph.py:50 | distinct category names give distinct node keys |
| `GraphModel.BrandIdInjective` | backend/services/knowledge_graph.py:61 | distinct brand names give distinct node keys |
| `GraphModel.CategoryIsNotBrand` | backend/services/knowledge_graph.py:44-64 | no category key equals a brand key |
| `GraphBuild.AddProductNodes` | backend/services/knowledge_graph.py:32-42 | defines the product node loop as a fold over the rows; its effect is stated by `ProductNodesPass` and `ProductNodesRecord` |
| `GraphBuild.AddAnchorNodes` | backend/services/knowledge_graph.py:44-64 | defines the category (brand) node loop as a fold; its effect is stated by `AnchorNodesPass`, `AnchorNodesFrame` and `AnchorNodesRecord` |
| `GraphBuild.AddRelationshipEdges` | backend/services/knowledge_graph.py:66-80 | defines the relationship edge loop as a fold; its effect is stated by `RelationshipNodesPass`, `RelationshipNodesValue`, `RelationshipEdgesPass` and `RelationshipEdgesLastRowWins` |
| `GraphBuild.AddAnchorEdges` | backend/services/knowledge_graph.py:82-100 | defines the BELONGS_TO (MADE_BY) edge loop as a fold; its effect is stated by `AnchorEdgesPass`, `AnchorEdgesNodes`, `AnchorEdgesFrame` and `AnchorEdgesRecord` |
| `GraphBuild.NodeStage` | backend/services/knowledge_graph.py:21-64 | defines the graph after clearing and the three node loops; its shape is stated by `NodeStageShape` |
| `GraphBuild.BuildGraph` | backend/services/knowledge_graph.py:19-102 | defines the graph `build_graph_from_db` leaves; its shape and contents are stated by the `GraphBuildFacts` lemmas |
| `GraphBuild.AnchorIdInjective` | backend/services/knowledge_graph.py:44-64 | category (brand) keys are equal exactly when the names are |
| `GraphBuild.AnchorIdsDistinct` | backend/services/knowledge_graph.py:44-64 | a category key is never a brand key, in either order |
| `GraphBuild.AnchorIdsMembership` | backend/services/knowledge_graph.py:44-64 | a category (brand) key is among the keys the node pass adds exactly when some row has that non-empty name, and never among the other kind's keys |
| `GraphBuild.AnchorPairsDistinct` | backend/services/knowledge_graph.py:82-100 | no BELONGS_TO pair is a MADE_BY pair, and both point at string keys |
| `GraphBuild.ProductNodesPass` | backend/services/knowledge_graph.py:32-42 | the product pass adds exactly the product ids as nodes and no edge |
| `GraphBuild.ProductNodesRecord` | backend/services/knowledge_graph.py:32-42 | a product node carries the attributes of the last row with its id |
| `GraphBuild.AnchorNodesPass` | backend/services/knowledge_graph.py:44-64 | the category (brand) pass adds exactly the keys of the non-empty names and no edge |
| `GraphBuild.AnchorNodesFrame` | backend/services/knowledge_graph.py:44-64 | the category (brand) pass leaves every other node as it was |
| `GraphBuild.AnchorNodesRecord` | backend/services/knowledge_graph.py:47-63 | each named category (brand) gets a node of its kind carrying its name |
| `GraphBuild.RelationshipNodesPass` | backend/services/knowledge_graph.py:73-80 | the relationship pass adds exactly the rows' endpoints as nodes |
| `GraphBuild.RelationshipNodesValue` | backend/services/knowledge_graph.py:73-80 | the relationship pass keeps existing nodes' attributes and gives new endpoints none |
| `GraphBuild.RelationshipEdgesPass` | backend/services/knowledge_graph.py:73-80 | the relationship pass adds exactly the rows' ordered pairs as edges and leaves other edges as they were |
| `GraphBuild.RelationshipEdgesLastRowWins` | backend/services/knowledge_graph.py:73-80 | an edge carries the type, score and reasoning of the last row for its ordered pair |
| `GraphBuild.AnchorEdgesPass` | backend/services/knowledge_graph.py:82-100 | the BELONGS_TO (MADE_BY) pass adds exactly the product-to-category (brand) pairs as edges |
| `GraphBuild.AnchorEdgesNodes` | backend/services/knowledge_graph.py:82-100 | when products and their categories (brands) are nodes already, the edge pass adds no node and changes none |
| `GraphBuild.AnchorEdgesFrame` | backend/services/knowledge_graph.py:82-100 | the BELONGS_TO (MADE_BY) pass leaves the edges of other pairs as they were |
| `GraphBuild.AnchorEdgesRecord` | backend/services/knowledge_graph.py:84-100 | a new BELONGS_TO (MADE_BY) edge carries only its type, however many rows name it |
| `GraphBuild.AnchorEdgesAbsent` | backend/services/knowledge_graph.py:82-100 | the pass adds no edge for a pair no row names |
| `GraphBuildFacts.NodeStageShape` | backend/services/knowledge_graph.py:21-64 | after the node passes the graph has no edge and its nodes are the product ids and the category and brand keys |
| `GraphBuildFacts.EdgePassesNodes` | backend/services/knowledge_graph.py:66-100 | the relationship pass adds the endpoints; the two later passes change no node |
| `GraphBuildFacts.BuildGraphNodes` | backend/services/knowledge_graph.py:19-102 | the built graph's nodes are the product ids, the relationship endpoints, and the category and brand keys |
| `GraphBuildFacts.BuildGraphEdges` | backend/services/knowledge_graph.py:19-102 | the built graph's edges are the relationship pairs, the BELONGS_TO pairs and the MADE_BY pairs |
| `GraphBuildFacts.BuildGraphWellFormed` | backend/services/knowledge_graph.py:19-102 | every edge of the built graph joins two of its nodes |
| `GraphBuildFacts.BuildGraphShape` | backend/services/knowledge_graph.py:19-102 | the three facts above together |
| `GraphBuildFacts.BuildKeepsStageNode` | backend/services/knowledge_graph.py:66-100 | the edge passes leave every node of the node stage with its attributes |
| `GraphBuildFacts.BuildProductNode` | backend/services/knowledge_graph.py:32-42 | in the built graph a product node carries the last row with its id; its title is the enriched title when non-empty, else the raw title |
| `GraphBuildFacts.BuildAnchorNode` | backend/services/knowledge_graph.py:44-64 | the built graph has a `category_`/`brand_` node exactly when some row has that non-empty name, and it carries the name |
| `GraphBuildFacts.BuildUntypedNode` | backend/services/knowledge_graph.py:73-80 | a relationship endpoint with no product row is a node without attributes |
| `GraphBuildFacts.BuildRelationshipEdge` | backend/services/knowledge_graph.py:66-100 | the built graph's edge for a relationship pair carries the last row's type, score and reasoning |
| `GraphBuildFacts.BuildProductEdges` | backend/services/knowledge_graph.py:66-100 | an edge between two product ids exists exactly when some relationship row has that ordered pair |
| `GraphBuildFacts.BuildAnchorEdge` | backend/services/knowledge_graph.py:82-100 | a product with a non-empty category (brand) has a BELONGS_TO (MADE_BY) edge carrying only its type |
| `Recommend.OfType` | backend/services/knowledge_graph.py:351-357 | a bucket holds each relationship of its type as often as the input does, and nothing else |
| `Recommend.InsertSorted` | backend/services/knowledge_graph.py:361-364 | inserting into a sequence sorted by descending score keeps it sorted |
| `Recommend.InsertTies` | backend/services/knowledge_graph.py:361-364 | an inserted element joins the front of its group of equal scores and no other group changes |
| `Recommend.SortByScoreDesc` | backend/services/knowledge_graph.py:361-364 | the sort orders by descending score, is a permutation, and keeps the input order within every group of equal scores |
| `Recommend.SortedUnique` | backend/services/knowledge_graph.py:361-364 | two sequences sorted by descending score with the same order within each group of ties are equal |
| `Recommend.SortIsStable` | backend/services/knowledge_graph.py:361-364 | any sorted arrangement that keeps the input order among ties is the sort's result |
| `Recommend.Take` | backend/services/knowledge_graph.py:365 | `[:limit]` is a prefix: `limit` elements for 0 ≤ limit ≤ length, the whole sequence beyond it, and length + limit elements (at least 0) for a negative limit |
| `Recommend.Bucket` | backend/services/knowledge_graph.py:351-365 | defines one bucket: the relationships of its type sorted by descending score and cut by `[:limit]`; stated by `BucketOrder` and `BucketContents` |
| `Recommend.GetRecommendations` | backend/services/knowledge_graph.py:332-367 | defines the three buckets 'similar', 'complements' and 'alternatives'; stated by `BucketsByType` and `DefaultLimitBound` |
| `Recommend.BucketOrder` | backend/services/knowledge_graph.py:359-365 | each bucket is a prefix of its type's relationships sorted by descending score, so it is sorted and keeps the input order among ties |
| `Recommend.BucketContents` | backend/services/knowledge_graph.py:351-365 | each bucket holds only input relationships of its type, is bounded by a non-negative limit, fills up to the limit when there are enough, and holds every relationship of its type when the limit is at least their number |
| `Recommend.BucketsByType` | backend/services/knowledge_graph.py:345-367 | a relationship appears only in the bucket of its own type; other types are dropped |
| `Recommend.DefaultLimitBound` | backend/services/knowledge_graph.py:336 | with the default limit every bucket holds at most five entries |
| `Projection.Induced` | backend/services/knowledge_graph.py:390 | defines the subgraph on a node set with every edge between two of its nodes; stated by `ChosenGraphMeaning` |
| `Projection.EgoGraph` | backend/services/knowledge_graph.py:390 | defines `ego_graph(..., radius=2)` as the induced subgraph on the depth-2 search set; stated by `BallTwo` and `ChosenGraphMeaning` |
| `Projection.ChosenGraph` | backend/services/knowledge_graph.py:386-395 | defines the graph shown, with the missing-node case falling back to the whole graph; stated by `ChosenGraphMeaning` |
| `Projection.ChosenGraphAsWritten` | backend/services/knowledge_graph.py:386-395 | as the source is written, a truthy product id that is not a node makes the call fail, and otherwise the choice agrees with `ChosenGraph` |
| `Projection.MissingCentreFails` | backend/services/knowledge_graph.py:389-393 | on a one-node graph, product id 7 makes the written code fail, where the fallback shows the whole graph |
| `Projection.NodeIdString` | backend/services/knowledge_graph.py:416 | defines `str(node_id)`; distinct ids of a built graph give distinct strings by `ShownNodeIdsDistinct` |
| `Projection.RenderNode` | backend/services/knowledge_graph.py:399-421 | defines a node entry per node kind; stated for built graphs by the `ProjectionFacts` lemmas |
| `Projection.RenderLink` | backend/services/knowledge_graph.py:425-432 | defines a link entry with the defaults 'UNKNOWN', 0 and ''; stated by `ShownRelationshipLink` and `ShownAnchorLink` |
| `Projection.Visualize` | backend/services/knowledge_graph.py:397-437 | defines the node and link entries of the graph shown; stated by `VisualizeMeaning` |
| `Projection.Expand` | backend/services/knowledge_graph.py:390 | defines one breadth-first level over the undirected view: the set plus the nodes adjacent to one of its members; its meaning at depth 2 is stated by `BallTwo` |
| `Projection.BallTwo` | backend/services/knowledge_graph.py:390 | the radius-2 ego set of a node is exactly the nodes within undirected distance 2 of it |
| `Projection.ChosenGraphMeaning` | backend/services/knowledge_graph.py:386-395 | with a truthy product id that is a node, the shown graph has exactly the nodes within distance 2 and every edge between two of them, with their attributes; otherwise it is the whole graph |
| `Projection.VisualizeMeaning` | backend/services/knowledge_graph.py:397-437 | one node entry per shown node and one link entry per shown edge, each rendered from the graph's attributes, with `id` the node's `str` |
| `ProjectionFacts.ShownProductNode` | backend/services/knowledge_graph.py:402-421 | a product is shown in the whole graph and in its own ego graph, labelled with its title and grouped by its category |
| `ProjectionFacts.ShownAnchorNode` | backend/services/knowledge_graph.py:405-421 | a category (brand) entry is shown only for a name some row has, and for every such name in the whole graph, labelled with the name and grouped as 'Category' ('Brand') |
| `ProjectionFacts.ShownUntypedNode` | backend/services/knowledge_graph.py:411-421 | an endpoint with no product row is shown as 'unknown', labelled with its id, grouped as 'Unknown' |
| `ProjectionFacts.ShownRelationshipLink` | backend/services/knowledge_graph.py:423-432 | a relationship link carries the last row's type, score and reasoning |
| `ProjectionFacts.ShownAnchorLink` | backend/services/knowledge_graph.py:423-432 | BELONGS_TO and MADE_BY links are shown with score 0 and empty reasoning |
| `ProjectionFacts.BuiltNodeKinds` | backend/services/knowledge_graph.py:19-102 | every key of a built graph is a product id or a string starting "category_"/"brand_" |
| `ProjectionFacts.ShownNodeIdsDistinct` | backend/services/knowledge_graph.py:415-416 | no two node entries of a built graph share an `id` string |
| `GraphService.StoredRow` | backend/services/knowledge_graph.py:188-196 | defines the row stored for a judgment, with 0.5 and '' for a missing score and reasoning; stated by `StoredJudgmentEdge` |
| `GraphService.RelationshipsFound` | backend/services/knowledge_graph.py:461-465 | defines the relationship total as the sum over successful analyses; stated by `RelationshipsFoundAppend`, `FailureAddsNothing` and `AllFailuresFindNothing` |
| `GraphService.StoredJudgmentEdge` | backend/services/knowledge_graph.py:188-201 | after a judgment is stored and the graph rebuilt, its edge carries its type, its score or 0.5, and its reasoning or '' |
| `GraphService.RelationshipsFoundAppend` | backend/services/knowledge_graph.py:461-465 | the relationship count of two runs of products is the sum of their counts |
| `GraphService.FailureAddsNothing` | backend/services/knowledge_graph.py:475-477 | a failed analysis adds nothing to the count |
| `GraphService.AllFailuresFindNothing` | backend/services/knowledge_graph.py:461-483 | when every analysis fails, the total count of relationships is 0 |
| `GraphService.KnowledgeGraphService.constructor` | backend/services/knowledge_graph.py:11-12 | a new service holds the empty graph |
| `GraphService.KnowledgeGraphService.Clear` | backend/services/knowledge_graph.py:21 | clearing leaves the empty graph |
| `GraphService.KnowledgeGraphService.AddNode` | backend/services/knowledge_graph.py:33-42 | the state afterwards is `GraphModel.AddNode` of the state before |
| `GraphService.KnowledgeGraphService.AddEdge` | backend/services/knowledge_graph.py:74-80 | the state afterwards is `GraphModel.AddEdge` of the state before |
| `GraphService.KnowledgeGraphService.AddProductNodeRows` | backend/services/knowledge_graph.py:32-42 | the product loop leaves the product-node fold of the previous graph |
| `GraphService.KnowledgeGraphService.AddAnchorNodeRows` | backend/services/knowledge_graph.py:44-64 | the category (brand) loop leaves the category (brand) node fold of the previous graph |
| `GraphService.KnowledgeGraphService.AddRelationshipRows` | backend/services/knowledge_graph.py:66-80 | the relationship loop leaves the relationship-edge fold of the previous graph |
| `GraphService.KnowledgeGraphService.AddAnchorEdgeRows` | backend/services/knowledge_graph.py:82-100 | the BELONGS_TO (MADE_BY) loop leaves the anchor-edge fold of the previous graph |
| `GraphService.KnowledgeGraphService.BuildGraphFromDb` | backend/services/knowledge_graph.py:19-102 | whatever the graph held, afterwards it is the graph of the rows, well-formed, and it is returned |
| `GraphService.KnowledgeGraphService.GetGraphVisualizationData` | backend/services/knowledge_graph.py:369-437 | with a database the graph is rebuilt first, otherwise left unchanged; the result is the rendering of the graph chosen for the product id |
| `GraphService.KnowledgeGraphService.BatchAnalyzeAllProducts` | backend/services/knowledge_graph.py:439-483 | every product counts as processed, whether its analysis succeeds or fails; the relationship total is the sum over successful analyses |

## Left out

- Database access (SQL queries, the connection, commits and rollbacks) is not modelled. Query results are parameters given as row sequences in query order. This includes parsing the `semantic_tags` JSON column into a list of strings.
- The DISTINCT category and brand queries are folded over every product row. This builds the same graph: a repeated name replaces its node with an equal one.
- NULL `similarity_score` or `reasoning` in relationship rows is not modelled. The storing code fills in 0.5 and '' only when the key is missing; a key present with a null value would be stored as NULL, and neither a judgment nor a row of the model can carry one.
- Scores are modelled as `real` on both the graph and the recommendations side, not as floating point.
- `Text.Lower` covers ASCII letters only, not Python's full Unicode case mapping.
- Explicit nulls are not modelled in two more places:
  - An enrichment key that is present but null (for example a NULL `long_description` passed in by `get_score_breakdown`). The source then raises in `.split()` or `len()`; the model's `Enrichment` fields are always a string or a list.
  - A null `relationship_type` in an analysis result. The source stores it as NULL, shows a link of type None and puts the row in no bucket; the model's `Judgment.relationshipType` is always a string.
- A NULL brand or category reaching `calculate_aeo_score` is not modelled. The source would raise on `.lower()` of `None`; the model's product fields are strings.
- `GraphService.KnowledgeGraphService.GetGraphVisualizationData` does not model three networkx behaviours:
  - In the ego view, the source works on the undirected copy of the graph. There, an antiparallel pair of edges becomes one link, and a link's source and target may come out swapped. The model keeps the directed edges between the chosen nodes.
  - For a truthy product id that is not a node, the source as written raises: `ego_graph` raises `NodeNotFound`, which derives from `NetworkXException` and not from the caught `NetworkXError`. The method follows the `except` branch and shows the whole graph; see "## Findings".
  - Node and link output order follows networkx's insertion order. The model returns maps keyed by node id and (source, target), so order is not captured.
- `GraphService.KnowledgeGraphService.BatchAnalyzeAllProducts` leaves out three things:
  - The progress callback. If the callback raised, the source would count that product as processed twice.
  - The rebuild and storing that a successful analysis performs.
  - The async scheduling.

  The analysis outcome is a function of the product id.
- `analyze_product_relationships` (the language-model prompt, response parsing and API client) is reduced to that outcome. `GraphService.StoredJudgmentEdge` covers what storing a judgment and rebuilding does to the graph. Storing is modelled as appending the newest row: INSERT OR REPLACE gives the new row the newest rowid. The table's uniqueness constraint is not part of this model.
- `get_product_relationships` is the source of the recommendation input. Its SQL join is not modelled; its rows are the `RelatedProduct` parameter.
- The service's API-key check and exception types are not modelled.

## Findings

| source | as written | input that shows it | evidently intended | confidence | as-written member | corrected member |
|---|---|---|---|---|---|---|
| backend/services/knowledge_graph.py:389-393 | `except nx.NetworkXError` does not catch the `NodeNotFound` that `ego_graph` raises for a centre that is not a node, so the call raises | product id 7 on a graph without node 7 | fall back to the whole graph, as the `except` branch does | medium, not executed | `Projection.ChosenGraphAsWritten`, `Projection.MissingCentreFails` | `Projection.ChosenGraph`, `Projection.ChosenGraphMeaning` |
