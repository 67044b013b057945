/** The seed diagram the data-model hook starts from: five tables and the four
    relationships between them. */
module InitialNodes {
  import opened Wrappers
  import opened Diagram
  import opened SchemaAI

  function Col(name: string, dataType: string): Column {
    Column(name, dataType, None)
  }

  function Custom(id: string, tableName: string, schema: seq<Column>, x: real, y: real): Node {
    Node(id, Some("custom"), NodeData(tableName, schema), Some(Position(x, y)))
  }

  function Rel(id: string, source: string, target: string, relationship: string): Edge {
    Edge(id, source, target, Some(relationship))
  }

  const InitialNodes: seq<Node> := [
    Custom("users", "Example_Users",
      [Col("id", "UUID"), Col("name", "VARCHAR"), Col("email", "VARCHAR"), Col("created_at", "TIMESTAMP")], 0.0, 0.0),
    Custom("orders", "Example_Orders",
      [Col("id", "UUID"), Col("user_id", "UUID"), Col("status", "VARCHAR"), Col("total", "DECIMAL"),
       Col("created_at", "TIMESTAMP")], 300.0, 200.0),
    Custom("products", "Example_Products",
      [Col("id", "UUID"), Col("name", "VARCHAR"), Col("description", "TEXT"), Col("price", "DECIMAL"),
       Col("category_id", "UUID")], 600.0, 400.0),
    Custom("categories", "Example_Categories",
      [Col("id", "UUID"), Col("name", "VARCHAR"), Col("created_at", "TIMESTAMP")], 900.0, 600.0),
    Custom("order_items", "Example_Order Items",
      [Col("id", "UUID"), Col("order_id", "UUID"), Col("product_id", "UUID"), Col("quantity", "INTEGER"),
       Col("subtotal", "DECIMAL")], 300.0, 600.0)
  ]

  const InitialEdges: seq<Edge> := [
    Rel("e1-2", "users", "orders", "user_id"),
    Rel("e2-5", "orders", "order_items", "order_id"),
    Rel("e3-5", "products", "order_items", "product_id"),
    Rel("e4-3", "categories", "products", "category_id")
  ]

  /** The five seed tables have pairwise distinct ids, and so do the four seed relationships. */
  lemma SeedIdsDistinct()
    ensures |InitialNodes| == 5 && DistinctNodeIds(InitialNodes)
    ensures |InitialEdges| == 4 && DistinctEdgeIds(InitialEdges)
  {
  }

  /** Every seed relationship starts and ends at a seed table. */
  lemma SeedEdgesReferenceNodes()
    ensures EdgesReferenceNodes(InitialNodes, InitialEdges)
  {
    var ids := NodeIds(InitialNodes);
    forall k | 0 <= k < 5 ensures InitialNodes[k].id in ids {
      assert InitialNodes[k] in InitialNodes;
    }
  }

  /** Every seed table is a `custom` node, and the seed written out as JSON is a
      response the model's schema admits. */
  lemma SeedConforms()
    ensures forall n :: n in InitialNodes ==> n.nodeType == Some("custom")
    ensures Conforms(DiagramToJson(InitialNodes, InitialEdges), DataModelSchema)
  {
    EncodedDiagramConforms(InitialNodes, InitialEdges);
  }
}
