/** The response schema handed to the JSON-constrained model (backend/schemaAI.js),
    a structural conformance check against it, and the JSON encoding of the
    diagram records, which always conforms. */
module SchemaAI {
  import opened Wrappers
  import opened Json
  import opened Diagram

  /** A node of the schema object literal, one constructor per `SchemaType` it uses. */
  datatype Schema =
    | StringSchema(description: Option<string>)
    | NumberSchema(description: Option<string>)
    | ArraySchema(description: Option<string>, items: Schema)
    | ObjectSchema(description: Option<string>, properties: seq<(string, Schema)>, required: seq<string>)

  const ColumnSchema: Schema := ObjectSchema(None, [
    ("name", StringSchema(Some("Column Name"))),
    ("type", StringSchema(Some("Data Type"))),
    ("constraints", StringSchema(Some("Constraints")))
  ], ["name", "type"])

  const NodeSchema: Schema := ObjectSchema(None, [
    ("id", StringSchema(Some("Table ID"))),
    ("type", StringSchema(Some("Table type"))),
    ("data", ObjectSchema(None, [
      ("label", StringSchema(Some("Table Name"))),
      ("schema", ArraySchema(Some("List of column definitions"), ColumnSchema))
    ], [])),
    ("position", ObjectSchema(None, [
      ("x", NumberSchema(Some("X position"))),
      ("y", NumberSchema(Some("Y position")))
    ], []))
  ], ["id", "data"])

  const EdgeSchema: Schema := ObjectSchema(None, [
    ("id", StringSchema(Some("Edge ID"))),
    ("source", StringSchema(Some("Source Table"))),
    ("target", StringSchema(Some("Target Table"))),
    ("label", StringSchema(Some("Relationship Name")))
  ], ["id", "source", "target"])

  /** `schemaAI.schemaOne`. */
  const DataModelSchema: Schema := ObjectSchema(Some("Database Table Schema"), [
    ("nodes", ArraySchema(Some("List of database tables"), NodeSchema)),
    ("edges", ArraySchema(Some("List of table relationships"), EdgeSchema))
  ], ["nodes", "edges"])

  /** `v` has the shape `s` describes: the right JSON kind at every level, every
      required key present, and every declared property that is present conforming.
      Keys the schema does not declare are allowed. */
  predicate Conforms(v: JsonValue, s: Schema)
    decreases s
  {
    match s
    case StringSchema(_) => v.JString?
    case NumberSchema(_) => v.JNumber?
    case ArraySchema(_, item) =>
      v.JArray? && forall i :: 0 <= i < |v.items| ==> Conforms(v.items[i], item)
    case ObjectSchema(_, props, req) =>
      && v.JObject?
      && (forall k :: k in req ==> k in v.fields)
      && forall i :: 0 <= i < |props| ==> props[i].0 in v.fields ==> Conforms(v.fields[props[i].0], props[i].1)
  }

  /** A conforming response is an object carrying both `nodes` and `edges`, each an array. */
  lemma ConformingTopLevel(v: JsonValue)
    requires Conforms(v, DataModelSchema)
    ensures v.JObject? && "nodes" in v.fields && "edges" in v.fields
    ensures v.fields["nodes"].JArray? && v.fields["edges"].JArray?
  {
    assert DataModelSchema.properties[0].0 == "nodes";
    assert DataModelSchema.properties[1].0 == "edges";
  }

  /** Every node of a conforming response has a string `id` and an object `data`;
      `type`, when present, is a string. */
  lemma ConformingNode(v: JsonValue, i: nat)
    requires Conforms(v, DataModelSchema)
    requires "nodes" in v.fields && v.fields["nodes"].JArray? && i < |v.fields["nodes"].items|
    ensures var node := v.fields["nodes"].items[i];
      && node.JObject? && "id" in node.fields && "data" in node.fields
      && node.fields["id"].JString? && node.fields["data"].JObject?
      && ("type" in node.fields ==> node.fields["type"].JString?)
  {
    assert DataModelSchema.properties[0].0 == "nodes";
    var node := v.fields["nodes"].items[i];
    assert Conforms(node, NodeSchema);
    assert NodeSchema.properties[0].0 == "id";
    assert NodeSchema.properties[1].0 == "type";
    assert NodeSchema.properties[2].0 == "data";
  }

  /** Every column of every conforming node that has a column list has a string
      `name` and a string `type`; `constraints`, when present, is a string. */
  lemma ConformingColumn(node: JsonValue, j: nat)
    requires Conforms(node, NodeSchema)
    requires node.JObject? && "data" in node.fields && node.fields["data"].JObject?
    requires "schema" in node.fields["data"].fields
    requires node.fields["data"].fields["schema"].JArray? && j < |node.fields["data"].fields["schema"].items|
    ensures var col := node.fields["data"].fields["schema"].items[j];
      && col.JObject? && "name" in col.fields && "type" in col.fields
      && col.fields["name"].JString? && col.fields["type"].JString?
      && ("constraints" in col.fields ==> col.fields["constraints"].JString?)
  {
    assert NodeSchema.properties[2].0 == "data";
    var data := node.fields["data"];
    var dataSchema := NodeSchema.properties[2].1;
    assert Conforms(data, dataSchema);
    assert dataSchema.properties[1].0 == "schema";
    var col := data.fields["schema"].items[j];
    assert Conforms(col, ColumnSchema);
    assert ColumnSchema.properties[0].0 == "name";
    assert ColumnSchema.properties[1].0 == "type";
    assert ColumnSchema.properties[2].0 == "constraints";
  }

  /** Every edge of a conforming response has string `id`, `source` and `target`. */
  lemma ConformingEdge(v: JsonValue, i: nat)
    requires Conforms(v, DataModelSchema)
    requires "edges" in v.fields && v.fields["edges"].JArray? && i < |v.fields["edges"].items|
    ensures var edge := v.fields["edges"].items[i];
      && edge.JObject? && "id" in edge.fields && "source" in edge.fields && "target" in edge.fields
      && edge.fields["id"].JString? && edge.fields["source"].JString? && edge.fields["target"].JString?
  {
    assert DataModelSchema.properties[1].0 == "edges";
    var edge := v.fields["edges"].items[i];
    assert Conforms(edge, EdgeSchema);
    assert EdgeSchema.properties[0].0 == "id";
    assert EdgeSchema.properties[1].0 == "source";
    assert EdgeSchema.properties[2].0 == "target";
  }

  /** A node with only an `id` and an empty `data` object. */
  const BareNode: JsonValue := JObject(map["id" := JString("users"), "data" := JObject(map[])])

  /** An edge to a table named `orders`. */
  const DanglingEdge: JsonValue :=
    JObject(map["id" := JString("e1"), "source" := JString("users"), "target" := JString("orders")])

  const DanglingResponse: JsonValue := JObject(map["nodes" := JArray([BareNode]), "edges" := JArray([DanglingEdge])])

  lemma BareNodeConforms()
    ensures Conforms(BareNode, NodeSchema)
  {
    assert forall i :: 0 <= i < |NodeSchema.properties| ==> NodeSchema.properties[i].0 in BareNode.fields ==> i == 0 || i == 2;
  }

  lemma DanglingEdgeConforms()
    ensures Conforms(DanglingEdge, EdgeSchema)
  {
    assert forall i :: 0 <= i < |EdgeSchema.properties| ==> EdgeSchema.properties[i].0 in DanglingEdge.fields ==> i < 3;
  }

  /** The schema asks for no cross-reference between edges and nodes, and leaves a
      node's `type`, `position`, `data.label` and `data.schema` optional: a response
      with one bare node and an edge to a table that does not exist conforms. */
  lemma SchemaAllowsDanglingEdge()
    ensures Conforms(DanglingResponse, DataModelSchema)
    ensures var edge := DanglingResponse.fields["edges"].items[0];
      forall node :: node in DanglingResponse.fields["nodes"].items ==> node.fields["id"] != edge.fields["target"]
  {
    DanglingResponseConforms();
    assert DanglingResponse.fields["nodes"].items == [BareNode];
  }

  lemma DanglingResponseConforms()
    ensures Conforms(DanglingResponse, DataModelSchema)
  {
    BareNodeConforms();
    DanglingEdgeConforms();
    assert Conforms(JArray([BareNode]), DataModelSchema.properties[0].1);
    assert Conforms(JArray([DanglingEdge]), DataModelSchema.properties[1].1);
  }

  // The JSON form of the diagram records: optional fields are left out when absent.

  function ColumnToJson(c: Column): JsonValue {
    var m := map["name" := JString(c.name), "type" := JString(c.dataType)];
    JObject(if c.constraints.Some? then m["constraints" := JString(c.constraints.value)] else m)
  }

  function DataToJson(d: NodeData): JsonValue {
    var columns := seq(|d.schema|, j requires 0 <= j < |d.schema| => ColumnToJson(d.schema[j]));
    JObject(map["label" := JString(d.tableName), "schema" := JArray(columns)])
  }

  function PositionToJson(p: Position): JsonValue {
    JObject(map["x" := JNumber(p.x), "y" := JNumber(p.y)])
  }

  function NodeToJson(n: Node): JsonValue {
    var m := map["id" := JString(n.id), "data" := DataToJson(n.data)];
    var m1 := if n.nodeType.Some? then m["type" := JString(n.nodeType.value)] else m;
    JObject(if n.position.Some? then m1["position" := PositionToJson(n.position.value)] else m1)
  }

  function EdgeToJson(e: Edge): JsonValue {
    var m := map["id" := JString(e.id), "source" := JString(e.source), "target" := JString(e.target)];
    JObject(if e.relationship.Some? then m["label" := JString(e.relationship.value)] else m)
  }

  function DiagramToJson(nodes: seq<Node>, edges: seq<Edge>): JsonValue {
    JObject(map[
      "nodes" := JArray(seq(|nodes|, i requires 0 <= i < |nodes| => NodeToJson(nodes[i]))),
      "edges" := JArray(seq(|edges|, i requires 0 <= i < |edges| => EdgeToJson(edges[i])))
    ])
  }

  lemma ColumnConforms(c: Column)
    ensures Conforms(ColumnToJson(c), ColumnSchema)
  {
  }

  lemma DataConforms(d: NodeData)
    ensures Conforms(DataToJson(d), NodeSchema.properties[2].1)
  {
    var v := DataToJson(d);
    forall j | 0 <= j < |d.schema| ensures Conforms(v.fields["schema"].items[j], ColumnSchema) {
      ColumnConforms(d.schema[j]);
    }
  }

  lemma NodeConforms(n: Node)
    ensures Conforms(NodeToJson(n), NodeSchema)
  {
    DataConforms(n.data);
    var v := NodeToJson(n);
    assert v.fields["data"] == DataToJson(n.data);
    if n.position.Some? {
      assert Conforms(PositionToJson(n.position.value), NodeSchema.properties[3].1);
    }
  }

  /** Every diagram the frontend holds, written out as JSON, is a response the schema admits. */
  lemma EncodedDiagramConforms(nodes: seq<Node>, edges: seq<Edge>)
    ensures Conforms(DiagramToJson(nodes, edges), DataModelSchema)
  {
    EncodedNodesConform(nodes, edges);
    EncodedEdgesConform(nodes, edges);
  }

  lemma EncodedNodesConform(nodes: seq<Node>, edges: seq<Edge>)
    ensures Conforms(DiagramToJson(nodes, edges).fields["nodes"], DataModelSchema.properties[0].1)
  {
    var items := DiagramToJson(nodes, edges).fields["nodes"].items;
    forall i | 0 <= i < |nodes| ensures Conforms(items[i], NodeSchema) {
      NodeConforms(nodes[i]);
    }
  }

  lemma EncodedEdgesConform(nodes: seq<Node>, edges: seq<Edge>)
    ensures Conforms(DiagramToJson(nodes, edges).fields["edges"], DataModelSchema.properties[1].1)
  {
    var items := DiagramToJson(nodes, edges).fields["edges"].items;
    forall i | 0 <= i < |edges| ensures Conforms(items[i], EdgeSchema) {
      EdgeConforms(edges[i]);
    }
  }

  lemma EdgeConforms(e: Edge)
    ensures Conforms(EdgeToJson(e), EdgeSchema)
  {
  }
}
