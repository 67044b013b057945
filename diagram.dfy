/** The records the diagram is made of: tables (nodes) with their columns, and
    relationships (edges) between tables. `type` and `label` are Dafny keywords, so
    the source's `type` of a node and of a column are named `nodeType` and `dataType`,
    a node's `data.label` is `data.tableName` and an edge's `label` is `relationship`. */
module Diagram {
  import opened Wrappers

  datatype Column = Column(name: string, dataType: string, constraints: Option<string>)
  datatype NodeData = NodeData(tableName: string, schema: seq<Column>)
  datatype Position = Position(x: real, y: real)
  datatype Node = Node(id: string, nodeType: Option<string>, data: NodeData, position: Option<Position>)
  datatype Edge = Edge(id: string, source: string, target: string, relationship: Option<string>)

  /** The ids of `nodes`, as a set. */
  function NodeIds(nodes: seq<Node>): (ids: set<string>)
    ensures forall n :: n in nodes ==> n.id in ids
    ensures forall id :: id in ids ==> exists n :: n in nodes && n.id == id
  {
    set n | n in nodes :: n.id
  }

  /** Referential integrity: every edge starts and ends at a node that exists. */
  predicate EdgesReferenceNodes(nodes: seq<Node>, edges: seq<Edge>) {
    forall e :: e in edges ==> e.source in NodeIds(nodes) && e.target in NodeIds(nodes)
  }

  predicate DistinctNodeIds(nodes: seq<Node>) {
    forall i, j :: 0 <= i < j < |nodes| ==> nodes[i].id != nodes[j].id
  }

  predicate DistinctEdgeIds(edges: seq<Edge>) {
    forall i, j :: 0 <= i < j < |edges| ==> edges[i].id != edges[j].id
  }
}
