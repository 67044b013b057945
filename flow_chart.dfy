/** The diagram canvas (frontend/src/components/FlowChart.tsx): deleting a table
    cascades to its relationships, deleting a relationship touches nothing else, and
    a new relationship goes through the label dialog. The library's `addEdge` is an
    input, and an anchor stands for the HTML element a context menu opens at. */
module FlowChart {
  import opened Wrappers
  import opened Seqs
  import opened Diagram

  datatype ElementKind = NodeElement | EdgeElement

  /** `selectedElement`: what a context menu was opened on. */
  datatype Selection = Selection(id: string, kind: ElementKind)

  /** A drag between two tables, before it becomes an edge. */
  datatype Connection = Connection(source: string, target: string)

  /** The element a context menu is anchored at. */
  datatype Anchor = Anchor(handle: nat)

  /** `nds.filter((node) => node.id !== nodeId)`. */
  function NodesWithout(nodes: seq<Node>, id: string): (r: seq<Node>)
    ensures forall n :: n in r <==> n in nodes && n.id != id
    ensures IsSubsequence(r, nodes)
    ensures forall n :: multiset(r)[n] == if n.id != id then multiset(nodes)[n] else 0
  {
    Filter(nodes, (n: Node) => n.id != id)
  }

  /** `eds.filter((edge) => edge.source !== nodeId && edge.target !== nodeId)`. */
  function EdgesNotTouching(edges: seq<Edge>, id: string): (r: seq<Edge>)
    ensures forall e :: e in r <==> e in edges && e.source != id && e.target != id
    ensures IsSubsequence(r, edges)
    ensures forall e :: multiset(r)[e] == if e.source != id && e.target != id then multiset(edges)[e] else 0
  {
    Filter(edges, (e: Edge) => e.source != id && e.target != id)
  }

  /** `eds.filter((edge) => edge.id !== selectedElement.id)`. */
  function EdgesWithout(edges: seq<Edge>, id: string): (r: seq<Edge>)
    ensures forall e :: e in r <==> e in edges && e.id != id
    ensures IsSubsequence(r, edges)
    ensures forall e :: multiset(r)[e] == if e.id != id then multiset(edges)[e] else 0
  {
    Filter(edges, (e: Edge) => e.id != id)
  }

  /** Deleting a table and the relationships that touch it keeps every remaining
      relationship between tables that exist, and none of them mentions the table. */
  lemma DeleteNodeKeepsIntegrity(nodes: seq<Node>, edges: seq<Edge>, id: string)
    requires EdgesReferenceNodes(nodes, edges)
    ensures EdgesReferenceNodes(NodesWithout(nodes, id), EdgesNotTouching(edges, id))
    ensures id !in NodeIds(NodesWithout(nodes, id))
    ensures forall e :: e in EdgesNotTouching(edges, id) ==> e.source != id && e.target != id
  {
    var kept := NodesWithout(nodes, id);
    forall e | e in EdgesNotTouching(edges, id)
      ensures e.source in NodeIds(kept) && e.target in NodeIds(kept)
    {
      var s :| s in nodes && s.id == e.source;
      var t :| t in nodes && t.id == e.target;
      assert s in kept && t in kept;
    }
  }

  /** Deleting relationships never breaks integrity. */
  lemma DeleteEdgeKeepsIntegrity(nodes: seq<Node>, edges: seq<Edge>, id: string)
    requires EdgesReferenceNodes(nodes, edges)
    ensures EdgesReferenceNodes(nodes, EdgesWithout(edges, id))
  {
  }

  /** The canvas state: its own copies of the tables and relationships, the parent's
      `manualNodes` (changed through `setManualNodes`), the context menu and the
      new-relationship dialog. */
  class Canvas {
    var nodes: seq<Node>
    var edges: seq<Edge>
    var manualNodes: seq<Node>
    var selectedElement: Option<Selection>
    var menuAnchor: Option<Anchor>
    var newEdge: Option<Connection>
    var edgeLabel: string
    var isModalOpen: bool

    constructor (nodes: seq<Node>, edges: seq<Edge>, manualNodes: seq<Node>)
      ensures this.nodes == nodes && this.edges == edges && this.manualNodes == manualNodes
      ensures selectedElement == None && menuAnchor == None
      ensures newEdge == None && edgeLabel == "" && !isModalOpen
    {
      this.nodes := nodes;
      this.edges := edges;
      this.manualNodes := manualNodes;
      selectedElement := None;
      menuAnchor := None;
      newEdge := None;
      edgeLabel := "";
      isModalOpen := false;
    }

    /** Referential integrity of the canvas. */
    predicate Consistent()
      reads this
    {
      EdgesReferenceNodes(nodes, edges)
    }

    /** `onConnect(params)`: remember the connection and open the dialog. */
    method OnConnect(params: Connection)
      modifies this
      ensures newEdge == Some(params) && isModalOpen
      ensures nodes == old(nodes) && edges == old(edges) && manualNodes == old(manualNodes)
      ensures edgeLabel == old(edgeLabel) && selectedElement == old(selectedElement) && menuAnchor == old(menuAnchor)
    {
      newEdge := Some(params);
      isModalOpen := true;
    }

    /** The dialog's label field. */
    method SetEdgeLabel(value: string)
      modifies this
      ensures edgeLabel == value
      ensures nodes == old(nodes) && edges == old(edges) && manualNodes == old(manualNodes)
      ensures newEdge == old(newEdge) && isModalOpen == old(isModalOpen)
      ensures selectedElement == old(selectedElement) && menuAnchor == old(menuAnchor)
    {
      edgeLabel := value;
    }

    /** `handleAddEdge()`: without a pending connection nothing happens; otherwise the
        labelled connection is handed to `addEdge`, and the label and dialog are reset.
        The pending connection itself stays. */
    method HandleAddEdge(addEdge: (Connection, string, seq<Edge>) -> seq<Edge>)
      modifies this
      ensures old(newEdge).None? ==>
        edges == old(edges) && edgeLabel == old(edgeLabel) && isModalOpen == old(isModalOpen)
      ensures old(newEdge).Some? ==>
        edges == addEdge(old(newEdge).value, old(edgeLabel), old(edges)) && edgeLabel == "" && !isModalOpen
      ensures nodes == old(nodes) && manualNodes == old(manualNodes) && newEdge == old(newEdge)
      ensures selectedElement == old(selectedElement) && menuAnchor == old(menuAnchor)
    {
      if newEdge.Some? {
        edges := addEdge(newEdge.value, edgeLabel, edges);
        edgeLabel := "";
        isModalOpen := false;
      }
    }

    /** `handleModalClose()`. */
    method HandleModalClose()
      modifies this
      ensures edgeLabel == "" && !isModalOpen
      ensures nodes == old(nodes) && edges == old(edges) && manualNodes == old(manualNodes) && newEdge == old(newEdge)
      ensures selectedElement == old(selectedElement) && menuAnchor == old(menuAnchor)
    {
      edgeLabel := "";
      isModalOpen := false;
    }

    /** `handleNodeContextMenu` and `handleEdgeContextMenu`. */
    method OpenContextMenu(id: string, kind: ElementKind, anchor: Anchor)
      modifies this
      ensures selectedElement == Some(Selection(id, kind)) && menuAnchor == Some(anchor)
      ensures nodes == old(nodes) && edges == old(edges) && manualNodes == old(manualNodes)
      ensures newEdge == old(newEdge) && edgeLabel == old(edgeLabel) && isModalOpen == old(isModalOpen)
    {
      selectedElement := Some(Selection(id, kind));
      menuAnchor := Some(anchor);
    }

    /** `handleDelete()`: a selected table goes with every relationship touching it and
        its manual copy; a selected relationship goes alone; the menu closes either way. */
    method HandleDelete()
      modifies this
      ensures old(selectedElement).Some? && old(selectedElement).value.kind == NodeElement ==>
        var id := old(selectedElement).value.id;
        nodes == NodesWithout(old(nodes), id) && edges == EdgesNotTouching(old(edges), id)
        && manualNodes == NodesWithout(old(manualNodes), id)
      ensures old(selectedElement).Some? && old(selectedElement).value.kind == EdgeElement ==>
        nodes == old(nodes) && edges == EdgesWithout(old(edges), old(selectedElement).value.id)
        && manualNodes == old(manualNodes)
      ensures old(selectedElement).None? ==>
        nodes == old(nodes) && edges == old(edges) && manualNodes == old(manualNodes)
      ensures old(Consistent()) ==> Consistent()
      ensures selectedElement == None && menuAnchor == None
      ensures newEdge == old(newEdge) && edgeLabel == old(edgeLabel) && isModalOpen == old(isModalOpen)
    {
      var newNodes, newEdges, newManual := nodes, edges, manualNodes;
      if selectedElement.Some? && selectedElement.value.kind == NodeElement {
        var nodeId := selectedElement.value.id;
        newNodes := NodesWithout(nodes, nodeId);
        newEdges := EdgesNotTouching(edges, nodeId);
        newManual := NodesWithout(manualNodes, nodeId);
        if EdgesReferenceNodes(nodes, edges) {
          DeleteNodeKeepsIntegrity(nodes, edges, nodeId);
        }
      } else if selectedElement.Some? && selectedElement.value.kind == EdgeElement {
        newEdges := EdgesWithout(edges, selectedElement.value.id);
        if EdgesReferenceNodes(nodes, edges) {
          DeleteEdgeKeepsIntegrity(nodes, edges, selectedElement.value.id);
        }
      }
      assert EdgesReferenceNodes(nodes, edges) ==> EdgesReferenceNodes(newNodes, newEdges);
      nodes, edges, manualNodes := newNodes, newEdges, newManual;
      menuAnchor, selectedElement := None, None;
    }

    /** `handleMenuClose()`. */
    method HandleMenuClose()
      modifies this
      ensures selectedElement == None && menuAnchor == None
      ensures nodes == old(nodes) && edges == old(edges) && manualNodes == old(manualNodes)
      ensures newEdge == old(newEdge) && edgeLabel == old(edgeLabel) && isModalOpen == old(isModalOpen)
    {
      menuAnchor := None;
      selectedElement := None;
    }
  }
}
