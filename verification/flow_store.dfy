/**
 * The application-wide graph store (store/flow.store.ts) as pure state
 * transitions: each action maps the old `FlowState` to the new one.
 */
module FlowStore {
  import opened Wrappers
  import opened FlowTypes
  import opened Seqs

  /** Nodes, edges and the two selection slots; the type alone lets both slots be filled. */
  datatype FlowState = FlowState(
    nodes: seq<FlowNode>,
    edges: seq<FlowEdge>,
    selectedNode: Option<FlowNode>,
    selectedEdge: Option<FlowEdge>)

  /** The store's seed: two nodes, no edges, nothing selected. */
  function InitialState(): (s: FlowState)
    ensures |s.nodes| == 2 && s.nodes[0].id == "1" && s.nodes[1].id == "2"
    ensures s.nodes[0].data.labelText == "Start Process" && s.nodes[1].data.labelText == "Process Step"
    ensures forall i :: 0 <= i < |s.nodes| ==> s.nodes[i].kind == Some("custom")
    ensures s.edges == [] && s.selectedNode.None? && s.selectedEdge.None?
  {
    FlowState(
      [ FlowNode("1", Some("custom"), Position(250.0, 50.0),
                 NodeData("Start Process", Some("Beginning of workflow"), Some("Start"), NoFields)),
        FlowNode("2", Some("custom"), Position(250.0, 150.0),
                 NodeData("Process Step", Some("Main processing logic"), Some("Process"), NoFields)) ],
      [], None, None)
  }

  predicate HasNode(nodes: seq<FlowNode>, id: string) {
    exists j :: 0 <= j < |nodes| && nodes[j].id == id
  }

  /** The edge has `id` as an endpoint. */
  predicate Touches(e: FlowEdge, id: string) {
    e.source == id || e.target == id
  }

  /** The filter test `removeNode` applies to nodes. */
  function NodeSurvives(id: string): FlowNode -> bool {
    (n: FlowNode) => n.id != id
  }

  /** The filter test `removeNode` applies to edges. */
  function EdgeSurvives(id: string): FlowEdge -> bool {
    (e: FlowEdge) => !Touches(e, id)
  }

  /** The filter test `removeEdge` applies. */
  function EdgeKept(id: string): FlowEdge -> bool {
    (e: FlowEdge) => e.id != id
  }

  predicate AtMostOneSelected(s: FlowState) {
    s.selectedNode.None? || s.selectedEdge.None?
  }

  /** Every edge's endpoints name nodes of the graph. */
  predicate EdgesReferenceNodes(s: FlowState) {
    forall i :: 0 <= i < |s.edges| ==> HasNode(s.nodes, s.edges[i].source) && HasNode(s.nodes, s.edges[i].target)
  }

  /** `addNode`: append, with no check that the id is new. */
  function AddNode(s: FlowState, node: FlowNode): (r: FlowState)
    ensures |r.nodes| == |s.nodes| + 1 && r.nodes[|s.nodes|] == node
    ensures forall i :: 0 <= i < |s.nodes| ==> r.nodes[i] == s.nodes[i]
    ensures r.edges == s.edges && r.selectedNode == s.selectedNode && r.selectedEdge == s.selectedEdge
  {
    s.(nodes := s.nodes + [node])
  }

  /** `updateNode`: overlay `patch` onto the data of the nodes whose id matches. */
  function UpdateNode(s: FlowState, id: string, patch: NodeDataPatch): (r: FlowState)
    ensures |r.nodes| == |s.nodes|
    ensures forall i :: 0 <= i < |s.nodes| && s.nodes[i].id == id ==>
      r.nodes[i].id == id && r.nodes[i].kind == s.nodes[i].kind && r.nodes[i].position == s.nodes[i].position &&
      r.nodes[i].data == MergeNodeData(s.nodes[i].data, patch)
    ensures forall i :: 0 <= i < |s.nodes| && s.nodes[i].id != id ==> r.nodes[i] == s.nodes[i]
    ensures !HasNode(s.nodes, id) ==> r == s
    ensures r.edges == s.edges && r.selectedNode == s.selectedNode && r.selectedEdge == s.selectedEdge
  {
    var nodes := MapWhere(s.nodes, (n: FlowNode) => n.id == id, (n: FlowNode) => n.(data := MergeNodeData(n.data, patch)));
    assert !HasNode(s.nodes, id) ==> nodes == s.nodes;
    s.(nodes := nodes)
  }

  /**
   * `removeNode`: drop the node and every edge incident to it; clear `selectedNode`
   * when it is that node. `selectedEdge` is never looked at.
   */
  function RemoveNode(s: FlowState, id: string): (r: FlowState)
    ensures forall i :: 0 <= i < |r.nodes| ==> r.nodes[i].id != id && r.nodes[i] in s.nodes
    ensures forall i :: 0 <= i < |s.nodes| && s.nodes[i].id != id ==> s.nodes[i] in r.nodes
    ensures IsSubsequence(r.nodes, s.nodes) && |r.nodes| == Count(s.nodes, NodeSurvives(id))
    ensures forall i :: 0 <= i < |r.edges| ==> !Touches(r.edges[i], id) && r.edges[i] in s.edges
    ensures forall i :: 0 <= i < |s.edges| && !Touches(s.edges[i], id) ==> s.edges[i] in r.edges
    ensures IsSubsequence(r.edges, s.edges) && |r.edges| == Count(s.edges, EdgeSurvives(id))
    ensures s.selectedNode.Some? && s.selectedNode.value.id == id ==> r.selectedNode.None?
    ensures s.selectedNode.None? || s.selectedNode.value.id != id ==> r.selectedNode == s.selectedNode
    ensures r.selectedEdge == s.selectedEdge
  {
    FlowState(
      Filter(s.nodes, NodeSurvives(id)),
      Filter(s.edges, EdgeSurvives(id)),
      if s.selectedNode.Some? && s.selectedNode.value.id == id then None else s.selectedNode,
      s.selectedEdge)
  }

  /** `updateEdge`: shallow-merge `patch` into the edges whose id matches. */
  function UpdateEdge(s: FlowState, id: string, patch: EdgePatch): (r: FlowState)
    ensures |r.edges| == |s.edges|
    ensures forall i :: 0 <= i < |s.edges| && s.edges[i].id == id ==> r.edges[i] == MergeEdge(s.edges[i], patch)
    ensures forall i :: 0 <= i < |s.edges| && s.edges[i].id != id ==> r.edges[i] == s.edges[i]
    ensures r.nodes == s.nodes && r.selectedNode == s.selectedNode && r.selectedEdge == s.selectedEdge
  {
    s.(edges := MapWhere(s.edges, (e: FlowEdge) => e.id == id, (e: FlowEdge) => MergeEdge(e, patch)))
  }

  /** `removeEdge`: drop the edges with that id; clear `selectedEdge` when it has that id. */
  function RemoveEdge(s: FlowState, id: string): (r: FlowState)
    ensures forall i :: 0 <= i < |r.edges| ==> r.edges[i].id != id && r.edges[i] in s.edges
    ensures forall i :: 0 <= i < |s.edges| && s.edges[i].id != id ==> s.edges[i] in r.edges
    ensures IsSubsequence(r.edges, s.edges) && |r.edges| == Count(s.edges, EdgeKept(id))
    ensures s.selectedEdge.Some? && s.selectedEdge.value.id == id ==> r.selectedEdge.None?
    ensures s.selectedEdge.None? || s.selectedEdge.value.id != id ==> r.selectedEdge == s.selectedEdge
    ensures r.nodes == s.nodes && r.selectedNode == s.selectedNode
  {
    s.(edges := Filter(s.edges, EdgeKept(id)),
       selectedEdge := if s.selectedEdge.Some? && s.selectedEdge.value.id == id then None else s.selectedEdge)
  }

  /** `selectNode`: set the node slot and empty the edge slot. */
  function SelectNode(s: FlowState, node: Option<FlowNode>): (r: FlowState)
    ensures r.selectedNode == node && r.selectedEdge.None?
    ensures AtMostOneSelected(r)
    ensures r.nodes == s.nodes && r.edges == s.edges
  {
    s.(selectedNode := node, selectedEdge := None)
  }

  /** `selectEdge`: set the edge slot and empty the node slot. */
  function SelectEdge(s: FlowState, edge: Option<FlowEdge>): (r: FlowState)
    ensures r.selectedEdge == edge && r.selectedNode.None?
    ensures AtMostOneSelected(r)
    ensures r.nodes == s.nodes && r.edges == s.edges
  {
    s.(selectedEdge := edge, selectedNode := None)
  }

  /**
   * The decoration `onConnect` gives a connection before the diagram library's
   * `addEdge` (not modelled) assigns an id and appends it: a partial edge with no id.
   */
  function ConnectDecoration(c: Connection): (p: EdgePatch)
    ensures p.id.None?
    ensures p.source == Some(c.source) && p.target == Some(c.target)
    ensures p.sourceHandle == c.sourceHandle && p.targetHandle == c.targetHandle
    ensures p.kind == Some("smoothstep") && p.animated == Some(true)
    ensures p.style == Some(EdgeStyle(Some(2.0), Some("#3182ce"), NoFields))
    ensures p.data == Some(EdgeData(Some("Connection"), NoFields))
  {
    EdgePatch(None, Some(c.source), Some(c.target), c.sourceHandle, c.targetHandle,
              Some("smoothstep"), Some(EdgeData(Some("Connection"), NoFields)), Some(true),
              Some(EdgeStyle(Some(2.0), Some("#3182ce"), NoFields)))
  }

  /** The store's actions that are modelled, as events. */
  datatype Action =
    | SetNodes(nodes: seq<FlowNode>)
    | SetEdges(edges: seq<FlowEdge>)
    | AddNodeAction(node: FlowNode)
    | UpdateNodeAction(nodeId: string, patch: NodeDataPatch)
    | RemoveNodeAction(nodeId: string)
    | UpdateEdgeAction(edgeId: string, edgePatch: EdgePatch)
    | RemoveEdgeAction(edgeId: string)
    | SelectNodeAction(nodeOrNull: Option<FlowNode>)
    | SelectEdgeAction(edgeOrNull: Option<FlowEdge>)

  function Apply(s: FlowState, a: Action): FlowState {
    match a
    case SetNodes(ns) => s.(nodes := ns)
    case SetEdges(es) => s.(edges := es)
    case AddNodeAction(n) => AddNode(s, n)
    case UpdateNodeAction(id, p) => UpdateNode(s, id, p)
    case RemoveNodeAction(id) => RemoveNode(s, id)
    case UpdateEdgeAction(id, p) => UpdateEdge(s, id, p)
    case RemoveEdgeAction(id) => RemoveEdge(s, id)
    case SelectNodeAction(n) => SelectNode(s, n)
    case SelectEdgeAction(e) => SelectEdge(s, e)
  }

  function Run(s: FlowState, actions: seq<Action>): FlowState
    decreases |actions|
  {
    if |actions| == 0 then s else Run(Apply(s, actions[0]), actions[1..])
  }

  /** From the seed, no sequence of store actions ever fills both selection slots. */
  lemma {:induction false} SelectionStaysExclusive(s: FlowState, actions: seq<Action>)
    requires AtMostOneSelected(s)
    ensures AtMostOneSelected(Run(s, actions))
    decreases |actions|
  {
    if |actions| > 0 {
      SelectionStaysExclusive(Apply(s, actions[0]), actions[1..]);
    }
  }

  lemma InitialSelectionExclusive(actions: seq<Action>)
    ensures AtMostOneSelected(Run(InitialState(), actions))
  {
    SelectionStaysExclusive(InitialState(), actions);
  }

  /** `addNode` accepts a node whose id is taken: the ids are then no longer unique. */
  lemma AddNodeAllowsDuplicateId(s: FlowState, node: FlowNode)
    requires HasNode(s.nodes, node.id)
    ensures exists i, j :: 0 <= i < j < |AddNode(s, node).nodes| && AddNode(s, node).nodes[i].id == AddNode(s, node).nodes[j].id
  {
    var j :| 0 <= j < |s.nodes| && s.nodes[j].id == node.id;
    var r := AddNode(s, node);
    assert r.nodes[j].id == r.nodes[|s.nodes|].id;
  }

  /** Removing a node takes out exactly the edges incident to it, no more. */
  lemma RemoveNodeEdgeCount(s: FlowState, id: string)
    ensures |s.edges| - |RemoveNode(s, id).edges| == Count(s.edges, (e: FlowEdge) => Touches(e, id))
  {
    CountSplit(s.edges, (e: FlowEdge) => Touches(e, id), EdgeSurvives(id));
  }

  /** `removeNode` keeps a selected edge even when its cascade deleted that edge. */
  lemma RemoveNodeKeepsDanglingSelectedEdge(s: FlowState, id: string)
    requires s.selectedEdge.Some? && Touches(s.selectedEdge.value, id)
    ensures RemoveNode(s, id).selectedEdge == s.selectedEdge
    ensures s.selectedEdge.value !in RemoveNode(s, id).edges
  {
  }

  /** Removing a node keeps every surviving edge pointing at surviving nodes. */
  lemma RemoveNodePreservesReferences(s: FlowState, id: string)
    requires EdgesReferenceNodes(s)
    ensures EdgesReferenceNodes(RemoveNode(s, id))
  {
  }

  /** Removing a node after adding another equals removing it first and then adding. */
  lemma RemoveNodeAfterAddNode(s: FlowState, node: FlowNode, id: string)
    requires node.id != id
    ensures RemoveNode(AddNode(s, node), id).nodes == RemoveNode(s, id).nodes + [node]
    ensures RemoveNode(AddNode(s, node), id).edges == RemoveNode(s, id).edges
  {
    FilterConcat(s.nodes, [node], NodeSurvives(id));
  }

  /** Removing the same node twice is removing it once. */
  lemma RemoveNodeIdempotent(s: FlowState, id: string)
    ensures RemoveNode(RemoveNode(s, id), id) == RemoveNode(s, id)
  {
    FilterIdempotent(s.nodes, NodeSurvives(id));
    FilterIdempotent(s.edges, EdgeSurvives(id));
  }

  /** Applying the same node update twice is applying it once. */
  lemma UpdateNodeIdempotent(s: FlowState, id: string, patch: NodeDataPatch)
    ensures UpdateNode(UpdateNode(s, id, patch), id, patch) == UpdateNode(s, id, patch)
  {
    var r1 := UpdateNode(s, id, patch);
    var r2 := UpdateNode(r1, id, patch);
    forall i | 0 <= i < |s.nodes|
      ensures r2.nodes[i] == r1.nodes[i]
    {
      if s.nodes[i].id == id {
        MergeNodeDataIdempotent(s.nodes[i].data, patch);
      }
    }
  }

  /** Applying the same edge update twice is applying it once, even when the patch renames the edge. */
  lemma UpdateEdgeIdempotent(s: FlowState, id: string, patch: EdgePatch)
    ensures UpdateEdge(UpdateEdge(s, id, patch), id, patch) == UpdateEdge(s, id, patch)
  {
  }

  /** Removing the same edge id twice is removing it once. */
  lemma RemoveEdgeIdempotent(s: FlowState, id: string)
    ensures RemoveEdge(RemoveEdge(s, id), id) == RemoveEdge(s, id)
  {
    FilterIdempotent(s.edges, EdgeKept(id));
  }

  /** Selecting node A and then edge B leaves only B selected. */
  lemma SelectNodeThenEdge(s: FlowState, a: FlowNode, b: FlowEdge)
    ensures SelectEdge(SelectNode(s, Some(a)), Some(b)).selectedNode.None?
    ensures SelectEdge(SelectNode(s, Some(a)), Some(b)).selectedEdge == Some(b)
  {
  }
}
