/**
 * The handlers the running editor page uses (app/page.tsx): adding a node from
 * the pending form data, removing the selected node, and saving the selected
 * node's edited data. Placement is random and viewport-dependent, so the new
 * node's position is a parameter.
 */
module EditorPage {
  import opened Wrappers
  import opened FlowTypes
  import opened Seqs
  import opened Decimal
  import opened FlowUtils
  import FlowStore

  datatype PageState = PageState(
    nodes: seq<FlowNode>,
    edges: seq<FlowEdge>,
    selectedNode: Option<FlowNode>,
    nodeFormOpen: bool,
    newNodeFormOpen: bool,
    newNodeData: NodeData,
    hasInstance: bool)

  /** The form data a new node starts from after every add. */
  const ResetNodeData := NodeData("New Node", Some("Example description"), Some("Process"), NoFields)

  /** The page's first render: two nodes joined by one edge, no diagram instance yet. */
  function Initial(): (p: PageState)
    ensures |p.nodes| == 2 && p.nodes[0].id == "1" && p.nodes[1].id == "2"
    ensures forall i :: 0 <= i < |p.nodes| ==> p.nodes[i].kind == Some(CustomKind)
    ensures |p.edges| == 1 && p.edges[0].id == "e1-2" && p.edges[0].source == "1" && p.edges[0].target == "2"
    ensures p.edges[0].animated == Some(true)
    ensures p.selectedNode.None? && !p.nodeFormOpen && !p.newNodeFormOpen && !p.hasInstance
    ensures p.newNodeData == NodeData("New Node", Some(""), Some("Process"), NoFields)
  {
    PageState(
      [ FlowNode("1", Some(CustomKind), Position(250.0, 50.0),
                 NodeData("Start Process", Some("Beginning of workflow"), Some("Start"), NoFields)),
        FlowNode("2", Some(CustomKind), Position(250.0, 150.0),
                 NodeData("Process Step", Some("Main processing logic"), Some("Process"), NoFields)) ],
      [ FlowEdge("e1-2", "1", "2", None, None, None, None, Some(true), None) ],
      None, false, false,
      NodeData("New Node", Some(""), Some("Process"), NoFields),
      false)
  }

  /** `onInit`: the diagram instance becomes available. */
  function OnInit(p: PageState): (r: PageState)
    ensures r.hasInstance
    ensures r.nodes == p.nodes && r.edges == p.edges && r.selectedNode == p.selectedNode
    ensures r.nodeFormOpen == p.nodeFormOpen && r.newNodeFormOpen == p.newNodeFormOpen && r.newNodeData == p.newNodeData
  {
    p.(hasInstance := true)
  }

  /** `onNodeClick`: remember a snapshot of the node and open its form. */
  function OnNodeClick(p: PageState, node: FlowNode): (r: PageState)
    ensures r.selectedNode == Some(node) && r.nodeFormOpen
    ensures r.nodes == p.nodes && r.edges == p.edges && r.newNodeFormOpen == p.newNodeFormOpen && r.hasInstance == p.hasInstance
    ensures r.newNodeData == p.newNodeData
  {
    p.(selectedNode := Some(node), nodeFormOpen := true)
  }

  /** The id `addNode` gives a node added to a list of `count` nodes. */
  function PageNodeId(count: nat): string {
    NodeIdAt(count + 1)
  }

  /**
   * `addNode`: without a diagram instance nothing happens; otherwise append a
   * "custom" node carrying the pending form data, with an id computed from the
   * current length, close the add form and reset the pending data.
   */
  function AddNode(p: PageState, position: Position): (r: PageState)
    ensures !p.hasInstance ==> r == p
    ensures p.hasInstance ==>
      && |r.nodes| == |p.nodes| + 1
      && (forall i :: 0 <= i < |p.nodes| ==> r.nodes[i] == p.nodes[i])
      && r.nodes[|p.nodes|] == FlowNode(NodeIdPrefix + NatToString(|p.nodes| + 1), Some("custom"), position, p.newNodeData)
      && !r.newNodeFormOpen && r.newNodeData == ResetNodeData
      && r.edges == p.edges && r.selectedNode == p.selectedNode && r.nodeFormOpen == p.nodeFormOpen
      && r.hasInstance == p.hasInstance
  {
    if !p.hasInstance then p
    else
      var node := FlowNode(PageNodeId(|p.nodes|), Some(CustomKind), position, p.newNodeData);
      p.(nodes := p.nodes + [node], newNodeFormOpen := false, newNodeData := ResetNodeData)
  }

  /**
   * `removeNode`: without a selection nothing happens; otherwise drop the selected
   * node and exactly the edges incident to it, clear the selection and close the form.
   */
  function RemoveNode(p: PageState): (r: PageState)
    ensures p.selectedNode.None? ==> r == p
    ensures p.selectedNode.Some? ==>
      && (forall i :: 0 <= i < |r.nodes| ==> r.nodes[i].id != p.selectedNode.value.id)
      && (forall i :: 0 <= i < |p.nodes| && p.nodes[i].id != p.selectedNode.value.id ==> p.nodes[i] in r.nodes)
      && IsSubsequence(r.nodes, p.nodes) && |r.nodes| == Count(p.nodes, FlowStore.NodeSurvives(p.selectedNode.value.id))
      && (forall i :: 0 <= i < |r.edges| ==> !FlowStore.Touches(r.edges[i], p.selectedNode.value.id))
      && (forall i :: 0 <= i < |p.edges| && !FlowStore.Touches(p.edges[i], p.selectedNode.value.id) ==> p.edges[i] in r.edges)
      && IsSubsequence(r.edges, p.edges) && |r.edges| == Count(p.edges, FlowStore.EdgeSurvives(p.selectedNode.value.id))
      && r.selectedNode.None? && !r.nodeFormOpen
      && r.newNodeFormOpen == p.newNodeFormOpen && r.newNodeData == p.newNodeData && r.hasInstance == p.hasInstance
  {
    match p.selectedNode
    case None => p
    case Some(sel) =>
      var g := FlowStore.RemoveNode(FlowStore.FlowState(p.nodes, p.edges, None, None), sel.id);
      p.(nodes := g.nodes, edges := g.edges, selectedNode := None, nodeFormOpen := false)
  }

  /**
   * `updateNodeData`: without a selection nothing happens; otherwise every node with
   * the selected id gets the snapshot's data in place of its own (no merge), keeping
   * its id, type and position; the node form closes.
   */
  function UpdateNodeData(p: PageState): (r: PageState)
    ensures p.selectedNode.None? ==> r == p
    ensures p.selectedNode.Some? ==>
      && |r.nodes| == |p.nodes|
      && (forall i :: 0 <= i < |p.nodes| && p.nodes[i].id == p.selectedNode.value.id ==>
            r.nodes[i] == FlowNode(p.nodes[i].id, p.nodes[i].kind, p.nodes[i].position, p.selectedNode.value.data))
      && (forall i :: 0 <= i < |p.nodes| && p.nodes[i].id != p.selectedNode.value.id ==> r.nodes[i] == p.nodes[i])
      && !r.nodeFormOpen
      && r.edges == p.edges && r.selectedNode == p.selectedNode
      && r.newNodeFormOpen == p.newNodeFormOpen && r.newNodeData == p.newNodeData && r.hasInstance == p.hasInstance
  {
    match p.selectedNode
    case None => p
    case Some(sel) =>
      p.(nodes := MapWhere(p.nodes, (n: FlowNode) => n.id == sel.id, (n: FlowNode) => n.(data := sel.data)),
         nodeFormOpen := false)
  }

  /** Saving the same snapshot twice is saving it once. */
  lemma UpdateNodeDataIdempotent(p: PageState)
    ensures UpdateNodeData(UpdateNodeData(p)) == UpdateNodeData(p)
  {
  }

  /**
   * Saving replaces rather than merges: an extra key the stored node has and the
   * snapshot lacks is gone afterwards, unlike the store's `updateNode`, which keeps it.
   */
  lemma UpdateNodeDataDropsKeysMissingFromSnapshot(p: PageState, i: nat, k: string)
    requires p.selectedNode.Some? && i < |p.nodes| && p.nodes[i].id == p.selectedNode.value.id
    requires k in p.nodes[i].data.extra && k !in p.selectedNode.value.data.extra
    ensures k !in UpdateNodeData(p).nodes[i].data.extra
    ensures k in FlowStore.UpdateNode(FlowStore.FlowState(p.nodes, p.edges, None, None), p.nodes[i].id,
                                      NodeDataPatch(None, None, None, p.selectedNode.value.data.extra)).nodes[i].data.extra
  {
  }

  /** Removing the selected node takes out exactly the edges incident to it. */
  lemma RemoveNodeEdgeCount(p: PageState)
    requires p.selectedNode.Some?
    ensures |p.edges| - |RemoveNode(p).edges| == Count(p.edges, (e: FlowEdge) => FlowStore.Touches(e, p.selectedNode.value.id))
  {
    FlowStore.RemoveNodeEdgeCount(FlowStore.FlowState(p.nodes, p.edges, None, None), p.selectedNode.value.id);
  }

  /** Whenever the length-based id is already taken, `addNode` creates a second node with it. */
  lemma AddNodeRepeatsTakenId(p: PageState, position: Position, j: nat)
    requires p.hasInstance
    requires j < |p.nodes| && p.nodes[j].id == PageNodeId(|p.nodes|)
    ensures AddNode(p, position).nodes[j].id == AddNode(p, position).nodes[|p.nodes|].id
  {
  }

  /**
   * From the first render: add a node ("node-3"), select node "1", remove it, add
   * again. The second new node is also "node-3".
   */
  lemma IdReuseAfterDeletion(pos1: Position, pos2: Position)
    ensures var p1 := AddNode(OnInit(Initial()), pos1);
            var p2 := RemoveNode(OnNodeClick(p1, p1.nodes[0]));
            var p3 := AddNode(p2, pos2);
            |p3.nodes| == 3 && p3.nodes[1].id == "node-3" && p3.nodes[2].id == "node-3"
  {
    var p0 := OnInit(Initial());
    var p1 := AddNode(p0, pos1);
    assert NatToString(3) == "3";
    assert p1.nodes[2].id == "node-3";
    var p2 := RemoveNode(OnNodeClick(p1, p1.nodes[0]));
    var keep := FlowStore.NodeSurvives("1");
    assert p2.nodes == Filter(p1.nodes, keep);
    assert p1.nodes[1..][1..] == [p1.nodes[2]];
    assert Filter(p1.nodes[1..][1..], keep) == [p1.nodes[2]];
    assert p2.nodes == [p1.nodes[1], p1.nodes[2]];
    var p3 := AddNode(p2, pos2);
    assert p3.nodes[2].id == "node-3";
  }
}
