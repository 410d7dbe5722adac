/**
 * The selection and form-visibility state of the editor hook
 * (hooks/useFlowEditor.ts). Each callback's setter calls take effect together.
 */
module FlowSelection {
  import opened Wrappers
  import opened FlowTypes

  datatype SelectionState = SelectionState(
    selectedNode: Option<FlowNode>,
    selectedEdge: Option<FlowEdge>,
    nodeFormOpen: bool,
    edgeFormOpen: bool)

  predicate AtMostOneSelected(s: SelectionState) {
    s.selectedNode.None? || s.selectedEdge.None?
  }

  /** Nothing selected, both forms closed. */
  function Initial(): (s: SelectionState)
    ensures s.selectedNode.None? && s.selectedEdge.None? && !s.nodeFormOpen && !s.edgeFormOpen
  {
    SelectionState(None, None, false, false)
  }

  /** `onNodeClick`: select the node, drop the edge selection, open the node form. */
  function OnNodeClick(s: SelectionState, node: FlowNode): (r: SelectionState)
    ensures r.selectedNode == Some(node) && r.selectedEdge.None?
    ensures r.nodeFormOpen && r.edgeFormOpen == s.edgeFormOpen
  {
    s.(selectedNode := Some(node), selectedEdge := None, nodeFormOpen := true)
  }

  /** `onEdgeClick`: select the edge, drop the node selection, open the edge form. */
  function OnEdgeClick(s: SelectionState, edge: FlowEdge): (r: SelectionState)
    ensures r.selectedEdge == Some(edge) && r.selectedNode.None?
    ensures r.edgeFormOpen && r.nodeFormOpen == s.nodeFormOpen
  {
    s.(selectedEdge := Some(edge), selectedNode := None, edgeFormOpen := true)
  }

  /** `clearSelection`: drop both selections; the forms stay as they are. */
  function ClearSelection(s: SelectionState): (r: SelectionState)
    ensures r.selectedNode.None? && r.selectedEdge.None?
    ensures r.nodeFormOpen == s.nodeFormOpen && r.edgeFormOpen == s.edgeFormOpen
  {
    s.(selectedNode := None, selectedEdge := None)
  }

  /** Everything the hook lets its caller do. */
  datatype Event =
    | NodeClick(node: FlowNode)
    | EdgeClick(edge: FlowEdge)
    | Clear
    | SetNodeFormOpen(nodeOpen: bool)
    | SetEdgeFormOpen(edgeOpen: bool)

  function Step(s: SelectionState, e: Event): SelectionState {
    match e
    case NodeClick(n) => OnNodeClick(s, n)
    case EdgeClick(x) => OnEdgeClick(s, x)
    case Clear => ClearSelection(s)
    case SetNodeFormOpen(b) => s.(nodeFormOpen := b)
    case SetEdgeFormOpen(b) => s.(edgeFormOpen := b)
  }

  function Run(s: SelectionState, events: seq<Event>): SelectionState
    decreases |events|
  {
    if |events| == 0 then s else Run(Step(s, events[0]), events[1..])
  }

  /** Every event keeps at most one selection. */
  lemma StepKeepsExclusive(s: SelectionState, e: Event)
    requires AtMostOneSelected(s)
    ensures AtMostOneSelected(Step(s, e))
  {
  }

  /** Any run keeps at most one selection. */
  lemma {:induction false} RunKeepsExclusive(s: SelectionState, events: seq<Event>)
    requires AtMostOneSelected(s)
    ensures AtMostOneSelected(Run(s, events))
    decreases |events|
  {
    if |events| > 0 {
      StepKeepsExclusive(s, events[0]);
      RunKeepsExclusive(Step(s, events[0]), events[1..]);
    }
  }

  /** From the initial state, no sequence of events selects a node and an edge at once. */
  lemma ExclusiveFromInitial(events: seq<Event>)
    ensures AtMostOneSelected(Run(Initial(), events))
  {
    RunKeepsExclusive(Initial(), events);
  }
}
