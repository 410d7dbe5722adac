/**
 * The edge-editing hook (hooks/useConnectionHandling.ts): each callback is a
 * pure updater from the edge list to the new edge list.
 */
module ConnectionHandling {
  import opened Wrappers
  import opened FlowTypes
  import opened Seqs
  import opened FlowUtils
  import FlowStore

  const DefaultEdgeKind := "smoothstep"
  const DefaultStroke := "#4a5568"
  const DefaultStrokeWidth := 2.0
  const DefaultEdgeLabel := "Connection"

  /** The edge `onConnect` builds from a connection at clock tick `ts`. */
  function NewEdge(c: Connection, ts: nat): (e: FlowEdge)
    ensures e.id == EdgeIdAt(c.source, c.target, ts)
    ensures e.source == c.source && e.target == c.target
    ensures e.sourceHandle == c.sourceHandle && e.targetHandle == c.targetHandle
    ensures e.kind == Some(DefaultEdgeKind) && e.animated == Some(true)
    ensures e.style == Some(EdgeStyle(Some(DefaultStrokeWidth), Some(DefaultStroke), NoFields))
    ensures e.data == Some(EdgeData(Some(DefaultEdgeLabel), NoFields))
  {
    FlowEdge(EdgeIdAt(c.source, c.target, ts), c.source, c.target, c.sourceHandle, c.targetHandle,
             Some(DefaultEdgeKind), Some(EdgeData(Some(DefaultEdgeLabel), NoFields)), Some(true),
             Some(EdgeStyle(Some(DefaultStrokeWidth), Some(DefaultStroke), NoFields)))
  }

  /** `onConnect`: append the new edge, with no duplicate check. */
  function OnConnect(edges: seq<FlowEdge>, c: Connection, ts: nat): (r: seq<FlowEdge>)
    ensures |r| == |edges| + 1 && r[|edges|] == NewEdge(c, ts)
    ensures forall i :: 0 <= i < |edges| ==> r[i] == edges[i]
  {
    edges + [NewEdge(c, ts)]
  }

  predicate HasId(e: FlowEdge, id: string) {
    e.id == id
  }

  /** `updateEdgeStyle`: overlay `style` onto the matching edges' style (absent style reads as empty). */
  function UpdateEdgeStyle(edges: seq<FlowEdge>, id: string, style: EdgeStyle): (r: seq<FlowEdge>)
    ensures |r| == |edges|
    ensures forall i :: 0 <= i < |edges| && edges[i].id == id ==>
      r[i] == edges[i].(style := Some(MergeStyle(edges[i].style.GetOr(EmptyStyle), style)))
    ensures forall i :: 0 <= i < |edges| && edges[i].id != id ==> r[i] == edges[i]
    ensures (forall i :: 0 <= i < |edges| ==> edges[i].id != id) ==> r == edges
  {
    MapWhere(edges, (e: FlowEdge) => HasId(e, id),
             (e: FlowEdge) => e.(style := Some(MergeStyle(e.style.GetOr(EmptyStyle), style))))
  }

  /** `updateEdgeData`: overlay `data` onto the matching edges' data (absent data reads as empty). */
  function UpdateEdgeData(edges: seq<FlowEdge>, id: string, data: EdgeData): (r: seq<FlowEdge>)
    ensures |r| == |edges|
    ensures forall i :: 0 <= i < |edges| && edges[i].id == id ==>
      r[i] == edges[i].(data := Some(MergeEdgeData(edges[i].data.GetOr(EmptyEdgeData), data)))
    ensures forall i :: 0 <= i < |edges| && edges[i].id != id ==> r[i] == edges[i]
    ensures (forall i :: 0 <= i < |edges| ==> edges[i].id != id) ==> r == edges
  {
    MapWhere(edges, (e: FlowEdge) => HasId(e, id),
             (e: FlowEdge) => e.(data := Some(MergeEdgeData(e.data.GetOr(EmptyEdgeData), data))))
  }

  /** `setEdgeType`: only the `type` key of the matching edges changes. */
  function SetEdgeType(edges: seq<FlowEdge>, id: string, kind: string): (r: seq<FlowEdge>)
    ensures |r| == |edges|
    ensures forall i :: 0 <= i < |edges| && edges[i].id == id ==> r[i] == edges[i].(kind := Some(kind))
    ensures forall i :: 0 <= i < |edges| && edges[i].id != id ==> r[i] == edges[i]
    ensures (forall i :: 0 <= i < |edges| ==> edges[i].id != id) ==> r == edges
  {
    MapWhere(edges, (e: FlowEdge) => HasId(e, id), (e: FlowEdge) => e.(kind := Some(kind)))
  }

  /** `removeEdge`: drop every edge with that id, keeping the rest in order. */
  function RemoveEdge(edges: seq<FlowEdge>, id: string): (r: seq<FlowEdge>)
    ensures forall i :: 0 <= i < |r| ==> r[i].id != id && r[i] in edges
    ensures forall i :: 0 <= i < |edges| && edges[i].id != id ==> edges[i] in r
    ensures IsSubsequence(r, edges) && |r| == Count(edges, FlowStore.EdgeKept(id))
  {
    Filter(edges, FlowStore.EdgeKept(id))
  }

  lemma SetEdgeTypeIdempotent(edges: seq<FlowEdge>, id: string, kind: string)
    ensures SetEdgeType(SetEdgeType(edges, id, kind), id, kind) == SetEdgeType(edges, id, kind)
  {
  }

  lemma RemoveEdgeIdempotent(edges: seq<FlowEdge>, id: string)
    ensures RemoveEdge(RemoveEdge(edges, id), id) == RemoveEdge(edges, id)
  {
    FilterIdempotent(edges, FlowStore.EdgeKept(id));
  }

  /** Applying the same style overlay twice is applying it once. */
  lemma UpdateEdgeStyleIdempotent(edges: seq<FlowEdge>, id: string, style: EdgeStyle)
    ensures UpdateEdgeStyle(UpdateEdgeStyle(edges, id, style), id, style) == UpdateEdgeStyle(edges, id, style)
  {
    var r1 := UpdateEdgeStyle(edges, id, style);
    var r2 := UpdateEdgeStyle(r1, id, style);
    forall i | 0 <= i < |edges|
      ensures r2[i] == r1[i]
    {
      if edges[i].id == id {
        MergeStyleIdempotent(edges[i].style.GetOr(EmptyStyle), style);
      }
    }
  }

  /** Applying the same data overlay twice is applying it once. */
  lemma UpdateEdgeDataIdempotent(edges: seq<FlowEdge>, id: string, data: EdgeData)
    ensures UpdateEdgeData(UpdateEdgeData(edges, id, data), id, data) == UpdateEdgeData(edges, id, data)
  {
    var r1 := UpdateEdgeData(edges, id, data);
    var r2 := UpdateEdgeData(r1, id, data);
    forall i | 0 <= i < |edges|
      ensures r2[i] == r1[i]
    {
      if edges[i].id == id {
        MergeEdgeDataIdempotent(edges[i].data.GetOr(EmptyEdgeData), data);
      }
    }
  }

  /** Connecting the same pair twice within one clock tick yields two edges with one id. */
  lemma OnConnectSameTickDuplicates(edges: seq<FlowEdge>, c: Connection, ts: nat)
    ensures var r := OnConnect(OnConnect(edges, c, ts), c, ts);
      |r| == |edges| + 2 && r[|edges|].id == r[|edges| + 1].id
  {
  }

  /**
   * The store's connection decoration and this hook's new edge agree on every key
   * the decoration sets except the stroke colour.
   */
  lemma StoreDecorationDiffersOnlyInStroke(c: Connection, ts: nat)
    ensures MergeEdge(NewEdge(c, ts), FlowStore.ConnectDecoration(c)) ==
      NewEdge(c, ts).(style := Some(EdgeStyle(Some(DefaultStrokeWidth), Some("#3182ce"), NoFields)))
    ensures NewEdge(c, ts).style.value.stroke != FlowStore.ConnectDecoration(c).style.value.stroke
  {
  }
}
