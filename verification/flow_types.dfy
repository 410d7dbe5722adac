/**
 * The shapes of the editor's graph (types/flow.type.ts) and the object-spread
 * merges the operations apply to them.
 *
 * A TypeScript optional key is an `Option`; an open index signature
 * (`[key: string]: any`) is the `extra` map, holding the keys other than the
 * named ones. The TypeScript keys `type` and `label` are called `kind` and `labelText` here.
 */
module FlowTypes {
  import opened Wrappers

  /** Any JSON-like value stored under an extra key. */
  datatype Json =
    | JNull
    | JBool(b: bool)
    | JNumber(num: real)
    | JString(str: string)
    | JArray(items: seq<Json>)
    | JObject(fields: map<string, Json>)

  type Fields = map<string, Json>

  datatype Position = Position(x: real, y: real)

  /** Node payload: the label is mandatory, description and type are optional, the type is any string. */
  datatype NodeData = NodeData(labelText: string, description: Option<string>, kind: Option<string>, extra: Fields)

  /** `Partial<NodeData>`: every key may be absent. */
  datatype NodeDataPatch = NodeDataPatch(labelText: Option<string>, description: Option<string>, kind: Option<string>, extra: Fields)

  datatype FlowNode = FlowNode(id: string, kind: Option<string>, position: Position, data: NodeData)

  /** Edge style: both named keys optional, further CSS keys in `extra`. */
  datatype EdgeStyle = EdgeStyle(strokeWidth: Option<real>, stroke: Option<string>, extra: Fields)

  datatype EdgeData = EdgeData(labelText: Option<string>, extra: Fields)

  /** An edge; its type, data, animation flag and style are all optional, and the type is any string. */
  datatype FlowEdge = FlowEdge(
    id: string,
    source: string,
    target: string,
    sourceHandle: Option<string>,
    targetHandle: Option<string>,
    kind: Option<string>,
    data: Option<EdgeData>,
    animated: Option<bool>,
    style: Option<EdgeStyle>)

  /** `Partial<FlowEdge>`: every key, the id included, may be absent. */
  datatype EdgePatch = EdgePatch(
    id: Option<string>,
    source: Option<string>,
    target: Option<string>,
    sourceHandle: Option<string>,
    targetHandle: Option<string>,
    kind: Option<string>,
    data: Option<EdgeData>,
    animated: Option<bool>,
    style: Option<EdgeStyle>)

  /** A connection gesture between two node handles. */
  datatype Connection = Connection(source: string, target: string, sourceHandle: Option<string>, targetHandle: Option<string>)

  const NoFields: Fields := map[]

  /** The keys with a field of their own; `extra` never holds them. */
  const NodeDataKeys: set<string> := {"label", "description", "type"}
  const StyleKeys: set<string> := {"strokeWidth", "stroke"}
  const EdgeDataKeys: set<string> := {"label"}

  /** Each JavaScript object has exactly one representation: named keys live only in their fields. */
  predicate WellFormedNodeData(d: NodeData) {
    d.extra.Keys !! NodeDataKeys
  }

  predicate WellFormedNodePatch(p: NodeDataPatch) {
    p.extra.Keys !! NodeDataKeys
  }

  predicate WellFormedStyle(s: EdgeStyle) {
    s.extra.Keys !! StyleKeys
  }

  predicate WellFormedEdgeData(d: EdgeData) {
    d.extra.Keys !! EdgeDataKeys
  }
  const EmptyNodePatch := NodeDataPatch(None, None, None, NoFields)
  const EmptyEdgePatch := EdgePatch(None, None, None, None, None, None, None, None, None)
  const EmptyStyle := EdgeStyle(None, None, NoFields)
  const EmptyEdgeData := EdgeData(None, NoFields)

  /** `{ ...d, ...p }` for node data. */
  function MergeNodeData(d: NodeData, p: NodeDataPatch): NodeData {
    NodeData(
      p.labelText.GetOr(d.labelText),
      Overlay(d.description, p.description),
      Overlay(d.kind, p.kind),
      d.extra + p.extra)
  }

  /** The patch that has the keys of `p` overlaid by those of `q`. */
  function ComposeNodePatch(p: NodeDataPatch, q: NodeDataPatch): NodeDataPatch {
    NodeDataPatch(Overlay(p.labelText, q.labelText), Overlay(p.description, q.description), Overlay(p.kind, q.kind), p.extra + q.extra)
  }

  /** `{ ...s, ...t }` for edge styles. */
  function MergeStyle(s: EdgeStyle, t: EdgeStyle): EdgeStyle {
    EdgeStyle(Overlay(s.strokeWidth, t.strokeWidth), Overlay(s.stroke, t.stroke), s.extra + t.extra)
  }

  /** `{ ...d, ...e }` for edge data. */
  function MergeEdgeData(d: EdgeData, e: EdgeData): EdgeData {
    EdgeData(Overlay(d.labelText, e.labelText), d.extra + e.extra)
  }

  /** `{ ...e, ...p }` for edges: a shallow merge, so a present `style` or `data` replaces the old one whole. */
  function MergeEdge(e: FlowEdge, p: EdgePatch): FlowEdge {
    FlowEdge(
      p.id.GetOr(e.id),
      p.source.GetOr(e.source),
      p.target.GetOr(e.target),
      Overlay(e.sourceHandle, p.sourceHandle),
      Overlay(e.targetHandle, p.targetHandle),
      Overlay(e.kind, p.kind),
      Overlay(e.data, p.data),
      Overlay(e.animated, p.animated),
      Overlay(e.style, p.style))
  }

  /** A key the patch leaves absent keeps its old value; a key it carries takes the patch's value. */
  lemma MergeNodeDataFields(d: NodeData, p: NodeDataPatch)
    ensures MergeNodeData(d, p).labelText == (if p.labelText.Some? then p.labelText.value else d.labelText)
    ensures p.description.None? ==> MergeNodeData(d, p).description == d.description
    ensures p.description.Some? ==> MergeNodeData(d, p).description == p.description
    ensures p.kind.None? ==> MergeNodeData(d, p).kind == d.kind
    ensures p.kind.Some? ==> MergeNodeData(d, p).kind == p.kind
    ensures forall k :: k in MergeNodeData(d, p).extra <==> k in d.extra || k in p.extra
    ensures forall k :: k in p.extra ==> MergeNodeData(d, p).extra[k] == p.extra[k]
    ensures forall k :: k in d.extra && k !in p.extra ==> MergeNodeData(d, p).extra[k] == d.extra[k]
  {
  }

  /** The merges keep the representation unique. */
  lemma MergesPreserveWellFormedness(d: NodeData, p: NodeDataPatch, s: EdgeStyle, t: EdgeStyle, a: EdgeData, b: EdgeData)
    ensures WellFormedNodeData(d) && WellFormedNodePatch(p) ==> WellFormedNodeData(MergeNodeData(d, p))
    ensures WellFormedStyle(s) && WellFormedStyle(t) ==> WellFormedStyle(MergeStyle(s, t))
    ensures WellFormedEdgeData(a) && WellFormedEdgeData(b) ==> WellFormedEdgeData(MergeEdgeData(a, b))
  {
  }

  /** Merging an empty patch changes nothing. */
  lemma MergeNodeDataEmpty(d: NodeData)
    ensures MergeNodeData(d, EmptyNodePatch) == d
  {
  }

  /** Merging the same patch twice is merging it once. */
  lemma MergeNodeDataIdempotent(d: NodeData, p: NodeDataPatch)
    ensures MergeNodeData(MergeNodeData(d, p), p) == MergeNodeData(d, p)
  {
  }

  /** Two successive merges are one merge of the composed patch. */
  lemma MergeNodeDataCompose(d: NodeData, p: NodeDataPatch, q: NodeDataPatch)
    ensures MergeNodeData(MergeNodeData(d, p), q) == MergeNodeData(d, ComposeNodePatch(p, q))
  {
  }

  /** Style merge: keys carried by the overlay win, every other key of the old style is kept. */
  lemma MergeStyleFields(s: EdgeStyle, t: EdgeStyle)
    ensures t.strokeWidth.Some? ==> MergeStyle(s, t).strokeWidth == t.strokeWidth
    ensures t.strokeWidth.None? ==> MergeStyle(s, t).strokeWidth == s.strokeWidth
    ensures t.stroke.Some? ==> MergeStyle(s, t).stroke == t.stroke
    ensures t.stroke.None? ==> MergeStyle(s, t).stroke == s.stroke
    ensures forall k :: k in MergeStyle(s, t).extra <==> k in s.extra || k in t.extra
    ensures forall k :: k in s.extra && k !in t.extra ==> MergeStyle(s, t).extra[k] == s.extra[k]
    ensures forall k :: k in t.extra ==> MergeStyle(s, t).extra[k] == t.extra[k]
  {
  }

  /** Merging the same style twice is merging it once. */
  lemma MergeStyleIdempotent(s: EdgeStyle, t: EdgeStyle)
    ensures MergeStyle(MergeStyle(s, t), t) == MergeStyle(s, t)
  {
  }

  /** Edge-data merge: a carried label wins, an absent one stays; every other old key is kept. */
  lemma MergeEdgeDataFields(d: EdgeData, e: EdgeData)
    ensures e.labelText.Some? ==> MergeEdgeData(d, e).labelText == e.labelText
    ensures e.labelText.None? ==> MergeEdgeData(d, e).labelText == d.labelText
    ensures forall k :: k in MergeEdgeData(d, e).extra <==> k in d.extra || k in e.extra
    ensures forall k :: k in d.extra && k !in e.extra ==> MergeEdgeData(d, e).extra[k] == d.extra[k]
    ensures forall k :: k in e.extra ==> MergeEdgeData(d, e).extra[k] == e.extra[k]
  {
  }

  /** Merging the same edge data twice is merging it once. */
  lemma MergeEdgeDataIdempotent(d: EdgeData, e: EdgeData)
    ensures MergeEdgeData(MergeEdgeData(d, e), e) == MergeEdgeData(d, e)
  {
  }

  /** The shallow edge merge: every key the patch carries replaces the edge's, the others stay. */
  lemma MergeEdgeFields(e: FlowEdge, p: EdgePatch)
    ensures p.id.None? ==> MergeEdge(e, p).id == e.id
    ensures p.id.Some? ==> MergeEdge(e, p).id == p.id.value
    ensures p.source.None? ==> MergeEdge(e, p).source == e.source
    ensures p.source.Some? ==> MergeEdge(e, p).source == p.source.value
    ensures p.target.None? ==> MergeEdge(e, p).target == e.target
    ensures p.target.Some? ==> MergeEdge(e, p).target == p.target.value
    ensures MergeEdge(e, p).sourceHandle == (if p.sourceHandle.Some? then p.sourceHandle else e.sourceHandle)
    ensures MergeEdge(e, p).targetHandle == (if p.targetHandle.Some? then p.targetHandle else e.targetHandle)
    ensures MergeEdge(e, p).kind == (if p.kind.Some? then p.kind else e.kind)
    ensures MergeEdge(e, p).animated == (if p.animated.Some? then p.animated else e.animated)
    ensures p.style.Some? ==> MergeEdge(e, p).style == p.style
    ensures p.style.None? ==> MergeEdge(e, p).style == e.style
    ensures p.data.Some? ==> MergeEdge(e, p).data == p.data
    ensures p.data.None? ==> MergeEdge(e, p).data == e.data
    ensures MergeEdge(e, EmptyEdgePatch) == e
  {
  }

  /** Merging the same edge patch twice is merging it once. */
  lemma MergeEdgeIdempotent(e: FlowEdge, p: EdgePatch)
    ensures MergeEdge(MergeEdge(e, p), p) == MergeEdge(e, p)
  {
  }
}
