# rnd-flow graph-editing model in Dafny

This project models the state logic of the rnd-flow visual flow editor. The editor's state is a list of
nodes, a list of edges and some selection and form flags. Every user action replaces that state with
a new one computed by list filtering, conditional mapping and object spreads. The model writes each
action as a pure Dafny function over immutable datatypes and proves its frame conditions and the
laws that connect the actions.

Modules, following the source layout:

- `Wrappers` (wrappers.dfy): `Option` for optional keys and `T | null`. `Overlay` is the
  one-key semantics of an object spread.
- `Seqs` (seqs.dfy): `Filter` (`Array.filter`) and `MapWhere` (a `map` that rewrites only
  matching entries). Their contracts cover membership, order (`IsSubsequence`) and counts. Lemmas
  cover concatenation, idempotence and counting.
- `FlowTypes` (flow_types.dfy): the shapes of `types/flow.type.ts`.
  - An optional key is an `Option`. An open index signature is an `extra` map of JSON values. The `WellFormed…` predicates keep the named keys out of `extra`, so each JavaScript object has one representation.
  - The TypeScript keys `type` and `label` are named `kind` and `labelText`, because both words are
    reserved in Dafny.
  - Node and edge types are plain strings, because the source's unions are open.
  - The spread merges are `MergeNodeData`, `MergeStyle`, `MergeEdgeData` and `MergeEdge`.
- `Decimal` (decimal.dfy): how a template literal renders a non-negative integer.
- `FlowUtils` (flow_utils.dfy): `generateNodeId`, `generateEdgeId` and `createDefaultNode`.
  The `Date.now()` value is the parameter `ts`.
- `FlowStore` (flow_store.dfy): the global store's actions as transitions on `FlowState`.
- `ConnectionHandling` (connection_handling.dfy): the edge-editing hook's updaters on the edge list.
- `FlowSelection` (flow_selection.dfy): the selection/form hook as a small state machine.
- `FlowStorage` (flow_storage.dfy): named snapshots.
  - Local storage is a `map<string, string>`.
  - Its key enumeration is a parameter that must list every key once.
  - `JSON.stringify`/`JSON.parse` are the two functions of a `Codec` value.
- `EditorPage` (editor_page.dfy): the `addNode`, `removeNode` and `updateNodeData` handlers of the
  running page. `Initial`, `OnInit` and `OnNodeClick` build the states these handlers start from.

Behaviour of the code that the lemmas make explicit:

- Node ids are not guaranteed unique.
  - The store's `addNode` appends whatever node it is given, with no uniqueness check (`FlowStore.AddNodeAllowsDuplicateId`).
  - The page derives a new node's id from the list length, so an id can come back after a deletion (`EditorPage.IdReuseAfterDeletion`).
- Edge ids collide within one clock tick (`ConnectionHandling.OnConnectSameTickDuplicates`). They are also not injective in the endpoint ids (`FlowUtils.EdgeIdNotInjective`).
- Node and edge types are open: any string is accepted.
- The store's `removeNode` clears only `selectedNode` (store/flow.store.ts:100-101). A `selectedEdge` that the cascade deleted stays selected (`FlowStore.RemoveNodeKeepsDanglingSelectedEdge`).
- The store decorates a new connection with stroke `#3182ce` and the hook uses `#4a5568` (`ConnectionHandling.StoreDecorationDiffersOnlyInStroke`).
- The page's `updateNodeData` replaces a node's data, while the store's `updateNode` merges it (`EditorPage.UpdateNodeDataDropsKeysMissingFromSnapshot`).
- Save followed by load restores the graph only when the codec round-trips it to a non-empty text (`FlowStorage.SaveLoadRoundTrip`). A stored empty string never loads (`FlowStorage.EmptyTextNeverLoads`).

## Model

| member | source | states |
|---|---|---|
| FlowTypes.MergeNodeDataFields | store/flow.store.ts:84-87 | node-data merge: a key the partial carries wins, an absent key keeps the old value, and extra keys of both survive |
| FlowTypes.MergesPreserveWellFormedness | types/flow.type.ts:8-36 | the node-data, style and edge-data merges keep named keys out of the extra maps, so each object keeps one representation |
| FlowTypes.MergeNodeDataEmpty | store/flow.store.ts:84-87 | merging an empty partial leaves node data unchanged |
| FlowTypes.MergeNodeDataIdempotent | store/flow.store.ts:84-87 | merging the same partial twice equals merging it once |
| FlowTypes.MergeNodeDataCompose | store/flow.store.ts:84-87 | two successive updates equal one update with the second partial overlaid on the first |
| FlowTypes.MergeStyleFields | hooks/useConnectionHandling.ts:27 | style overlay: given keys replace, every other old style key is kept |
| FlowTypes.MergeStyleIdempotent | hooks/useConnectionHandling.ts:27 | overlaying the same style twice equals once |
| FlowTypes.MergeEdgeDataFields | hooks/useConnectionHandling.ts:38 | edge-data overlay: a carried label wins, an absent one stays, every other old data key is kept |
| FlowTypes.MergeEdgeDataIdempotent | hooks/useConnectionHandling.ts:38 | overlaying the same edge data twice equals once |
| FlowTypes.MergeEdgeFields | store/flow.store.ts:110 | shallow edge merge: every key the partial carries (id, source, target, handles, type, animated, style, data) replaces the old value whole; absent keys stay; the empty partial is the identity |
| FlowTypes.MergeEdgeIdempotent | store/flow.store.ts:110 | shallow-merging the same partial twice equals once |
| Seqs.FilterConcat | store/flow.store.ts:96-99 | filtering distributes over concatenation, so survivors keep their relative order |
| Decimal.NatToString | utils/flow.ts:5 | a rendered timestamp is a non-empty digit string with no leading zero |
| Decimal.NatToStringRoundTrip | utils/flow.ts:5 | reading back the rendered digits gives the number |
| Decimal.NatToStringInjective | utils/flow.ts:5 | distinct numbers render differently |
| FlowUtils.EdgeIdAt | utils/flow.ts:7-8 | an edge id is "edge-" + source + "-" + target + "-" followed by the canonical decimal digits of the timestamp, whose value is the timestamp |
| FlowUtils.NodeIdAt | utils/flow.ts:5 | a node id is "node-" followed by the canonical decimal digits (no leading zero) of the timestamp, whose value is the timestamp |
| FlowUtils.NodeIdInjective | utils/flow.ts:5 | node ids are equal exactly when their timestamps are equal |
| FlowUtils.CreateDefaultNode | utils/flow.ts:10-15 | the default node has type "custom" whatever type is asked for, the given position and data, and the timestamp id |
| FlowUtils.DefaultNodesCollideWithinTick | utils/flow.ts:10-15 | two default nodes made in one tick share an id, even when asked for different types |
| FlowUtils.EdgeIdNotInjective | utils/flow.ts:7-8 | source "a-b" with target "c" and source "a" with target "b-c" get the same edge id in one tick |
| FlowUtils.EdgeIdInjectiveWithoutDashes | utils/flow.ts:7-8 | when endpoint ids contain no dash, the edge id determines source, target and tick |
| FlowStore.AddNode | store/flow.store.ts:76-78 | appends the node at the end; earlier nodes, edges and selections are unchanged |
| FlowStore.AddNodeAllowsDuplicateId | store/flow.store.ts:76-78 | adding a node whose id is taken leaves two nodes with one id |
| FlowStore.InitialState | store/flow.store.ts:18-42 | the seed holds nodes "1" ("Start Process") and "2" ("Process Step"), both custom, no edges and no selection |
| FlowStore.UpdateNode | store/flow.store.ts:80-92 | matching nodes keep id, type and position and get merged data; other nodes, edges and selections are unchanged; an absent id is a no-op |
| FlowStore.UpdateNodeIdempotent | store/flow.store.ts:80-92 | applying one node update twice equals once |
| FlowStore.RemoveNode | store/flow.store.ts:94-103 | no node with the id and no edge touching it remain; every other node and edge survives in order, with its multiplicity (counted); selectedNode clears only on an id match; selectedEdge is untouched |
| FlowStore.RemoveNodeEdgeCount | store/flow.store.ts:97-99 | exactly the edges incident to the node are removed |
| FlowStore.RemoveNodeKeepsDanglingSelectedEdge | store/flow.store.ts:101 | a selected edge deleted by the cascade stays selected though it is no longer in the list |
| FlowStore.RemoveNodePreservesReferences | store/flow.store.ts:96-99 | if every edge pointed at existing nodes before, it still does afterwards |
| FlowStore.RemoveNodeIdempotent | store/flow.store.ts:94-103 | removing a node twice equals once |
| FlowStore.RemoveNodeAfterAddNode | store/flow.store.ts:76-99 | removing a node after adding a different one equals removing first and then appending it |
| FlowStore.UpdateEdge | store/flow.store.ts:106-115 | matching edges are shallow-merged with the partial; length, other edges, nodes and selections are unchanged |
| FlowStore.UpdateEdgeIdempotent | store/flow.store.ts:106-115 | one edge update applied twice equals once, even when the partial renames the edge |
| FlowStore.RemoveEdge | store/flow.store.ts:117-123 | no edge with the id remains; the others survive in order, with their multiplicity; selectedEdge clears only on an id match |
| FlowStore.RemoveEdgeIdempotent | store/flow.store.ts:117-123 | removing an edge id twice equals once |
| FlowStore.SelectNode | store/flow.store.ts:126 | sets the node selection and clears the edge selection |
| FlowStore.SelectEdge | store/flow.store.ts:127 | sets the edge selection and clears the node selection |
| FlowStore.SelectNodeThenEdge | store/flow.store.ts:126-127 | selecting node A then edge B leaves only B selected |
| FlowStore.ConnectDecoration | store/flow.store.ts:61-68 | the store's connection decoration has no id, copies endpoints and handles, and sets type smoothstep, animated, width 2, stroke #3182ce, label "Connection" |
| FlowStore.SelectionStaysExclusive | store/flow.store.ts:45-127 | no sequence of store actions fills both selection slots if they start exclusive |
| FlowStore.InitialSelectionExclusive | store/flow.store.ts:18-42 | from the seed state every action sequence keeps at most one selection |
| ConnectionHandling.NewEdge | hooks/useConnectionHandling.ts:11-18 | the new edge has the generated id, the connection's endpoints and handles, type smoothstep, animated, width 2, stroke #4a5568, label "Connection" |
| ConnectionHandling.OnConnect | hooks/useConnectionHandling.ts:10-21 | appends exactly that edge at the end and leaves earlier edges unchanged, with no duplicate check |
| ConnectionHandling.OnConnectSameTickDuplicates | hooks/useConnectionHandling.ts:10-21 | connecting one pair twice in one tick yields two edges with the same id |
| ConnectionHandling.UpdateEdgeStyle | hooks/useConnectionHandling.ts:23-32 | matching edges get their style overlaid (a missing style reads as empty); other edges and length unchanged; absent id is a no-op |
| ConnectionHandling.UpdateEdgeStyleIdempotent | hooks/useConnectionHandling.ts:23-32 | the same style update twice equals once |
| ConnectionHandling.UpdateEdgeData | hooks/useConnectionHandling.ts:34-43 | matching edges get their data overlaid (a missing data object reads as empty); other edges and length unchanged; absent id is a no-op |
| ConnectionHandling.UpdateEdgeDataIdempotent | hooks/useConnectionHandling.ts:34-43 | the same data update twice equals once |
| ConnectionHandling.SetEdgeType | hooks/useConnectionHandling.ts:45-54 | only the type of matching edges changes; absent id is a no-op |
| ConnectionHandling.SetEdgeTypeIdempotent | hooks/useConnectionHandling.ts:45-54 | setting the same type twice equals once |
| ConnectionHandling.RemoveEdge | hooks/useConnectionHandling.ts:56-58 | every edge with the id is gone; the rest survive in order, with their multiplicity |
| ConnectionHandling.RemoveEdgeIdempotent | hooks/useConnectionHandling.ts:56-58 | removing an edge id twice equals once |
| ConnectionHandling.StoreDecorationDiffersOnlyInStroke | hooks/useConnectionHandling.ts:16 | the store's decoration applied to the hook's new edge changes only the stroke colour, and the two colours differ |
| FlowSelection.Initial | hooks/useFlowEditor.ts:6-9 | both selections are null and both forms closed |
| FlowSelection.OnNodeClick | hooks/useFlowEditor.ts:11-15 | selects the node, clears the edge, opens the node form, leaves the edge form |
| FlowSelection.OnEdgeClick | hooks/useFlowEditor.ts:17-21 | selects the edge, clears the node, opens the edge form, leaves the node form |
| FlowSelection.ClearSelection | hooks/useFlowEditor.ts:23-26 | clears both selections and leaves both form flags |
| FlowSelection.StepKeepsExclusive | hooks/useFlowEditor.ts:11-26 | every callback, form setters included, keeps at most one selection |
| FlowSelection.RunKeepsExclusive | hooks/useFlowEditor.ts:11-26 | any sequence of callbacks keeps at most one selection |
| FlowSelection.ExclusiveFromInitial | hooks/useFlowEditor.ts:6-26 | from the initial state no callback sequence selects a node and an edge at once |
| FlowStorage.StripFlowKey | hooks/useFlowStorage.ts:45-46 | the storage key of a name has the prefix, and stripping it gives the name back |
| FlowStorage.FlowKeyOfStripped | hooks/useFlowStorage.ts:45-46 | a prefixed key is the storage key of its stripped name |
| FlowStorage.SaveFlow | hooks/useFlowStorage.ts:11-18 | writes exactly the key "flow-" + name, overwriting, and no other key changes |
| FlowStorage.LoadFlow | hooks/useFlowStorage.ts:20-38 | reports success exactly when the key holds non-empty text that parses with both nodes and edges, and then installs both; otherwise the graph is unchanged |
| FlowStorage.DeleteFlow | hooks/useFlowStorage.ts:53-55 | removes exactly the key "flow-" + name |
| FlowStorage.SavedNamesMembership | hooks/useFlowStorage.ts:40-51 | a name is listed exactly when its storage key is enumerated |
| FlowStorage.GetSavedFlows | hooks/useFlowStorage.ts:40-51 | returns the prefixed keys, stripped, in enumeration order; a name is listed exactly when "flow-" + name is stored; no name twice |
| FlowStorage.SavedFlowIsListed | hooks/useFlowStorage.ts:17 | after saving a name, the listing contains it |
| FlowStorage.DeletedFlowIsGone | hooks/useFlowStorage.ts:53-55 | after deleting a name, it is not listed and loading it fails without touching the graph |
| FlowStorage.SaveLoadRoundTrip | hooks/useFlowStorage.ts:11-38 | saving then loading a name restores the graph, given a codec that round-trips it to non-empty text |
| FlowStorage.EmptyTextNeverLoads | hooks/useFlowStorage.ts:23 | a stored empty string fails to load and leaves the graph unchanged |
| EditorPage.AddNode | app/page.tsx:180-203 | without an instance nothing changes; otherwise appends a custom node with id "node-" + (length + 1) and the pending data, closes the add form and resets the pending data; the edges, the selection, the node form and the instance are unchanged |
| EditorPage.Initial | app/page.tsx:105-139 | the first render holds nodes "1" and "2" joined by animated edge "e1-2", nothing selected, forms closed, no instance, pending data "New Node"/""/"Process" |
| EditorPage.OnInit | app/page.tsx:175-177 | the diagram instance becomes available; the graph, the selection, both forms and the pending data are unchanged |
| EditorPage.OnNodeClick | app/page.tsx:166-169 | the clicked node becomes the selected snapshot and the node form opens; the graph, the add form, the pending data and the instance are unchanged |
| EditorPage.AddNodeRepeatsTakenId | app/page.tsx:190 | when the length-based id is taken, the new node duplicates it |
| EditorPage.IdReuseAfterDeletion | app/page.tsx:180-219 | add, remove node "1", add again: two nodes named "node-3" |
| EditorPage.RemoveNode | app/page.tsx:206-219 | without a selection nothing changes; otherwise the node and exactly its incident edges go, the rest keep order and multiplicity, the selection clears and the form closes |
| EditorPage.RemoveNodeEdgeCount | app/page.tsx:210-215 | the number of edges removed equals the number incident to the selected node |
| EditorPage.UpdateNodeData | app/page.tsx:222-240 | without a selection nothing changes; otherwise matching nodes get the snapshot's data in place of their own and keep id, type and position; other nodes are unchanged; the form closes |
| EditorPage.UpdateNodeDataIdempotent | app/page.tsx:222-240 | saving the same snapshot twice equals saving it once |
| EditorPage.UpdateNodeDataDropsKeysMissingFromSnapshot | app/page.tsx:228-233 | an extra data key the stored node has and the snapshot lacks is gone after saving, whereas the store's merging update keeps it |

## Left out

- `onNodesChange`, `onEdgesChange` and the store's final `addEdge` call (store/flow.store.ts:49-59, 70-72): these delegate to the diagram library's `applyNodeChanges`, `applyEdgeChanges` and `addEdge`, whose code is not part of this model. Only the store's decoration of the connection is modelled.
- The page's `onNodesChange`, `onEdgesChange` and `onConnect` (app/page.tsx:151-164): library calls, for the same reason.
- The store's `setNodes`/`setEdges` appear only as actions of `FlowStore.Apply`, because they are plain replacements.
- Node placement in the page's `addNode` uses `Math.random` and viewport floats. The position is a parameter.
- `Date.now()` is a parameter `ts: nat`.
- Numbers are Dafny `real`s. IEEE floats, NaN and infinities are not modelled.
- Nodes carry only id, type, position and data. The library's other node keys (`selected`, `dragging`, measured size) are not modelled.
- Edges carry only the keys of `FlowEdge` plus the connection handles. Other keys of the library's edge type (`label`, `markerEnd`, `hidden`, `selected`, `zIndex`, ...) are not modelled, even though `updateEdge`'s shallow merge (store/flow.store.ts:110) can carry them.
- FlowStorage.SaveFlow: always writes. `localStorage.setItem` can throw (quota exceeded, storage disabled), and `saveFlow` has no `catch`, so in that case the exception reaches the caller and storage is unchanged. The model does not include that path.
- `Codec.stringify` is total. `JSON.stringify` can throw, for example on a cyclic value or a BigInt; that failure is not modelled.
- In a partial object, a key explicitly set to `undefined` (or, for the edge handles `sourceHandle` and `targetHandle`, to `null`) is not modelled. Such a key would overwrite in a spread; here a key is either present with a value or absent, and a `null` handle and a missing handle are both `None`.
- `JSON.stringify`/`JSON.parse` are not modelled. A `Codec` stands for them, so the save/load round trip holds only for codecs that round-trip the graph. A parsed `nodes` or `edges` that is truthy but not an array is not modelled. The `console.error` logging is not modelled.
- The storage listing order of `localStorage.key(i)` is browser-defined. It is a parameter that must enumerate the stored keys once each.
- hooks/useFlowInstance.ts, the rendering components, the JSX of the pages, app/simple/page.tsx and constant/nodeTemplates.ts: presentation, library wrappers or static data.
- The page's form field handlers edit the selected-node snapshot. The snapshot is whatever node value `EditorPage.OnNodeClick` is given.
- React closures: the page's `addNode` reads `nodes.length` from the render in which it was created. The model reads the current list, which matches when each event is handled against the latest render.
