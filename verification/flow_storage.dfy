/**
 * Named snapshots in browser key-value storage (hooks/useFlowStorage.ts).
 * The storage is a `map<string, string>`; the JSON codec is a pair of functions
 * supplied by the caller; the graph the getters read and the setters write is `Graph`.
 */
module FlowStorage {
  import opened Wrappers
  import opened FlowTypes

  const KeyPrefix := "flow-"

  type Store = map<string, string>

  datatype Graph = Graph(nodes: seq<FlowNode>, edges: seq<FlowEdge>)

  /** What parsing yields: each of `nodes` and `edges` is present (truthy) or not. */
  datatype ParsedFlow = ParsedFlow(nodes: Option<seq<FlowNode>>, edges: Option<seq<FlowEdge>>)

  /** `JSON.stringify` and `JSON.parse`; a parse that throws is `None`. */
  datatype Codec = Codec(stringify: Graph -> string, parse: string -> Option<ParsedFlow>)

  /** The storage key of a flow name. */
  function FlowKey(name: string): string {
    KeyPrefix + name
  }

  /** `key.startsWith('flow-')`. */
  predicate HasFlowPrefix(key: string) {
    |key| >= |KeyPrefix| && key[..|KeyPrefix|] == KeyPrefix
  }

  /** `key.substring(5)`, applied only to keys with the prefix. */
  function StripPrefix(key: string): string
    requires HasFlowPrefix(key)
  {
    key[|KeyPrefix|..]
  }

  /** Stripping the prefix inverts adding it. */
  lemma StripFlowKey(name: string)
    ensures HasFlowPrefix(FlowKey(name)) && StripPrefix(FlowKey(name)) == name
  {
  }

  /** Adding the prefix inverts stripping it. */
  lemma FlowKeyOfStripped(key: string)
    requires HasFlowPrefix(key)
    ensures FlowKey(StripPrefix(key)) == key
  {
    assert key == key[..|KeyPrefix|] + key[|KeyPrefix|..];
  }

  /** `saveFlow`: write the serialised graph under exactly one key, overwriting it. */
  function SaveFlow(store: Store, name: string, g: Graph, codec: Codec): (r: Store)
    ensures FlowKey(name) in r && r[FlowKey(name)] == codec.stringify(g)
    ensures forall k :: k != FlowKey(name) ==> (k in r <==> k in store)
    ensures forall k :: k != FlowKey(name) && k in store ==> r[k] == store[k]
  {
    store[FlowKey(name) := codec.stringify(g)]
  }

  datatype LoadResult = LoadResult(loaded: bool, graph: Graph)

  /**
   * `loadFlow`: succeeds only if the key holds a non-empty string that parses to an
   * object with both `nodes` and `edges`; then both are installed. Otherwise the
   * graph is left as it was.
   */
  function LoadFlow(store: Store, name: string, g: Graph, codec: Codec): (r: LoadResult)
    ensures FlowKey(name) !in store ==> r == LoadResult(false, g)
    ensures r.loaded <==>
      (FlowKey(name) in store && store[FlowKey(name)] != "" &&
       codec.parse(store[FlowKey(name)]).Some? &&
       codec.parse(store[FlowKey(name)]).value.nodes.Some? &&
       codec.parse(store[FlowKey(name)]).value.edges.Some?)
    ensures !r.loaded ==> r.graph == g
    ensures r.loaded ==>
      r.graph.nodes == codec.parse(store[FlowKey(name)]).value.nodes.value &&
      r.graph.edges == codec.parse(store[FlowKey(name)]).value.edges.value
  {
    var key := FlowKey(name);
    if key !in store || store[key] == "" then LoadResult(false, g)
    else match codec.parse(store[key])
      case None => LoadResult(false, g)
      case Some(flow) =>
        if flow.nodes.Some? && flow.edges.Some? then LoadResult(true, Graph(flow.nodes.value, flow.edges.value))
        else LoadResult(false, g)
  }

  /** `deleteFlow`: remove the one key. */
  function DeleteFlow(store: Store, name: string): (r: Store)
    ensures FlowKey(name) !in r
    ensures forall k :: k != FlowKey(name) ==> (k in r <==> k in store)
    ensures forall k :: k in r ==> r[k] == store[k]
  {
    store - {FlowKey(name)}
  }

  /** `keys` lists every key of `store` exactly once, as `localStorage.key(i)` does. */
  predicate Enumerates(keys: seq<string>, store: Store) {
    && (forall i :: 0 <= i < |keys| ==> keys[i] in store)
    && (forall k :: k in store ==> k in keys)
    && (forall i, j :: 0 <= i < j < |keys| ==> keys[i] != keys[j])
  }

  /** The names `getSavedFlows` reports for a key enumeration, in enumeration order. */
  function SavedNames(keys: seq<string>): seq<string>
    decreases |keys|
  {
    if |keys| == 0 then []
    else
      var last := keys[|keys| - 1];
      SavedNames(keys[..|keys| - 1]) + (if HasFlowPrefix(last) then [StripPrefix(last)] else [])
  }

  /** A name is listed exactly when its storage key is among the keys. */
  lemma {:induction false} SavedNamesMembership(keys: seq<string>, name: string)
    ensures name in SavedNames(keys) <==> FlowKey(name) in keys
    decreases |keys|
  {
    if |keys| > 0 {
      var init := keys[..|keys| - 1];
      var last := keys[|keys| - 1];
      assert keys == init + [last];
      SavedNamesMembership(init, name);
      StripFlowKey(name);
      if HasFlowPrefix(last) {
        FlowKeyOfStripped(last);
      }
    }
  }

  /**
   * `getSavedFlows`: walk the storage keys in order, keep those starting with
   * "flow-", and report each without its first five characters.
   */
  method GetSavedFlows(store: Store, keys: seq<string>) returns (names: seq<string>)
    requires Enumerates(keys, store)
    ensures names == SavedNames(keys)
    ensures forall n :: n in names <==> FlowKey(n) in store
    ensures forall i, j :: 0 <= i < j < |names| ==> names[i] != names[j]
  {
    names := [];
    var i := 0;
    while i < |keys|
      invariant 0 <= i <= |keys|
      invariant names == SavedNames(keys[..i])
      invariant forall n :: n in names <==> FlowKey(n) in keys[..i]
      invariant forall a, b :: 0 <= a < b < |names| ==> names[a] != names[b]
    {
      var key := keys[i];
      assert keys[..i + 1] == keys[..i] + [key];
      assert keys[..i + 1][..i] == keys[..i];
      if HasFlowPrefix(key) {
        var name := StripPrefix(key);
        FlowKeyOfStripped(key);
        assert key !in keys[..i];
        names := names + [name];
      }
      forall n
        ensures n in names <==> FlowKey(n) in keys[..i + 1]
      {
        StripFlowKey(n);
      }
      i := i + 1;
    }
    assert keys[..i] == keys;
  }

  /** After saving under a name, listing the storage reports that name. */
  lemma SavedFlowIsListed(store: Store, name: string, g: Graph, codec: Codec, keys: seq<string>)
    requires Enumerates(keys, SaveFlow(store, name, g, codec))
    ensures name in SavedNames(keys)
  {
    SavedNamesMembership(keys, name);
  }

  /** After deleting a name, it is no longer listed and loading it fails, leaving the graph alone. */
  lemma DeletedFlowIsGone(store: Store, name: string, g: Graph, codec: Codec, keys: seq<string>)
    requires Enumerates(keys, DeleteFlow(store, name))
    ensures name !in SavedNames(keys)
    ensures LoadFlow(DeleteFlow(store, name), name, g, codec) == LoadResult(false, g)
  {
    SavedNamesMembership(keys, name);
  }

  /**
   * Saving then loading the same name restores the saved graph, provided the codec
   * round-trips that graph to a non-empty text.
   */
  lemma SaveLoadRoundTrip(store: Store, name: string, g: Graph, current: Graph, codec: Codec)
    requires codec.stringify(g) != ""
    requires codec.parse(codec.stringify(g)) == Some(ParsedFlow(Some(g.nodes), Some(g.edges)))
    ensures LoadFlow(SaveFlow(store, name, g, codec), name, current, codec) == LoadResult(true, g)
  {
  }

  /** A stored empty string reads as "nothing stored": loading fails even if it would parse. */
  lemma EmptyTextNeverLoads(store: Store, name: string, g: Graph, codec: Codec)
    requires FlowKey(name) in store && store[FlowKey(name)] == ""
    ensures LoadFlow(store, name, g, codec) == LoadResult(false, g)
  {
  }
}
