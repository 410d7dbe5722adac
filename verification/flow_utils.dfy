/**
 * Id generation and default-node construction (utils/flow.ts). The wall clock
 * `Date.now()` is the parameter `ts`.
 */
module FlowUtils {
  import opened Wrappers
  import opened FlowTypes
  import opened Decimal

  const NodeIdPrefix := "node-"
  const EdgeIdPrefix := "edge-"
  const CustomKind := "custom"

  /** `node-${ts}`. */
  function NodeIdAt(ts: nat): (id: string)
    ensures |id| > 5 && id[..5] == NodeIdPrefix && AllDigits(id[5..])
    ensures DigitsValue(id[5..]) == ts
    ensures id[5..] == NatToString(ts)
  {
    NatToStringRoundTrip(ts);
    var id := NodeIdPrefix + NatToString(ts);
    assert id[5..] == NatToString(ts);
    id
  }

  /** `edge-${source}-${target}-${ts}`. */
  function EdgeIdAt(source: string, target: string, ts: nat): (id: string)
    ensures var head := EdgeIdPrefix + source + "-";
      |id| > |head| && id[..|head|] == head
    ensures var digits := NatToString(ts);
      |id| > |digits| && id[|id| - |digits|..] == digits && id[|id| - |digits| - 1] == '-'
    ensures DigitsValue(id[|id| - |NatToString(ts)|..]) == ts
    ensures var head := EdgeIdPrefix + source + "-";
      |head| <= |id| - |NatToString(ts)| - 1 && id[|head|..|id| - |NatToString(ts)| - 1] == target
  {
    NatToStringRoundTrip(ts);
    var head := EdgeIdPrefix + source + "-";
    var digits := NatToString(ts);
    var id := head + (target + "-" + digits);
    assert id[..|head|] == head;
    assert id[|id| - |digits|..] == digits;
    assert id[|head|..|id| - |digits| - 1] == target;
    id
  }

  /**
   * `createDefaultNode(type, position, data)`: the node type is always "custom",
   * whatever `kind` asks for; position and data pass through unchanged.
   */
  function CreateDefaultNode(kind: string, position: Position, data: NodeData, ts: nat): (n: FlowNode)
    ensures n.kind == Some(CustomKind)
    ensures n.position == position && n.data == data
    ensures n.id == NodeIdAt(ts)
  {
    FlowNode(NodeIdAt(ts), Some(CustomKind), position, data)
  }

  /** Node ids taken at different clock ticks differ. */
  lemma NodeIdInjective(ts1: nat, ts2: nat)
    ensures NodeIdAt(ts1) == NodeIdAt(ts2) <==> ts1 == ts2
  {
  }

  /** Two default nodes made within one clock tick share their id, whatever they were asked to be. */
  lemma DefaultNodesCollideWithinTick(k1: string, p1: Position, d1: NodeData, k2: string, p2: Position, d2: NodeData, ts: nat)
    ensures CreateDefaultNode(k1, p1, d1, ts).id == CreateDefaultNode(k2, p2, d2, ts).id
    ensures k1 != k2 ==> CreateDefaultNode(k1, p1, d1, ts).kind == CreateDefaultNode(k2, p2, d2, ts).kind
  {
  }

  /** Edge ids are not injective in (source, target): "a-b"→"c" and "a"→"b-c" get the same id. */
  lemma EdgeIdNotInjective(ts: nat)
    ensures EdgeIdAt("a-b", "c", ts) == EdgeIdAt("a", "b-c", ts)
  {
  }

  /** In `x + "-" + r1` the dash sits at `|x|`; a dash-free `y` has no dash there. */
  lemma DashPosition(x: string, r1: string, y: string, r2: string)
    ensures (x + "-" + r1)[|x|] == '-'
    ensures |x| < |y| && '-' !in y ==> (y + "-" + r2)[|x|] != '-'
  {
  }

  /** Two `x + "-" + r` splits agree when the heads carry no dash. */
  lemma SplitAtFirstDash(x: string, r1: string, y: string, r2: string)
    requires '-' !in x && '-' !in y
    requires x + "-" + r1 == y + "-" + r2
    ensures x == y && r1 == r2
  {
    var a := x + "-" + r1;
    var b := y + "-" + r2;
    if |x| < |y| {
      DashPosition(x, r1, y, r2);
      assert false;
    } else if |y| < |x| {
      DashPosition(y, r2, x, r1);
      assert false;
    }
    assert x == a[..|x|] == b[..|y|] == y;
    assert r1 == a[|x| + 1..] == b[|y| + 1..] == r2;
  }

  /** With dash-free endpoint ids, the edge id determines source, target and tick. */
  lemma EdgeIdInjectiveWithoutDashes(s1: string, t1: string, ts1: nat, s2: string, t2: string, ts2: nat)
    requires '-' !in s1 && '-' !in t1 && '-' !in s2 && '-' !in t2
    requires EdgeIdAt(s1, t1, ts1) == EdgeIdAt(s2, t2, ts2)
    ensures s1 == s2 && t1 == t2 && ts1 == ts2
  {
    var d1, d2 := NatToString(ts1), NatToString(ts2);
    assert '-' !in d1 by { assert forall i :: 0 <= i < |d1| ==> IsDigit(d1[i]); }
    assert '-' !in d2 by { assert forall i :: 0 <= i < |d2| ==> IsDigit(d2[i]); }
    var r1 := s1 + "-" + (t1 + "-" + d1);
    var r2 := s2 + "-" + (t2 + "-" + d2);
    assert EdgeIdAt(s1, t1, ts1) == EdgeIdPrefix + r1;
    assert EdgeIdAt(s2, t2, ts2) == EdgeIdPrefix + r2;
    assert r1 == (EdgeIdPrefix + r1)[5..];
    assert r2 == (EdgeIdPrefix + r2)[5..];
    SplitAtFirstDash(s1, t1 + "-" + d1, s2, t2 + "-" + d2);
    SplitAtFirstDash(t1, d1, t2, d2);
    NatToStringInjective(ts1, ts2);
  }
}
