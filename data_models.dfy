/**
  The records parsed from an OpenStreetMap XML response (data_models1.py) and the
  planar shoelace area of a region, which the rasterizer uses to order regions.

  Latitude and longitude are `real`; the Python code converts them with `float()`
  and treats them as planar y and x.
 */
module DataModels {
  import opened Wrappers

  type NodeId = string

  datatype Node = Node(id: NodeId, lat: real, lon: real, features: seq<string>)

  /** A road, also used for waterways. The Python attribute `type` is called `kind` here. */
  datatype Road = Road(nodes: seq<NodeId>, name: Option<string>, kind: string, foot: bool)

  datatype Building = Building(nodes: seq<NodeId>, name: Option<string>)

  /** A railway; its Python `type` attribute is the built-in `type`, so it carries no kind. */
  datatype Railway = Railway(nodes: seq<NodeId>, name: Option<string>)

  datatype Region = Region(nodes: seq<NodeId>, kind: string)
  {
    /** `Region.get_area`: the shoelace loop with a rolling predecessor. */
    method GetArea(nodeDictionary: map<NodeId, Node>) returns (area: real)
      requires |nodes| > 0 && Resolves(nodes, nodeDictionary)
      ensures area == ShoelaceArea(nodes, nodeDictionary)
      ensures area >= 0.0
    {
      ghost var s := Lookup(nodes, nodeDictionary);
      var total := 0.0;
      var prevNode := nodes[|nodes| - 1];
      for i := 0 to |nodes|
        invariant prevNode == if i == 0 then nodes[|nodes| - 1] else nodes[i - 1]
        invariant total == RingPrefix(s, i)
      {
        var nodeObj := nodeDictionary[nodes[i]];
        var prevNodeObj := nodeDictionary[prevNode];
        var difference := nodeObj.lon * prevNodeObj.lat - prevNodeObj.lon * nodeObj.lat;
        assert difference == Cross(s[i], s[if i == 0 then |s| - 1 else i - 1]) by {
          assert nodeObj == s[i];
          assert prevNodeObj == s[if i == 0 then |s| - 1 else i - 1];
        }
        RingPrefixStep(s, i);
        total := total + difference;
        prevNode := nodes[i];
      }
      assert s[..|nodes|] == s;
      area := Abs(total / 2.0);
    }
  }

  /** Every id of the path is a key of the node dictionary (otherwise Python raises KeyError). */
  predicate Resolves(ids: seq<NodeId>, nodes: map<NodeId, Node>)
  {
    forall id :: id in ids ==> id in nodes
  }

  /** The nodes a path of ids refers to, in path order. */
  function Lookup(ids: seq<NodeId>, nodes: map<NodeId, Node>): (r: seq<Node>)
    requires Resolves(ids, nodes)
    ensures |r| == |ids|
    ensures forall i :: 0 <= i < |ids| ==> r[i] == nodes[ids[i]]
  {
    seq(|ids|, i requires 0 <= i < |ids| => nodes[ids[i]])
  }

  function Abs(x: real): (r: real)
    ensures r >= 0.0 && (r == x || r == -x)
  {
    if x < 0.0 then -x else x
  }

  /** The shoelace term for a node and the node before it in the ring. */
  function Cross(node: Node, prev: Node): real
  {
    node.lon * prev.lat - prev.lon * node.lat
  }

  /** The terms of the consecutive pairs (s[i], s[i-1]) for 1 <= i < |s|. */
  function ChainSum(s: seq<Node>): real
  {
    if |s| <= 1 then 0.0 else ChainSum(s[..|s| - 1]) + Cross(s[|s| - 1], s[|s| - 2])
  }

  /** The sum of the closed ring: the chain plus the term that pairs s[0] with the last node. */
  function RingSum(s: seq<Node>): real
    requires |s| > 0
  {
    Cross(s[0], s[|s| - 1]) + ChainSum(s)
  }

  /** The running total of `get_area` after the first i nodes. */
  function RingPrefix(s: seq<Node>, i: nat): real
    requires 0 < |s| && i <= |s|
  {
    if i == 0 then 0.0 else Cross(s[0], s[|s| - 1]) + ChainSum(s[..i])
  }

  /** Node i adds the term pairing it with its predecessor on the ring. */
  lemma RingPrefixStep(s: seq<Node>, i: nat)
    requires i < |s|
    ensures RingPrefix(s, i + 1) == RingPrefix(s, i) + Cross(s[i], s[if i == 0 then |s| - 1 else i - 1])
  {
    assert s[..i + 1][..i] == s[..i];
  }

  /** The area `get_area` computes: half the absolute ring sum. */
  function ShoelaceArea(ids: seq<NodeId>, nodes: map<NodeId, Node>): (area: real)
    requires |ids| > 0 && Resolves(ids, nodes)
    ensures area >= 0.0
  {
    Abs(RingSum(Lookup(ids, nodes)) / 2.0)
  }

  /** The textbook closed-ring sum: term i pairs s[i] with s[(i - 1) mod n], over the first k terms. */
  function ModularSum(s: seq<Node>, k: nat): real
    requires 0 < |s| && k <= |s|
  {
    if k == 0 then 0.0 else ModularSum(s, k - 1) + Cross(s[k - 1], s[(k - 2 + |s|) % |s|])
  }

  /** Every node moved by `a` degrees of longitude and `b` degrees of latitude. */
  function Translated(nodes: map<NodeId, Node>, a: real, b: real): (r: map<NodeId, Node>)
    ensures r.Keys == nodes.Keys
    ensures forall id :: id in r ==> r[id] == nodes[id].(lat := nodes[id].lat + b, lon := nodes[id].lon + a)
  {
    map id | id in nodes :: nodes[id].(lat := nodes[id].lat + b, lon := nodes[id].lon + a)
  }

  function Reversed<T>(s: seq<T>): (r: seq<T>)
    ensures |r| == |s|
    ensures forall i :: 0 <= i < |s| ==> r[i] == s[|s| - 1 - i]
  {
    seq(|s|, i requires 0 <= i < |s| => s[|s| - 1 - i])
  }

  // ---------------------------------------------------------------------------
  // Lemmas about the ring sum

  lemma CrossAntisymmetric(p: Node, q: Node)
    ensures Cross(p, q) == -Cross(q, p)
    ensures Cross(p, p) == 0.0
  {
  }

  /** Splitting a chain: the pair across the split contributes one extra term. */
  lemma {:induction false} ChainSumAppend(a: seq<Node>, b: seq<Node>)
    requires |a| > 0 && |b| > 0
    ensures ChainSum(a + b) == ChainSum(a) + Cross(b[0], a[|a| - 1]) + ChainSum(b)
    decreases |b|
  {
    var ab := a + b;
    if |b| == 1 {
      assert ab[..|ab| - 1] == a;
    } else {
      var b' := b[..|b| - 1];
      assert ab[..|ab| - 1] == a + b';
      ChainSumAppend(a, b');
      assert b[..|b| - 1] == b';
    }
  }

  /** The loop's ring sum equals the textbook sum with the predecessor index taken modulo n. */
  lemma {:induction false} RingSumIsModularSum(s: seq<Node>)
    requires |s| > 0
    ensures RingSum(s) == ModularSum(s, |s|)
  {
    ModularSumPrefix(s, |s|);
    assert s[..|s|] == s;
  }

  /** The predecessor index modulo n, written out. */
  lemma PredecessorIndex(i: int, n: int)
    requires 0 <= i < n
    ensures (i - 1 + n) % n == if i == 0 then n - 1 else i - 1
  {
    var x := i - 1 + n;
    var j := if i == 0 then n - 1 else i - 1;
    assert x == j + (if i == 0 then 0 else 1) * n;
    ModOfMultipleShift(j, if i == 0 then 0 else 1, n);
  }

  lemma ModOfMultipleShift(j: int, m: int, n: int)
    requires 0 <= j < n && 0 <= m <= 1
    ensures (j + m * n) % n == j
  {
    if m == 1 {
      assert (j + n) - n == j;
    }
  }

  lemma {:induction false} ModularSumPrefix(s: seq<Node>, k: nat)
    requires 0 < k <= |s|
    ensures ModularSum(s, k) == Cross(s[0], s[|s| - 1]) + ChainSum(s[..k])
  {
    var n := |s|;
    PredecessorIndex(k - 1, n);
    if k == 1 {
      assert ModularSum(s, 0) == 0.0;
    } else {
      ModularSumPrefix(s, k - 1);
      assert s[..k][..k - 1] == s[..k - 1];
    }
  }

  /** Rotating the ring does not change its sum. */
  lemma RingSumRotation(s: seq<Node>, k: nat)
    requires 0 <= k <= |s| && |s| > 0
    ensures |s[k..] + s[..k]| > 0
    ensures RingSum(s[k..] + s[..k]) == RingSum(s)
  {
    if k == 0 || k == |s| {
      assert s[k..] + s[..k] == s;
    } else {
      var a, b := s[..k], s[k..];
      assert s == a + b;
      ChainSumAppend(a, b);
      ChainSumAppend(b, a);
    }
  }

  /** Traversing the ring backwards negates its sum. */
  lemma {:induction false} ChainSumReversed(s: seq<Node>)
    ensures ChainSum(Reversed(s)) == -ChainSum(s)
    decreases |s|
  {
    if |s| <= 1 {
    } else {
      var s' := s[..|s| - 1];
      var x := s[|s| - 1];
      assert Reversed(s) == [x] + Reversed(s');
      ChainSumAppend([x], Reversed(s'));
      ChainSumReversed(s');
      assert s'[|s'| - 1] == s[|s| - 2];
      CrossAntisymmetric(s[|s| - 2], x);
    }
  }

  lemma RingSumReversed(s: seq<Node>)
    requires |s| > 0
    ensures RingSum(Reversed(s)) == -RingSum(s)
  {
    ChainSumReversed(s);
    CrossAntisymmetric(s[|s| - 1], s[0]);
  }

  /** Moving every node shifts each term by a difference that telescopes around the ring. */
  lemma CrossTranslated(p: Node, q: Node, a: real, b: real)
    ensures Cross(p.(lat := p.lat + b, lon := p.lon + a), q.(lat := q.lat + b, lon := q.lon + a))
         == Cross(p, q) + Drift(p, a, b) - Drift(q, a, b)
  {
  }

  /** The part of a translated term that depends on one endpoint only. */
  function Drift(p: Node, a: real, b: real): real
  {
    b * p.lon - a * p.lat
  }

  function Shift(s: seq<Node>, a: real, b: real): (r: seq<Node>)
    ensures |r| == |s|
    ensures forall i :: 0 <= i < |s| ==> r[i] == s[i].(lat := s[i].lat + b, lon := s[i].lon + a)
  {
    seq(|s|, i requires 0 <= i < |s| => s[i].(lat := s[i].lat + b, lon := s[i].lon + a))
  }

  lemma {:induction false} ChainSumShift(s: seq<Node>, a: real, b: real)
    requires |s| > 0
    ensures ChainSum(Shift(s, a, b)) ==
      ChainSum(s) + Drift(s[|s| - 1], a, b) - Drift(s[0], a, b)
    decreases |s|
  {
    if |s| > 1 {
      var s' := s[..|s| - 1];
      var last, prev, first := s[|s| - 1], s[|s| - 2], s[0];
      var t := Shift(s, a, b);
      var c' := ChainSum(Shift(s', a, b));
      var x := Cross(t[|s| - 1], t[|s| - 2]);
      assert c' == ChainSum(s') + Drift(prev, a, b) - Drift(first, a, b) by {
        ChainSumShift(s', a, b);
        assert s'[|s'| - 1] == prev && s'[0] == first;
      }
      assert ChainSum(t) == c' + x by {
        assert t[..|s| - 1] == Shift(s', a, b);
      }
      assert x == Cross(last, prev) + Drift(last, a, b) - Drift(prev, a, b) by {
        assert t[|s| - 1] == last.(lat := last.lat + b, lon := last.lon + a);
        assert t[|s| - 2] == prev.(lat := prev.lat + b, lon := prev.lon + a);
        CrossTranslated(last, prev, a, b);
      }
      assert ChainSum(s) == ChainSum(s') + Cross(last, prev);
      TelescopeStep(ChainSum(t), c', x, ChainSum(s), ChainSum(s'), Cross(last, prev),
        Drift(last, a, b), Drift(prev, a, b), Drift(first, a, b));
    }
  }

  /** The bookkeeping of one induction step of ChainSumShift, over plain numbers. */
  lemma TelescopeStep(shifted: real, shiftedPrefix: real, term: real, chain: real, chainPrefix: real,
                      cross: real, dLast: real, dPrev: real, dFirst: real)
    requires shifted == shiftedPrefix + term
    requires shiftedPrefix == chainPrefix + dPrev - dFirst
    requires term == cross + dLast - dPrev
    requires chain == chainPrefix + cross
    ensures shifted == chain + dLast - dFirst
  {
  }

  lemma RingSumShift(s: seq<Node>, a: real, b: real)
    requires |s| > 0
    ensures RingSum(Shift(s, a, b)) == RingSum(s)
  {
    ChainSumShift(s, a, b);
    CrossTranslated(s[0], s[|s| - 1], a, b);
  }

  // ---------------------------------------------------------------------------
  // Properties of `get_area`, stated on paths of node ids

  /** The area runs over the closed ring: term i pairs node i with node (i - 1) mod n. */
  lemma AreaIsClosedRingSum(ids: seq<NodeId>, nodes: map<NodeId, Node>)
    requires |ids| > 0 && Resolves(ids, nodes)
    ensures ShoelaceArea(ids, nodes) == Abs(ModularSum(Lookup(ids, nodes), |ids|) / 2.0)
  {
    RingSumIsModularSum(Lookup(ids, nodes));
  }

  lemma AreaRotationInvariant(ids: seq<NodeId>, nodes: map<NodeId, Node>, k: nat)
    requires |ids| > 0 && Resolves(ids, nodes) && k <= |ids|
    ensures |ids[k..] + ids[..k]| > 0 && Resolves(ids[k..] + ids[..k], nodes)
    ensures ShoelaceArea(ids[k..] + ids[..k], nodes) == ShoelaceArea(ids, nodes)
  {
    var s := Lookup(ids, nodes);
    assert Lookup(ids[k..] + ids[..k], nodes) == s[k..] + s[..k];
    RingSumRotation(s, k);
  }

  lemma AreaReversalInvariant(ids: seq<NodeId>, nodes: map<NodeId, Node>)
    requires |ids| > 0 && Resolves(ids, nodes)
    ensures |Reversed(ids)| > 0 && Resolves(Reversed(ids), nodes)
    ensures ShoelaceArea(Reversed(ids), nodes) == ShoelaceArea(ids, nodes)
  {
    var s := Lookup(ids, nodes);
    assert forall id :: id in Reversed(ids) ==> id in ids;
    assert Lookup(Reversed(ids), nodes) == Reversed(s);
    RingSumReversed(s);
  }

  /** Repeating the first node at the end (an explicitly closed ring) adds the zero term (a, a). */
  lemma AreaOfClosedRing(ids: seq<NodeId>, nodes: map<NodeId, Node>)
    requires |ids| > 0 && Resolves(ids, nodes)
    ensures Resolves(ids + [ids[0]], nodes)
    ensures ShoelaceArea(ids + [ids[0]], nodes) == ShoelaceArea(ids, nodes)
  {
    var s := Lookup(ids, nodes);
    var t := Lookup(ids + [ids[0]], nodes);
    assert t == s + [s[0]];
    assert t[..|t| - 1] == s;
    CrossAntisymmetric(s[0], s[0]);
  }

  lemma AreaOfOneOrTwoNodes(ids: seq<NodeId>, nodes: map<NodeId, Node>)
    requires 1 <= |ids| <= 2 && Resolves(ids, nodes)
    ensures ShoelaceArea(ids, nodes) == 0.0
  {
    var s := Lookup(ids, nodes);
    CrossAntisymmetric(s[0], s[|s| - 1]);
    if |s| == 2 {
      assert ChainSum(s) == ChainSum(s[..1]) + Cross(s[1], s[0]);
      assert ChainSum(s[..1]) == 0.0;
      assert RingSum(s) == 0.0;
    } else {
      assert RingSum(s) == 0.0;
    }
  }

  lemma AreaTranslationInvariant(ids: seq<NodeId>, nodes: map<NodeId, Node>, a: real, b: real)
    requires |ids| > 0 && Resolves(ids, nodes)
    ensures Resolves(ids, Translated(nodes, a, b))
    ensures ShoelaceArea(ids, Translated(nodes, a, b)) == ShoelaceArea(ids, nodes)
  {
    var s := Lookup(ids, nodes);
    assert Lookup(ids, Translated(nodes, a, b)) == Shift(s, a, b);
    RingSumShift(s, a, b);
  }
}
