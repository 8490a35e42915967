/** The control-flow graph over basic blocks: building edges, marking what the root reaches, pruning the rest. */
module Cfg {
  import opened Ast
  import opened Quads
  import opened Blocks

  // ----- edges between the blocks of a list -----

  function FirstLabel(b: Code): Option<nat>
  {
    if b == [] then None else if b[0].Label? then Some(b[0].id) else FirstLabel(b[1..])
  }

  /** Which block carries which label; a later block takes over a label. */
  function NodeMap(bs: seq<Code>): map<nat, nat>
  {
    if bs == [] then map[]
    else
      var n := |bs| - 1;
      var m := NodeMap(bs[..n]);
      if FirstLabel(bs[n]).Some? then m[FirstLabel(bs[n]).value := n] else m
  }

  predicate Returns(q: Quad)
  {
    q.Quad? && q.op in {RetP, RetF}
  }

  function Last(b: Code): Quad
    requires b != []
  {
    b[|b| - 1]
  }

  /** The block control falls through to. */
  function NextOf(bs: seq<Code>, i: nat): (r: Option<nat>)
    requires i < |bs| && bs[i] != []
    ensures r.Some? ==> r.value == i + 1 < |bs|
  {
    if FallsOut(Last(bs[i])) && i + 1 < |bs| then Some(i + 1) else None
  }

  predicate FallsOut(q: Quad)
  {
    q.Quad? ==> q.op !in {RetP, RetF, UJump}
  }

  /** The label a block's last quad may jump to. */
  function TargetOf(q: Quad): Option<nat>
  {
    if JumpOp(q) && !Returns(q) && q.res.ALabel? then Some(q.res.l) else None
  }

  function JumpOf(bs: seq<Code>, i: nat): Option<nat>
    requires i < |bs| && bs[i] != []
  {
    var t := TargetOf(Last(bs[i]));
    if t.Some? && t.value in NodeMap(bs) then Some(NodeMap(bs)[t.value]) else None
  }

  predicate AllNonEmpty(bs: seq<Code>)
  {
    forall i :: 0 <= i < |bs| ==> bs[i] != []
  }

  /** Every jump at the end of a block finds its label; otherwise rebuilding aborts. */
  predicate Resolved(bs: seq<Code>)
    requires AllNonEmpty(bs)
  {
    forall i :: 0 <= i < |bs| && JumpOp(Last(bs[i])) && !Returns(Last(bs[i])) ==>
      Last(bs[i]).res.ALabel? && Last(bs[i]).res.l in NodeMap(bs)
  }

  predicate Edge(bs: seq<Code>, i: nat, j: nat)
    requires AllNonEmpty(bs)
  {
    i < |bs| && (NextOf(bs, i) == Some(j) || JumpOf(bs, i) == Some(j))
  }

  lemma {:induction false} NodeMapRange(bs: seq<Code>)
    ensures forall l :: l in NodeMap(bs) ==> NodeMap(bs)[l] < |bs| && FirstLabel(bs[NodeMap(bs)[l]]) == Some(l)
    ensures forall i :: 0 <= i < |bs| && FirstLabel(bs[i]).Some? ==> FirstLabel(bs[i]).value in NodeMap(bs)
  {
    if bs != [] {
      var n := |bs| - 1;
      NodeMapRange(bs[..n]);
      forall l | l in NodeMap(bs)
        ensures NodeMap(bs)[l] < |bs| && FirstLabel(bs[NodeMap(bs)[l]]) == Some(l)
      {
        if FirstLabel(bs[n]) != Some(l) {
          assert bs[..n][NodeMap(bs[..n])[l]] == bs[NodeMap(bs[..n])[l]];
        }
      }
      forall i | 0 <= i < |bs| && FirstLabel(bs[i]).Some?
        ensures FirstLabel(bs[i]).value in NodeMap(bs)
      {
        if i < n {
          assert bs[..n][i] == bs[i];
        }
      }
    }
  }

  /** Block i can be reached from the first block in k steps. */
  ghost predicate ReachedIn(bs: seq<Code>, i: nat, k: nat)
    requires AllNonEmpty(bs)
    decreases k
  {
    && i < |bs|
    && if k == 0 then i == 0 else exists j: nat :: Edge(bs, j, i) && ReachedIn(bs, j, k - 1)
  }

  ghost predicate Reachable(bs: seq<Code>, i: nat)
    requires AllNonEmpty(bs)
  {
    exists k: nat :: ReachedIn(bs, i, k)
  }

  lemma EdgeReachable(bs: seq<Code>, i: nat, j: nat)
    requires AllNonEmpty(bs) && Reachable(bs, i) && Edge(bs, i, j)
    ensures Reachable(bs, j)
  {
    NodeMapRange(bs);
    var k: nat :| ReachedIn(bs, i, k);
    assert ReachedIn(bs, j, k + 1);
  }

  /** A set of blocks that holds the first one and every successor holds everything reachable. */
  lemma {:induction false} ReachedStays(bs: seq<Code>, C: set<nat>, i: nat, k: nat)
    requires AllNonEmpty(bs) && ReachedIn(bs, i, k) && 0 in C
    requires forall a: nat, b: nat :: a in C && Edge(bs, a, b) ==> b in C
    ensures i in C
    decreases k
  {
    if k > 0 {
      var j: nat :| Edge(bs, j, i) && ReachedIn(bs, j, k - 1);
      ReachedStays(bs, C, j, k - 1);
    }
  }

  // ----- the graph -----

  class Node {
    const block: Code
    var next: Node?
    var jump: Node?
    var unreachable: bool

    constructor (block: Code)
      requires block != []
      ensures this.block == block && next == null && jump == null && !unreachable
    {
      this.block, next, jump, unreachable := block, null, null, false;
    }
  }

  /** Both successors of every node of R are in R. */
  ghost predicate Closed(R: set<Node>)
    reads R
  {
    forall n :: n in R ==> (n.next != null ==> n.next in R) && (n.jump != null ==> n.jump in R)
  }

  ghost function Marked(all: set<Node>): set<Node>
    reads all
  {
    set n | n in all && n.unreachable
  }

  twostate predicate SameEdges(all: set<Node>)
    reads all
  {
    forall n :: n in all ==> n.next == old(n.next) && n.jump == old(n.jump)
  }

  /** n lost its mark. */
  twostate predicate Cleared(n: Node)
    reads n
  {
    old(n.unreachable) && !n.unreachable
  }

  /** Clears the marks of what can be reached over marked nodes. It ends on every graph, cyclic or not:
      each call that goes on clears one more mark. */
  method TraverseNode(node: Node, ghost all: set<Node>, ghost R: set<Node>)
    requires node in R && R <= all && Closed(R)
    modifies all
    ensures SameEdges(all) && !node.unreachable
    ensures forall n :: n in all && n.unreachable ==> old(n.unreachable)
    ensures forall n :: n in all && Cleared(n) ==> n in R
    ensures forall n :: n in all && Cleared(n) ==>
      (n.next != null ==> !n.next.unreachable) && (n.jump != null ==> !n.jump.unreachable)
    decreases |Marked(all)|
  {
    if !node.unreachable {
      return;
    }
    ghost var before := Marked(all);
    node.unreachable := false;
    assert Marked(all) == before - {node};
    if node.next != null {
      TraverseNode(node.next, all, R);
      assert Marked(all) <= before - {node};
      Smaller(Marked(all), before, node);
    }
    if node.jump != null {
      TraverseNode(node.jump, all, R);
    }
  }

  lemma Smaller(a: set<Node>, b: set<Node>, n: Node)
    requires a <= b - {n} && n in b
    ensures |a| < |b|
  {
    SubsetSize(a, b - {n});
  }

  lemma {:induction false} SubsetSize(a: set<Node>, b: set<Node>)
    requires a <= b
    ensures |a| <= |b|
    decreases a
  {
    if a != {} {
      var n :| n in a;
      SubsetSize(a - {n}, b - {n});
    }
  }

  ghost predicate Distinct(nodes: seq<Node>)
  {
    forall i, j :: 0 <= i < j < |nodes| ==> nodes[i] != nodes[j]
  }

  ghost function SetOf(nodes: seq<Node>): set<Node>
  {
    set n | n in nodes
  }

  function CodesOf(nodes: seq<Node>): (bs: seq<Code>)
    ensures |bs| == |nodes| && forall i :: 0 <= i < |bs| ==> bs[i] == nodes[i].block
  {
    seq(|nodes|, i requires 0 <= i < |nodes| => nodes[i].block)
  }

  /** The node at an index, or null. */
  function NodeAt(nodes: seq<Node>, i: Option<nat>): Node?
  {
    if i.Some? && i.value < |nodes| then nodes[i.value] else null
  }

  /** Node i has the edges that the blocks of the list give it. */
  ghost predicate Linked(nodes: seq<Node>, i: nat)
    requires i < |nodes| && AllNonEmpty(CodesOf(nodes))
    reads nodes[i]
  {
    var bs := CodesOf(nodes);
    nodes[i].next == NodeAt(nodes, NextOf(bs, i)) && nodes[i].jump == NodeAt(nodes, JumpOf(bs, i))
  }

  class Graph {
    var root: Node?
    var nodes: seq<Node>

    ghost predicate Valid()
      reads this
    {
      Distinct(nodes) && AllNonEmpty(CodesOf(nodes))
    }

    /** Root, edges and marks are what the blocks of the node list say. */
    ghost predicate Built()
      reads this, nodes
    {
      && Valid()
      && root == NodeAt(nodes, Some(0))
      && (forall i :: 0 <= i < |nodes| ==> Linked(nodes, i))
      && (forall i :: 0 <= i < |nodes| ==> nodes[i].unreachable == !Reachable(CodesOf(nodes), i))
    }

    constructor ()
      ensures Valid() && nodes == []
    {
      root, nodes := null, [];
    }

    /** A node for each block, then edges and marks. */
    method GetCfg(blocks: seq<Block>)
      requires nodes == [] && AllNonEmpty(QuadsOf(blocks)) && Resolved(QuadsOf(blocks))
      modifies this
      ensures Built() && CodesOf(nodes) == QuadsOf(blocks)
    {
      for i := 0 to |blocks|
        invariant |nodes| == i && forall j :: 0 <= j < i ==> nodes[j].block == QuadsOf(blocks)[j]
        invariant Distinct(nodes) && forall j :: 0 <= j < i ==> fresh(nodes[j])
      {
        var node := new Node(blocks[i].quads);
        assert node !in nodes;
        nodes := nodes + [node];
      }
      assert CodesOf(nodes) == QuadsOf(blocks);
      Rebuild();
    }

    method InitNodeMap() returns (nodeMap: map<nat, Node>)
      requires Valid()
      ensures forall l :: l in nodeMap <==> l in NodeMap(CodesOf(nodes))
      ensures forall l :: l in nodeMap ==>
                NodeMap(CodesOf(nodes))[l] < |nodes| && nodeMap[l] == nodes[NodeMap(CodesOf(nodes))[l]]
    {
      nodeMap := map[];
      ghost var bs := CodesOf(nodes);
      for i := 0 to |nodes|
        invariant forall l :: l in nodeMap <==> l in NodeMap(bs[..i])
        invariant forall l :: l in nodeMap ==> NodeMap(bs[..i])[l] < i && nodeMap[l] == nodes[NodeMap(bs[..i])[l]]
      {
        var block := nodes[i].block;
        var j := 0;
        assert block[0..] == block;
        while j < |block| && !block[j].Label?
          invariant 0 <= j <= |block| && FirstLabel(block) == FirstLabel(block[j..])
        {
          j := j + 1;
        }
        assert bs[..i + 1][..i] == bs[..i] && bs[..i + 1][i] == block;
        if j < |block| {
          nodeMap := nodeMap[block[j].id := nodes[i]];
        }
      }
      assert bs[..|nodes|] == bs;
    }

    /** The edges of one node. */
    method Link(i: nat, nodeMap: map<nat, Node>)
      requires Valid() && i < |nodes| && Resolved(CodesOf(nodes))
      requires forall l :: l in nodeMap <==> l in NodeMap(CodesOf(nodes))
      requires forall l :: l in nodeMap ==>
                NodeMap(CodesOf(nodes))[l] < |nodes| && nodeMap[l] == nodes[NodeMap(CodesOf(nodes))[l]]
      modifies nodes[i]
      ensures Linked(nodes, i) && nodes[i].unreachable
    {
      var node := nodes[i];
      node.next, node.jump, node.unreachable := null, null, true;
      var last := node.block[|node.block| - 1];
      assert CodesOf(nodes)[i] == node.block && last == Last(node.block);
      if Returns(last) {
        return;
      }
      if JumpOp(last) {
        node.jump := nodeMap[last.res.l];
        if last.op != UJump && i + 1 < |nodes| {
          node.next := nodes[i + 1];
        }
        return;
      }
      if i + 1 < |nodes| {
        node.next := nodes[i + 1];
      }
    }

    /** Sets all edges and marks from the list of nodes. */
    method Rebuild()
      requires Valid() && Resolved(CodesOf(nodes))
      modifies this`root, nodes
      ensures nodes == old(nodes) && Built()
    {
      hide Linked, Resolved, NodeMap, AllNonEmpty, Reachable;
      ghost var bs := CodesOf(nodes);
      root := null;
      if |nodes| != 0 {
        root := nodes[0];
      }
      var nodeMap := InitNodeMap();
      for i := 0 to |nodes|
        invariant root == NodeAt(nodes, Some(0))
        invariant forall j :: 0 <= j < i ==> Linked(nodes, j) && nodes[j].unreachable
      {
        Link(i, nodeMap);
      }
      Traverse();
    }

    /** Clears exactly the marks of the nodes the root reaches. */
    method Traverse()
      requires Valid() && root == NodeAt(nodes, Some(0))
      requires forall i :: 0 <= i < |nodes| ==> Linked(nodes, i) && nodes[i].unreachable
      modifies nodes
      ensures Built()
    {
      hide Reachable, AllNonEmpty, NextOf, JumpOf, CodesOf, Closed;
      ghost var bs := CodesOf(nodes);
      ghost var all := SetOf(nodes);
      ghost var R := set i | 0 <= i < |nodes| && Reachable(bs, i) :: nodes[i];
      if root != null {
        ReachableClosed(nodes, R);
        label before:
        TraverseNode(root, all, R);
        forall i | 0 <= i < |nodes|
          ensures Linked(nodes, i)
        {
          assert nodes[i] in all;
        }
        hide Linked, SameEdges;
        forall i | 0 <= i < |nodes|
          ensures nodes[i].unreachable == !Reachable(bs, i)
        {
          if Reachable(bs, i) {
            ClearedAll(nodes, i);
          } else {
            assert nodes[i] !in R;
          }
        }
      }
    }
  }

  /** The nodes that can be reached have their successors among them. */
  lemma ReachableClosed(nodes: seq<Node>, R: set<Node>)
    requires Distinct(nodes) && AllNonEmpty(CodesOf(nodes)) && nodes != []
    requires forall i :: 0 <= i < |nodes| ==> Linked(nodes, i)
    requires R == set i | 0 <= i < |nodes| && Reachable(CodesOf(nodes), i) :: nodes[i]
    ensures Closed(R) && nodes[0] in R
  {
    var bs := CodesOf(nodes);
    assert ReachedIn(bs, 0, 0);
    forall n | n in R
      ensures (n.next != null ==> n.next in R) && (n.jump != null ==> n.jump in R)
    {
      var i :| 0 <= i < |nodes| && Reachable(bs, i) && n == nodes[i];
      assert Linked(nodes, i);
      if n.next != null {
        EdgeReachable(bs, i, i + 1);
      }
      if n.jump != null {
        EdgeReachable(bs, i, JumpOf(bs, i).value);
      }
    }
  }

  /** If the root and the successors of unmarked nodes are unmarked, so is everything reachable. */
  lemma ClearedAll(nodes: seq<Node>, i: nat)
    requires AllNonEmpty(CodesOf(nodes)) && Reachable(CodesOf(nodes), i)
    requires forall j :: 0 <= j < |nodes| ==> Linked(nodes, j)
    requires nodes != [] && !nodes[0].unreachable
    requires forall j :: 0 <= j < |nodes| && !nodes[j].unreachable ==>
               (nodes[j].next != null ==> !nodes[j].next.unreachable)
                   && (nodes[j].jump != null ==> !nodes[j].jump.unreachable)
    ensures i < |nodes| && !nodes[i].unreachable
  {
    var bs := CodesOf(nodes);
    var C := set j | 0 <= j < |nodes| && !nodes[j].unreachable;
    NodeMapRange(bs);
    forall a: nat, b: nat | a in C && Edge(bs, a, b)
      ensures b in C
    {
      assert Linked(nodes, a);
    }
    var k: nat :| ReachedIn(bs, i, k);
    ReachedStays(bs, C, i, k);
  }
}
