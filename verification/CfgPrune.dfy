/** Pruning the control-flow graph keeps every run and cannot be repeated. */
module CfgPrune {
  import opened Ast
  import opened Quads
  import opened Blocks
  import opened Cfg
  import opened OptSim
  import opened Labels
  import opened Procedure

  // ----- the blocks that stay -----

  /** The indices below n that the root reaches, in order. */
  ghost function Kept(bs: seq<Code>, n: nat): (ks: seq<nat>)
    requires AllNonEmpty(bs) && n <= |bs|
    ensures forall i :: 0 <= i < |ks| ==> ks[i] < n && Reachable(bs, ks[i])
    ensures forall k: nat :: k < n && Reachable(bs, k) ==> k in ks
    ensures forall i, j :: 0 <= i < j < |ks| ==> ks[i] < ks[j]
  {
    if n == 0 then []
    else
      var ks := Kept(bs, n - 1);
      if Reachable(bs, n - 1) then ks + [n - 1] else ks
  }

  ghost function AllKept(bs: seq<Code>): (ks: seq<nat>)
    requires AllNonEmpty(bs)
    ensures forall i :: 0 <= i < |ks| ==> ks[i] < |bs| && Reachable(bs, ks[i])
    ensures forall k: nat :: k < |bs| && Reachable(bs, k) ==> k in ks
    ensures forall i, j :: 0 <= i < j < |ks| ==> ks[i] < ks[j]
  {
    Kept(bs, |bs|)
  }

  function Select(bs: seq<Code>, ks: seq<nat>): (r: seq<Code>)
    requires forall i :: 0 <= i < |ks| ==> ks[i] < |bs|
    ensures |r| == |ks| && forall i :: 0 <= i < |r| ==> r[i] == bs[ks[i]]
  {
    seq(|ks|, i requires 0 <= i < |ks| => bs[ks[i]])
  }

  ghost function Pruned(bs: seq<Code>): (r: seq<Code>)
    requires AllNonEmpty(bs)
    ensures |r| == |AllKept(bs)| && forall i :: 0 <= i < |r| ==> r[i] == bs[AllKept(bs)[i]]
    ensures AllNonEmpty(r)
  {
    Select(bs, AllKept(bs))
  }

  /** No two blocks carry the same label. */
  predicate UniqueHeads(bs: seq<Code>)
  {
    forall i, j :: 0 <= i < j < |bs| && FirstLabel(bs[i]).Some? ==> FirstLabel(bs[i]) != FirstLabel(bs[j])
  }

  /** With unique labels the map finds the block that carries the label. */
  lemma MapFinds(bs: seq<Code>, i: nat, l: nat)
    requires UniqueHeads(bs) && i < |bs| && FirstLabel(bs[i]) == Some(l)
    ensures l in NodeMap(bs) && NodeMap(bs)[l] == i
  {
    NodeMapRange(bs);
  }

  lemma PrunedHeads(bs: seq<Code>)
    requires AllNonEmpty(bs) && UniqueHeads(bs)
    ensures UniqueHeads(Pruned(bs))
  {
  }

  /** Reachable blocks next to each other stay next to each other. */
  lemma KeptNext(ks: seq<nat>, a: nat, k: nat)
    requires forall i, j :: 0 <= i < j < |ks| ==> ks[i] < ks[j]
    requires a < |ks| && ks[a] + 1 == k && k in ks
    ensures a + 1 < |ks| && ks[a + 1] == k
  {
    forall c | a + 1 < c < |ks|
      ensures ks[c] > ks[a] + 1
    {
      assert ks[a] < ks[a + 1] < ks[c];
    }
    var b :| 0 <= b < |ks| && ks[b] == k;
  }

  /** The successor b of a kept block's successor k, in the pruned list. */
  ghost predicate Moves(ks: seq<nat>, before: Option<nat>, after: Option<nat>)
  {
    match before
    case None => after == None
    case Some(k) => after.Some? && after.value < |ks| && ks[after.value] == k
  }

  lemma NextKept(bs: seq<Code>, a: nat)
    requires AllNonEmpty(bs) && a < |AllKept(bs)|
    ensures Moves(AllKept(bs), NextOf(bs, AllKept(bs)[a]), NextOf(Pruned(bs), a))
  {
    var ks := AllKept(bs);
    var k := ks[a];
    if NextOf(bs, k).Some? {
      EdgeReachable(bs, k, k + 1);
      KeptNext(ks, a, k + 1);
    } else {
      assert a + 1 < |ks| ==> ks[a] < ks[a + 1] < |bs|;
    }
  }

  lemma JumpKept(bs: seq<Code>, a: nat)
    requires AllNonEmpty(bs) && Resolved(bs) && UniqueHeads(bs) && a < |AllKept(bs)|
    ensures Moves(AllKept(bs), JumpOf(bs, AllKept(bs)[a]), JumpOf(Pruned(bs), a))
    ensures TargetOf(Last(Pruned(bs)[a])).Some? ==> JumpOf(Pruned(bs), a).Some?
  {
    hide Reachable;
    var ks, bs' := AllKept(bs), Pruned(bs);
    var k := ks[a];
    PrunedHeads(bs);
    NodeMapRange(bs);
    if TargetOf(Last(bs[k])).Some? {
      var l := TargetOf(Last(bs[k])).value;
      var i := NodeMap(bs)[l];
      EdgeReachable(bs, k, i);
      assert i in ks;
      var b :| 0 <= b < |ks| && ks[b] == i;
      MapFinds(bs', b, l);
    }
  }

  /** Every surviving block keeps its successors, its jumps stay resolved, and all of them can be reached:
      pruning again would remove nothing. */
  lemma PruneKeeps(bs: seq<Code>)
    requires AllNonEmpty(bs) && Resolved(bs) && UniqueHeads(bs)
    ensures AllNonEmpty(Pruned(bs)) && Resolved(Pruned(bs)) && UniqueHeads(Pruned(bs))
    ensures forall a :: 0 <= a < |Pruned(bs)| ==>
              && Moves(AllKept(bs), NextOf(bs, AllKept(bs)[a]), NextOf(Pruned(bs), a))
              && Moves(AllKept(bs), JumpOf(bs, AllKept(bs)[a]), JumpOf(Pruned(bs), a))
              && Reachable(Pruned(bs), a)
    ensures Pruned(Pruned(bs)) == Pruned(bs)
  {
    hide Reachable, NextOf, JumpOf, Moves, UniqueHeads, AllKept, NodeMap;
    var ks, bs' := AllKept(bs), Pruned(bs);
    PrunedHeads(bs);
    forall a | 0 <= a < |bs'|
      ensures Moves(ks, NextOf(bs, ks[a]), NextOf(bs', a))
      ensures Moves(ks, JumpOf(bs, ks[a]), JumpOf(bs', a)) && Reachable(bs', a)
      ensures JumpOp(Last(bs'[a])) && !Returns(Last(bs'[a])) ==>
                Last(bs'[a]).res.ALabel? && Last(bs'[a]).res.l in NodeMap(bs')
    {
      NextKept(bs, a);
      JumpKept(bs, a);
      StillReachable(bs, a);
      JumpInMap(bs', a);
    }
    AllStay(bs');
  }

  lemma JumpInMap(bs: seq<Code>, a: nat)
    requires a < |bs| && bs[a] != []
    ensures JumpOf(bs, a).Some? ==> TargetOf(Last(bs[a])).Some? && TargetOf(Last(bs[a])).value in NodeMap(bs)
  {
  }

  lemma {:induction false} PathKept(bs: seq<Code>, a: nat, n: nat)
    requires AllNonEmpty(bs) && Resolved(bs) && UniqueHeads(bs) && a < |AllKept(bs)| && ReachedIn(bs, AllKept(bs)[a], n)
    ensures ReachedIn(Pruned(bs), a, n)
    decreases n
  {
    hide Edge, Resolved, UniqueHeads, AllKept, Pruned;
    var ks, bs' := AllKept(bs), Pruned(bs);
    if n == 0 {
      FirstIndex(ks, a);
    } else {
      var k: nat :| Edge(bs, k, ks[a]) && ReachedIn(bs, k, n - 1);
      assert Reachable(bs, k);
      var b :| 0 <= b < |ks| && ks[b] == k;
      PathKept(bs, b, n - 1);
      EdgeKept(bs, b, a);
    }
  }

  lemma EdgeKept(bs: seq<Code>, b: nat, a: nat)
    requires AllNonEmpty(bs) && Resolved(bs) && UniqueHeads(bs) && a < |AllKept(bs)| && b < |AllKept(bs)|
    requires Edge(bs, AllKept(bs)[b], AllKept(bs)[a])
    ensures Edge(Pruned(bs), b, a)
  {
    hide NextOf, JumpOf, Resolved, UniqueHeads, AllKept, Pruned;
    NextKept(bs, b);
    JumpKept(bs, b);
    SameIndex(AllKept(bs));
  }

  lemma FirstIndex(ks: seq<nat>, a: nat)
    requires forall i, j :: 0 <= i < j < |ks| ==> ks[i] < ks[j]
    requires a < |ks|
    ensures a > 0 ==> ks[a] > 0
  {
    if a > 0 {
      assert ks[0] < ks[a];
    }
  }

  lemma SameIndex(ks: seq<nat>)
    requires forall i, j :: 0 <= i < j < |ks| ==> ks[i] < ks[j]
    ensures forall i, j :: 0 <= i < |ks| && 0 <= j < |ks| && ks[i] == ks[j] ==> i == j
  {
  }

  lemma StillReachable(bs: seq<Code>, a: nat)
    requires AllNonEmpty(bs) && Resolved(bs) && UniqueHeads(bs) && a < |AllKept(bs)|
    ensures Reachable(Pruned(bs), a)
  {
    var n: nat :| ReachedIn(bs, AllKept(bs)[a], n);
    PathKept(bs, a, n);
  }

  /** If everything can be reached, nothing is pruned. */
  lemma AllStay(bs: seq<Code>)
    requires AllNonEmpty(bs) && forall a :: 0 <= a < |bs| ==> Reachable(bs, a)
    ensures Pruned(bs) == bs
  {
    KeepAll(bs, |bs|);
  }

  lemma {:induction false} KeepAll(bs: seq<Code>, n: nat)
    requires AllNonEmpty(bs) && n <= |bs| && forall a :: 0 <= a < |bs| ==> Reachable(bs, a)
    ensures |Kept(bs, n)| == n && forall i :: 0 <= i < n ==> Kept(bs, n)[i] == i
    decreases n
  {
    if n > 0 {
      KeepAll(bs, n - 1);
    }
  }

  // ----- runs -----

  /** Where block i starts in the code. */
  function Off(bs: seq<Code>, i: nat): nat
    requires i <= |bs|
  {
    |Flatten(bs[..i])|
  }

  lemma OffNext(bs: seq<Code>, i: nat)
    requires i < |bs|
    ensures Off(bs, i + 1) == Off(bs, i) + |bs[i]|
  {
    assert bs[..i + 1][..i] == bs[..i];
  }

  lemma OffEnd(bs: seq<Code>)
    ensures Off(bs, |bs|) == |Flatten(bs)|
  {
    assert bs[..|bs|] == bs;
  }

  lemma {:induction false} FlattenAt(bs: seq<Code>, i: nat, j: nat)
    requires i < |bs| && j < |bs[i]|
    ensures Off(bs, i) + j < |Flatten(bs)| && Flatten(bs)[Off(bs, i) + j] == bs[i][j]
    decreases |bs|
  {
    var n := |bs| - 1;
    if i < n {
      FlattenAt(bs[..n], i, j);
      assert bs[..n][..i] == bs[..i];
    }
  }

  /** The block and the offset of a position. */
  lemma {:induction false} Locate(bs: seq<Code>, pc: nat) returns (i: nat, j: nat)
    requires pc < |Flatten(bs)|
    ensures i < |bs| && j < |bs[i]| && pc == Off(bs, i) + j
    decreases |bs|
  {
    var n := |bs| - 1;
    if pc < |Flatten(bs[..n])| {
      i, j := Locate(bs[..n], pc);
      assert bs[..n][..i] == bs[..i];
    } else {
      i, j := n, pc - |Flatten(bs[..n])|;
    }
  }

  /** Offset j of the block that is the a-th of the pruned list, in both. */
  ghost predicate InPair(bs: seq<Code>, a: nat, j: nat, pc: nat, pc': nat)
    requires AllNonEmpty(bs)
  {
    && a < |Pruned(bs)| && j < |Pruned(bs)[a]|
    && pc == Off(bs, AllKept(bs)[a]) + j && pc' == Off(Pruned(bs), a) + j
  }

  /** pc' is in the pruned code where pc is in the original: in the same block, or both at the end. */
  ghost predicate Where(bs: seq<Code>, pc: nat, pc': nat)
    requires AllNonEmpty(bs)
  {
    || (pc >= |Flatten(bs)| && pc' >= |Flatten(Pruned(bs))|)
    || (exists a: nat, j: nat :: InPair(bs, a, j, pc, pc'))
  }

  lemma InBlock(bs: seq<Code>, a: nat, j: nat)
    requires AllNonEmpty(bs) && a < |Pruned(bs)| && j < |Pruned(bs)[a]|
    ensures Where(bs, Off(bs, AllKept(bs)[a]) + j, Off(Pruned(bs), a) + j)
  {
    hide Off, AllKept, Pruned;
    assert InPair(bs, a, j, Off(bs, AllKept(bs)[a]) + j, Off(Pruned(bs), a) + j);
  }

  /** From the last quad of a block to the block it falls through to, or to the end. */
  lemma FallThrough(bs: seq<Code>, a: nat)
    requires AllNonEmpty(bs) && a < |Pruned(bs)| && FallsOut(Last(Pruned(bs)[a]))
    ensures Where(bs, Off(bs, AllKept(bs)[a]) + |Pruned(bs)[a]|, Off(Pruned(bs), a) + |Pruned(bs)[a]|)
  {
    hide Where, AllKept, Pruned, Flatten;
    var bs', k := Pruned(bs), AllKept(bs)[a];
    NextKept(bs, a);
    OffNext(bs, k);
    OffNext(bs', a);
    if NextOf(bs, k).Some? {
      InBlock(bs, a + 1, 0);
    } else {
      OffEnd(bs);
      OffEnd(bs');
      AtBothEnds(bs, Off(bs, k + 1), Off(bs', a + 1));
    }
  }

  lemma AtBothEnds(bs: seq<Code>, pc: nat, pc': nat)
    requires AllNonEmpty(bs) && pc >= |Flatten(bs)| && pc' >= |Flatten(Pruned(bs))|
    ensures Where(bs, pc, pc')
  {
  }

  /** A label that a kept block jumps to is found at corresponding positions. */
  lemma JumpsCorrespond(bs: seq<Code>, a: nat, l: nat)
    requires IsPartition(bs) && Resolved(bs) && UniqueHeads(bs) && a < |Pruned(bs)|
    requires TargetOf(Last(Pruned(bs)[a])) == Some(l)
    ensures var f, f' := FindLabel(Flatten(bs), l, 0), FindLabel(Flatten(Pruned(bs)), l, 0);
            f.Some? && f'.Some? && Where(bs, f.value, f'.value)
  {
    hide Where, AllKept, Pruned, Flatten, Reachable, Resolved, NodeMap, UniqueHeads, FirstLabel, FindLabel, Off,
        Straight;
    var b := JumpBlock(bs, a, l);
    PrunedHeads(bs);
    PrunedStraight(bs);
    HeadFound(bs, AllKept(bs)[b], l);
    HeadFound(Pruned(bs), b, l);
    InBlock(bs, b, 0);
  }

  lemma PrunedStraight(bs: seq<Code>)
    requires IsPartition(bs)
    ensures forall k :: 0 <= k < |Pruned(bs)| ==> Pruned(bs)[k] != [] && Straight(Pruned(bs)[k])
  {
    hide AllKept, Pruned, Straight;
  }

  /** The kept block that carries a label a kept block jumps to. */
  lemma JumpBlock(bs: seq<Code>, a: nat, l: nat) returns (b: nat)
    requires AllNonEmpty(bs) && Resolved(bs) && UniqueHeads(bs) && a < |Pruned(bs)|
    requires TargetOf(Last(Pruned(bs)[a])) == Some(l)
    ensures b < |Pruned(bs)| && FirstLabel(Pruned(bs)[b]) == Some(l)
  {
    hide AllKept, Pruned, Reachable, Resolved, UniqueHeads;
    JumpKept(bs, a);
    NodeMapRange(Pruned(bs));
    b := JumpOf(Pruned(bs), a).value;
  }

  /** In straight blocks a label is the first quad, and it is found there. */
  lemma HeadFound(bs: seq<Code>, i: nat, l: nat)
    requires UniqueHeads(bs) && i < |bs| && FirstLabel(bs[i]) == Some(l)
    requires forall k :: 0 <= k < |bs| ==> bs[k] != [] && Straight(bs[k])
    ensures FindLabel(Flatten(bs), l, 0) == Some(Off(bs, i))
  {
    hide Flatten, FindLabel;
    BlockLabel(bs[i]);
    FlattenAt(bs, i, 0);
    forall pc: nat | pc < Off(bs, i)
      ensures Flatten(bs)[pc] != Label(l)
    {
      var k, j := Locate(bs, pc);
      FlattenAt(bs, k, j);
      if bs[k][j] == Label(l) {
        OnlyHead(bs, i, k, j, l);
      }
    }
    FindIs(Flatten(bs), l, 0, Off(bs, i));
  }

  lemma OnlyHead(bs: seq<Code>, i: nat, k: nat, j: nat, l: nat)
    requires UniqueHeads(bs) && i < |bs| && FirstLabel(bs[i]) == Some(l)
    requires k < |bs| && j < |bs[k]| && bs[k][j] == Label(l) && Straight(bs[k])
    ensures k == i && j == 0
  {
    BlockLabel(bs[k]);
  }

  lemma BlockLabel(b: Code)
    requires b != [] && Straight(b)
    ensures FirstLabel(b) == if b[0].Label? then Some(b[0].id) else None
  {
    NoLabel(b[1..]);
  }

  lemma {:induction false} NoLabel(b: Code)
    requires forall i :: 0 <= i < |b| ==> b[i].Quad?
    ensures FirstLabel(b) == None
  {
    if b != [] {
      NoLabel(b[1..]);
    }
  }

  ghost predicate SameRun(bs: seq<Code>, x: Status, y: Status)
    requires AllNonEmpty(bs)
  {
    match x
    case At(s) => y.At? && Where(bs, s.pc, y.s.pc) && y.s == s.(pc := y.s.pc)
    case end => y == end
  }

  lemma StepPruned(env: Env, bs: seq<Code>, s: State, pc': nat)
    requires IsPartition(bs) && Resolved(bs) && UniqueHeads(bs) && Where(bs, s.pc, pc')
    ensures SameRun(bs, Step(env, Flatten(bs), s), Step(env, Flatten(Pruned(bs)), s.(pc := pc')))
  {
    hide Where, AllKept, Pruned, Flatten, Step, UniqueHeads, Resolved;
    var p, p' := Flatten(bs), Flatten(Pruned(bs));
    WhereCases(bs, s.pc, pc');
    if s.pc < |p| {
      var a: nat, j: nat :| InPair(bs, a, j, s.pc, pc');
      FlattenAt(bs, AllKept(bs)[a], j);
      FlattenAt(Pruned(bs), a, j);
      StepInBlock(env, bs, a, j, s);
    } else {
      EndsBoth(env, p, p', s, pc');
    }
  }

  lemma EndsBoth(env: Env, p: Code, p': Code, s: State, pc': nat)
    requires s.pc >= |p| && pc' >= |p'|
    ensures Step(env, p, s) == Step(env, p', s.(pc := pc')) == Halt(Void, s.store)
  {
  }

  lemma WhereCases(bs: seq<Code>, pc: nat, pc': nat)
    requires AllNonEmpty(bs) && Where(bs, pc, pc')
    ensures pc >= |Flatten(bs)| ==> pc' >= |Flatten(Pruned(bs))|
    ensures pc < |Flatten(bs)| ==> exists a: nat, j: nat :: InPair(bs, a, j, pc, pc')
  {
    hide Off, AllKept, Pruned, Flatten;
    if exists a: nat, j: nat :: InPair(bs, a, j, pc, pc') {
      var a: nat, j: nat :| InPair(bs, a, j, pc, pc');
      FlattenAt(bs, AllKept(bs)[a], j);
    }
  }

  /** The same quad in both; what it does next leads to corresponding positions. */
  lemma StepInBlock(env: Env, bs: seq<Code>, a: nat, j: nat, s: State)
    requires IsPartition(bs) && Resolved(bs) && UniqueHeads(bs) && a < |Pruned(bs)| && j < |Pruned(bs)[a]|
    requires s.pc == Off(bs, AllKept(bs)[a]) + j
    requires s.pc < |Flatten(bs)| && Flatten(bs)[s.pc] == Pruned(bs)[a][j]
    requires var pc' := Off(Pruned(bs), a) + j;
             pc' < |Flatten(Pruned(bs))| && Flatten(Pruned(bs))[pc'] == Pruned(bs)[a][j]
    ensures SameRun(bs, Step(env, Flatten(bs), s), Step(env, Flatten(Pruned(bs)), s.(pc := Off(Pruned(bs), a) + j)))
  {
    hide Where, AllKept, Pruned, Flatten, Step, ActOf, Read, UniqueHeads, Resolved, Off, Straight;
    var b := Pruned(bs)[a];
    var q := b[j];
    var s' := s.(pc := Off(Pruned(bs), a) + j);
    GoesOn(bs, a, j);
    if q.Label? {
      LabelStep(env, Flatten(bs), s);
      LabelStep(env, Flatten(Pruned(bs)), s');
    } else {
      StepActs(env, Flatten(bs), s);
      StepActs(env, Flatten(Pruned(bs)), s');
      ActsFit(env, b, q, s);
      var act := ActAt(env, q, s);
      if act.Leap? {
        JumpsAtEnd(bs, a, j);
        JumpsCorrespond(bs, a, q.res.l);
      }
    }
  }

  /** Inside a block or out of its end, falling through leads to corresponding positions. */
  lemma GoesOn(bs: seq<Code>, a: nat, j: nat)
    requires IsPartition(bs) && a < |Pruned(bs)| && j < |Pruned(bs)[a]|
    ensures FallsOut(Pruned(bs)[a][j]) ==> Where(bs, Off(bs, AllKept(bs)[a]) + j + 1, Off(Pruned(bs), a) + j + 1)
  {
    hide Where, AllKept, Pruned, Flatten;
    if j + 1 < |Pruned(bs)[a]| {
      InBlock(bs, a, j + 1);
    } else if FallsOut(Pruned(bs)[a][j]) {
      FallThrough(bs, a);
    }
  }

  /** A jump is the last quad of its block and its target is resolved. */
  lemma JumpsAtEnd(bs: seq<Code>, a: nat, j: nat)
    requires IsPartition(bs) && Resolved(bs) && a < |Pruned(bs)| && j < |Pruned(bs)[a]|
    requires var q := Pruned(bs)[a][j]; q.Quad? && (q.op == UJump || IsCondJump(q.op))
    ensures var q := Pruned(bs)[a][j]; q.res.ALabel? && TargetOf(Last(Pruned(bs)[a])) == Some(q.res.l)
  {
    assert bs[AllKept(bs)[a]] == Pruned(bs)[a];
    assert Straight(Pruned(bs)[a]);
  }

  /** The pruned code does the same as the original, step by step, from corresponding positions. */
  lemma {:induction false} RunPruned(env: Env, bs: seq<Code>, s: State, pc': nat, n: nat)
    requires IsPartition(bs) && Resolved(bs) && UniqueHeads(bs) && Where(bs, s.pc, pc')
    ensures SameRun(bs, Run(env, Flatten(bs), s, n), Run(env, Flatten(Pruned(bs)), s.(pc := pc'), n))
    decreases n
  {
    hide Where, AllKept, Pruned, Flatten, Step, UniqueHeads, Resolved;
    if n > 0 {
      StepPruned(env, bs, s, pc');
      match Step(env, Flatten(bs), s)
      case At(t) => RunPruned(env, bs, t, Step(env, Flatten(Pruned(bs)), s.(pc := pc')).s.pc, n - 1);
      case _ =>
    }
  }

  lemma RootReachable(bs: seq<Code>)
    requires AllNonEmpty(bs) && bs != []
    ensures Reachable(bs, 0)
  {
    assert ReachedIn(bs, 0, 0);
  }

  /** From the root: for any number of steps both runs are at corresponding positions with the same
      state, or have ended with the same result, or are stuck. */
  lemma PrunePreservesRuns(env: Env, bs: seq<Code>, s: State, n: nat)
    requires IsPartition(bs) && Resolved(bs) && UniqueHeads(bs) && s.pc == 0
    ensures SameRun(bs, Run(env, Flatten(bs), s, n), Run(env, Flatten(Pruned(bs)), s, n))
  {
    hide Run, SameRun, Where, AllKept, Resolved, UniqueHeads, Reachable;
    if bs == [] {
      AtBothEnds(bs, 0, 0);
    } else {
      RootReachable(bs);
      var a :| 0 <= a < |AllKept(bs)| && AllKept(bs)[a] == 0;
      FirstIndex(AllKept(bs), a);
      assert Pruned(bs)[0] == bs[0];
      assert bs[..0] == [] && Pruned(bs)[..0] == [];
      InBlock(bs, 0, 0);
    }
    assert s.(pc := 0) == s;
    RunPruned(env, bs, s, 0, n);
  }

  // ----- the graph of a procedure -----

  /** The blocks of emitted code: no jump is left without its block, and no label has two. */
  lemma EmittedResolved(body: Stmt, l: nat, bs: seq<Code>)
    requires WellFormed(body, false) && IsPartition(bs) && Flatten(bs) == ProcCode(body, l)
    ensures Resolved(bs) && UniqueHeads(bs)
  {
    hide ProcCode, Flatten, FindLabel;
    var p := Flatten(bs);
    CodeLabels(body, l);
    forall i | 0 <= i < |bs| && JumpOp(Last(bs[i])) && !Returns(Last(bs[i]))
      ensures Last(bs[i]).res.ALabel? && Last(bs[i]).res.l in NodeMap(bs)
    {
      FlattenAt(bs, i, |bs[i]| - 1);
      LabelInMap(bs, Last(bs[i]).res.l);
    }
    forall i, j | 0 <= i < j < |bs| && FirstLabel(bs[i]).Some?
      ensures FirstLabel(bs[i]) != FirstLabel(bs[j])
    {
      BlockLabel(bs[i]);
      BlockLabel(bs[j]);
      FlattenAt(bs, i, 0);
      FlattenAt(bs, j, 0);
      OffGrows(bs, i, j);
    }
  }

  lemma CodeLabels(body: Stmt, l: nat)
    requires WellFormed(body, false)
    ensures var p := ProcCode(body, l);
            && (forall i :: 0 <= i < |p| && p[i].Label? ==> FindLabel(p, p[i].id, 0) == Some(i))
            && (forall q :: q in p && IsJump(q) ==> q.res.ALabel? && FindLabel(p, q.res.l, 0).Some?)
  {
    hide FindLabel;
    ProcedureLabels(body, 0, l);
  }

  lemma LabelInMap(bs: seq<Code>, l: nat)
    requires IsPartition(bs) && FindLabel(Flatten(bs), l, 0).Some?
    ensures l in NodeMap(bs)
  {
    hide Flatten, FindLabel;
    var pos := FindLabel(Flatten(bs), l, 0).value;
    var k, j := Locate(bs, pos);
    FlattenAt(bs, k, j);
    BlockLabel(bs[k]);
    NodeMapRange(bs);
  }

  lemma {:induction false} OffGrows(bs: seq<Code>, i: nat, j: nat)
    requires i < j <= |bs| && bs[i] != []
    ensures Off(bs, i) < Off(bs, j)
    decreases j - i
  {
    OffNext(bs, j - 1);
    if i + 1 < j {
      OffGrows(bs, i, j - 1);
    }
  }

  /** The nodes that lost their mark, in order, and the number of quads in the others. */
  method UsedNodes(g: Graph) returns (usedNodes: seq<Node>, reduced: nat)
    requires g.Built()
    ensures CodesOf(usedNodes) == Pruned(CodesOf(g.nodes)) && Distinct(usedNodes)
    ensures forall j :: 0 <= j < |usedNodes| ==> usedNodes[j] in g.nodes
    ensures |Flatten(CodesOf(usedNodes))| + reduced == |Flatten(CodesOf(g.nodes))|
  {
    hide Reachable, Linked, Flatten, Off, IsKept, Pruned;
    ghost var bs := CodesOf(g.nodes);
    usedNodes, reduced := [], 0;
    KeptNone(bs, g.nodes);
    for i := 0 to |g.nodes|
      invariant IsKept(bs, g.nodes, i, usedNodes)
      invariant |Flatten(CodesOf(usedNodes))| + reduced == Off(bs, i)
    {
      OffNext(bs, i);
      KeptStep(bs, g.nodes, i, usedNodes);
      if g.nodes[i].unreachable {
        reduced := reduced + |g.nodes[i].block|;
      } else {
        AddNode(usedNodes, g.nodes[i]);
        usedNodes := usedNodes + [g.nodes[i]];
      }
    }
    OffEnd(bs);
    KeptAll(bs, g.nodes, usedNodes);
  }

  lemma AddNode(used: seq<Node>, n: Node)
    ensures |Flatten(CodesOf(used + [n]))| == |Flatten(CodesOf(used))| + |n.block|
  {
    assert CodesOf(used + [n]) == CodesOf(used) + [n.block];
    FlattenNext(CodesOf(used), n.block);
  }

  lemma KeptNone(bs: seq<Code>, nodes: seq<Node>)
    requires AllNonEmpty(bs) && |bs| == |nodes|
    ensures IsKept(bs, nodes, 0, []) && Off(bs, 0) == 0 && Flatten(CodesOf([])) == []
  {
  }

  lemma KeptAll(bs: seq<Code>, nodes: seq<Node>, used: seq<Node>)
    requires AllNonEmpty(bs) && bs == CodesOf(nodes) && Distinct(nodes) && IsKept(bs, nodes, |nodes|, used)
    ensures CodesOf(used) == Pruned(bs) && Distinct(used)
    ensures forall j :: 0 <= j < |used| ==> used[j] in nodes
  {
    var ks := Kept(bs, |nodes|);
    forall i, j | 0 <= i < j < |used|
      ensures used[i] != used[j]
    {
      assert ks[i] < ks[j];
    }
  }

  /** `used` are the nodes at the kept indices below n. */
  ghost predicate IsKept(bs: seq<Code>, nodes: seq<Node>, n: nat, used: seq<Node>)
    requires AllNonEmpty(bs) && |bs| == |nodes| && n <= |bs|
  {
    var ks := Kept(bs, n);
    |used| == |ks| && forall j :: 0 <= j < |ks| ==> used[j] == nodes[ks[j]]
  }

  lemma KeptStep(bs: seq<Code>, nodes: seq<Node>, i: nat, used: seq<Node>)
    requires AllNonEmpty(bs) && |bs| == |nodes| && i < |bs| && IsKept(bs, nodes, i, used)
    ensures if Reachable(bs, i) then IsKept(bs, nodes, i + 1, used + [nodes[i]]) else IsKept(bs, nodes, i + 1, used)
  {
  }

  /** Drops the nodes that are still marked and rebuilds the graph from the others. */
  method CfgOptimize(g: Graph) returns (reduced: nat)
    requires g.Built() && Resolved(CodesOf(g.nodes)) && UniqueHeads(CodesOf(g.nodes))
    modifies g, g.nodes
    ensures g.Built() && CodesOf(g.nodes) == Pruned(old(CodesOf(g.nodes)))
    ensures Resolved(CodesOf(g.nodes)) && UniqueHeads(CodesOf(g.nodes))
    ensures forall i :: 0 <= i < |g.nodes| ==> !g.nodes[i].unreachable
    ensures |Flatten(CodesOf(g.nodes))| + reduced == |Flatten(old(CodesOf(g.nodes)))|
  {
    hide Pruned, UniqueHeads, Resolved, Linked, Reachable, Flatten;
    ghost var bs := CodesOf(g.nodes);
    PruneKeeps(bs);
    var usedNodes;
    usedNodes, reduced := UsedNodes(g);
    g.nodes := usedNodes;
    g.Rebuild();
  }
}
