/** Splitting code into basic blocks. */
module Blocks {
  import opened Ast
  import opened Words
  import opened Quads

  datatype Block = Block(id: nat, quads: Code)

  /** Quads that end a block. */
  predicate JumpOp(q: Quad)
  {
    q.Quad? && (IsCondJump(q.op) || q.op in {UJump, RetP, RetF})
  }

  function Flatten(bs: seq<Code>): Code
  {
    if bs == [] then [] else Flatten(bs[..|bs| - 1]) + bs[|bs| - 1]
  }

  /** No label after the first quad and no jump before the last. */
  predicate Straight(c: Code)
  {
    forall i :: 0 <= i < |c| ==> (i > 0 ==> c[i].Quad?) && (i < |c| - 1 ==> !JumpOp(c[i]))
  }

  predicate EndsInJump(c: Code)
  {
    c != [] && JumpOp(c[|c| - 1])
  }

  /** A partition into blocks: none empty, each straight, and a new one only where a label or the quad
      before asks for it. */
  predicate IsPartition(bs: seq<Code>)
  {
    && (forall i :: 0 <= i < |bs| ==> bs[i] != [] && Straight(bs[i]))
    && (forall i :: 0 < i < |bs| ==> bs[i][0].Label? || EndsInJump(bs[i - 1]))
  }

  function QuadsOf(blocks: seq<Block>): (r: seq<Code>)
    ensures |r| == |blocks| && forall i :: 0 <= i < |r| ==> r[i] == blocks[i].quads
  {
    seq(|blocks|, i requires 0 <= i < |blocks| => blocks[i].quads)
  }

  lemma FlattenNext(bs: seq<Code>, c: Code)
    ensures Flatten(bs + [c]) == Flatten(bs) + c
  {
    assert (bs + [c])[..|bs|] == bs;
  }

  /** One more quad at the end of a block. */
  lemma StraightNext(c: Code, q: Quad)
    requires Straight(c) && !EndsInJump(c) && (c == [] || q.Quad?)
    ensures Straight(c + [q]) && EndsInJump(c + [q]) == JumpOp(q)
  {
  }

  /** What holds of the finished blocks and the one under construction. */
  predicate Building(bs: seq<Code>, c: Code)
  {
    && IsPartition(bs) && Straight(c) && !EndsInJump(c)
    && (bs != [] && c == [] ==> EndsInJump(bs[|bs| - 1]))
    && (bs != [] && c != [] ==> c[0].Label? || EndsInJump(bs[|bs| - 1]))
  }

  lemma Finish(bs: seq<Code>, c: Code)
    requires IsPartition(bs) && c != [] && Straight(c)
    requires bs != [] ==> c[0].Label? || EndsInJump(bs[|bs| - 1])
    ensures IsPartition(bs + [c]) && Flatten(bs + [c]) == Flatten(bs) + c
  {
    FlattenNext(bs, c);
  }

  /** A label finishes the block before it. */
  lemma BuildLabel(bs: seq<Code>, c: Code, q: Quad)
    requires Building(bs, c) && c != [] && q.Label?
    ensures Building(bs + [c], [q]) && Flatten(bs + [c]) + [q] == Flatten(bs) + c + [q]
  {
    Finish(bs, c);
  }

  /** A jump finishes its own block. */
  lemma BuildJump(bs: seq<Code>, c: Code, q: Quad)
    requires Building(bs, c) && JumpOp(q)
    ensures Building(bs + [c + [q]], []) && Flatten(bs + [c + [q]]) + [] == Flatten(bs) + c + [q]
  {
    StraightNext(c, q);
    Finish(bs, c + [q]);
    JoinOne(Flatten(bs), c, q);
  }

  lemma BuildPlain(bs: seq<Code>, c: Code, q: Quad)
    requires Building(bs, c) && (c == [] || q.Quad?) && !JumpOp(q)
    ensures Building(bs, c + [q]) && Flatten(bs) + (c + [q]) == Flatten(bs) + c + [q]
  {
    StraightNext(c, q);
    JoinOne(Flatten(bs), c, q);
  }

  lemma JoinOne(a: Code, b: Code, q: Quad)
    ensures a + (b + [q]) == a + b + [q]
  {
  }

  lemma AddBlock(blocks: seq<Block>, b: Block)
    ensures QuadsOf(blocks + [b]) == QuadsOf(blocks) + [b.quads]
  {
  }

  /** Numbers go up from block to block. */
  predicate Numbered(blocks: seq<Block>, next: nat)
  {
    && (forall j, k :: 0 <= j < k < |blocks| ==> blocks[j].id < blocks[k].id)
    && (forall j :: 0 <= j < |blocks| ==> blocks[j].id < next)
  }

  method GetBlocks(quads: Code) returns (blocks: seq<Block>)
    ensures Flatten(QuadsOf(blocks)) == quads
    ensures IsPartition(QuadsOf(blocks))
    ensures forall i, j :: 0 <= i < j < |blocks| ==> blocks[i].id < blocks[j].id
    ensures CutByMachine(QuadsOf(blocks))
  {
    hide CutByMachine, IsPartition;
    hide Flatten, Building, QuadsOf, JumpOp;
    blocks := [];
    var blockId, current := 1, [];
    NoBlocks();
    for i := 0 to |quads|
      invariant Flatten(QuadsOf(blocks)) + current == quads[..i]
      invariant Building(QuadsOf(blocks), current) && Numbered(blocks, blockId)
    {
      var q := quads[i];
      assert quads[..i + 1] == quads[..i] + [q];
      if q.Label? && current != [] {
        BuildLabel(QuadsOf(blocks), current, q);
        AddBlock(blocks, Block(blockId, current));
        blocks := blocks + [Block(blockId, current)];
        blockId, current := blockId + 1, [q];
      } else if JumpOp(q) {
        BuildJump(QuadsOf(blocks), current, q);
        AddBlock(blocks, Block(blockId, current + [q]));
        blocks := blocks + [Block(blockId, current + [q])];
        blockId, current := blockId + 1, [];
      } else {
        BuildPlain(QuadsOf(blocks), current, q);
        current := current + [q];
      }
    }
    assert quads[..|quads|] == quads;
    Built(QuadsOf(blocks), current);
    if current != [] {
      AddBlock(blocks, Block(blockId, current));
      blocks := blocks + [Block(blockId, current)];
    }
    CutExact(QuadsOf(blocks));
  }

  lemma NoBlocks()
    ensures Building(QuadsOf([]), []) && Flatten(QuadsOf([])) == []
  {
  }

  lemma Built(bs: seq<Code>, c: Code)
    requires Building(bs, c)
    ensures IsPartition(bs) && Flatten(bs) + [] == Flatten(bs)
    ensures c != [] ==> IsPartition(bs + [c]) && Flatten(bs + [c]) == Flatten(bs) + c
  {
    if c != [] {
      Finish(bs, c);
    }
  }

  // ----- what the machine does at a quad -----

  /** The machine halts here or goes anywhere other than the next position. */
  ghost predicate Leaves(env: Env, p: Code, s: State)
  {
    match Step(env, p, s)
    case At(t) => t.pc != s.pc + 1
    case Halt(_, _) => true
    case Stuck => false
  }

  /** In some code and state a quad with this operator leaves. */
  ghost predicate CanLeave(q: Quad)
  {
    q.Quad? && exists env, p, s :: LeavesWith(q.op, env, p, s)
  }

  ghost predicate LeavesWith(op: Op, env: Env, p: Code, s: State)
  {
    s.pc < |p| && p[s.pc].Quad? && p[s.pc].op == op && Leaves(env, p, s)
  }

  /** A quad that does not end a block goes on to the next position or is stuck, in every state. */
  lemma OthersGoOn(env: Env, p: Code, s: State)
    requires s.pc < |p| && !JumpOp(p[s.pc])
    ensures !Leaves(env, p, s)
  {
  }

  /** Operands for which a quad that ends a block leaves. */
  function Witness(op: Op): Quad
  {
    var unequal := op.CJumpT? || op == CJump(JumpGt);
    var second: Word := if op.CJump? && op.rel in {JumpLt, JumpNe} then 1 else 0;
    Quad(op, ALabel(0), AConst(if unequal then 1 else 0), AConst(second))
  }

  lemma EndsLeave(env: Env, op: Op, s: State)
    requires JumpOp(Witness(op)) && s.pc == 0
    ensures LeavesWith(op, env, [Witness(op), Label(1), Label(0)], s)
  {
    var p := [Witness(op), Label(1), Label(0)];
    assert FindLabel(p, 0, 2) == Some(2);
    assert FindLabel(p, 0, 1) == Some(2);
    assert FindLabel(p, 0, 0) == Some(2);
  }

  /** The quads that end blocks are exactly those that can leave. */
  lemma JumpOpExact(q: Quad)
    ensures JumpOp(q) <==> CanLeave(q)
  {
    hide Leaves;
    if JumpOp(q) {
      var env: Env := (f, args, store) => None;
      EndsLeave(env, q.op, State(0, map[], map[], []));
    } else if CanLeave(q) {
      var env, p, s :| LeavesWith(q.op, env, p, s);
      OthersGoOn(env, p, s);
    }
  }

  /** Blocks by what the machine does: a label only at the head, nothing before the last quad that can leave, and a
      new block only at a label or after a quad that can leave. */
  ghost predicate CutByMachine(bs: seq<Code>)
  {
    && (forall b: Code :: b in bs ==> b != [] && forall i :: 0 < i < |b| ==> b[i].Quad?)
    && (forall b: Code :: b in bs ==> forall i :: 0 <= i < |b| - 1 ==> !CanLeave(b[i]))
    && (forall i, j :: 0 <= i < j < |bs| && j == i + 1 ==> bs[j][0].Label? || CanLeave(bs[i][|bs[i]| - 1]))
  }

  lemma CutExact(bs: seq<Code>)
    ensures IsPartition(bs) <==> CutByMachine(bs)
  {
    hide JumpOp, CanLeave;
    forall q
      ensures JumpOp(q) <==> CanLeave(q)
    {
      JumpOpExact(q);
    }
    if CutByMachine(bs) {
      forall i | 0 < i < |bs|
        ensures bs[i][0].Label? || EndsInJump(bs[i - 1])
      {
        var before := i - 1;
        assert bs[before] != [];
      }
    }
  }

  // ----- there is only one such partition -----

  lemma PartitionPrefix(bs: seq<Code>)
    requires IsPartition(bs) && bs != []
    ensures IsPartition(bs[..|bs| - 1])
  {
  }

  /** A block of some partition may start at j. */
  predicate Starts(c: Code, j: nat)
    requires j < |c|
  {
    j == 0 || c[j].Label? || JumpOp(c[j - 1])
  }

  /** The last block starts at the last position where one may. */
  lemma LastStart(bs: seq<Code>)
    requires IsPartition(bs) && bs != []
    ensures var c, at := Flatten(bs), |Flatten(bs)| - |bs[|bs| - 1]|;
            0 <= at < |c| && Starts(c, at) && forall j :: at < j < |c| ==> !Starts(c, j)
  {
    hide JumpOp;
    var n := |bs| - 1;
    var front, last := Flatten(bs[..n]), bs[n];
    var c, at := Flatten(bs), |front|;
    assert c == front + last;
    forall j | at < j < |c|
      ensures !Starts(c, j)
    {
      assert c[j] == last[j - at] && c[j - 1] == last[j - 1 - at];
    }
    assert c[at] == last[0];
    if n > 0 {
      var w := bs[n - 1];
      assert bs[..n][n - 1] == w && bs[..n][..n - 1] == bs[..n - 1];
      assert front == Flatten(bs[..n - 1]) + w;
      assert c[at - 1] == w[|w| - 1];
    }
  }

  /** Concatenation, straightness and the reason for each start determine the blocks. */
  lemma {:induction false} PartitionUnique(xs: seq<Code>, ys: seq<Code>)
    requires IsPartition(xs) && IsPartition(ys) && Flatten(xs) == Flatten(ys)
    ensures xs == ys
    decreases |xs|
  {
    hide IsPartition;
    if xs == [] {
      if ys != [] {
        NotEmpty(ys);
      }
    } else {
      NotEmpty(xs);
      if ys != [] {
        LastStart(xs);
        LastStart(ys);
        var a, b, x, y := Flatten(xs[..|xs| - 1]), Flatten(ys[..|ys| - 1]), xs[|xs| - 1], ys[|ys| - 1];
        assert (a + x)[..|a|] == a && (b + y)[..|b|] == b && (a + x)[|a|..] == x && (b + y)[|b|..] == y;
        PartitionPrefix(xs);
        PartitionPrefix(ys);
        PartitionUnique(xs[..|xs| - 1], ys[..|ys| - 1]);
      }
    }
  }

  lemma NotEmpty(bs: seq<Code>)
    requires IsPartition(bs) && bs != []
    ensures Flatten(bs) != []
  {
  }
}
