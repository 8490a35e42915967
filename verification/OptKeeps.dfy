/** A pass leaves docile code docile, so every pass over it preserves meaning. */
module OptKeeps {
  import opened Quads
  import opened Liveness
  import opened Needs
  import opened Nests
  import opened Optimizer
  import opened OptSim
  import opened OptOrder
  import opened OptHomes
  import opened OptClass

  // ----- each quad by itself -----

  lemma SubstKind(ctx: Contexts, tr: Traits, p: Code, i: nat)
    requires Docile(ctx, tr, p) && i < |p| && Search(ctx, p[i..]) == CopyUnarySubst
    ensures i + 1 < |p| && IsOp(p[i], Copy) && p[i].res.ATemp? && p[i + 1].Quad? && p[i + 1].arg1 == p[i].res
    ensures p[i + 1].op in {Copy, OpDeref, DerefCopy} || p[i + 1].op.OpCast? || p[i + 1].op.Un? || ConstTest(tr, p[i + 1])
    ensures (p[i + 1].op.OpCast? || p[i + 1].op.Un?) ==> !p[i].arg1.AConst?
    ensures Rewrite(ctx, p[i..]) == ([p[i + 1].(arg1 := p[i].arg1)], 2)
  {
    hide Docile, Gone, GoodThree, FoldFits, CopyPat3, CopyPat4, CopyPat5;
    var s := p[i..];
    assert s[0] == p[i] && s[1] == p[i + 1];
    SubstOk(ctx, tr, p, i);
    OkAt(ctx, tr, p, i + 1);
  }

  lemma SubstFits(ctx: Contexts, tr: Traits, p: Code, i: nat)
    requires Docile(ctx, tr, p) && i < |p| && Search(ctx, p[i..]) == CopyUnarySubst
    ensures QuadOk(ctx, tr, Rewrite(ctx, p[i..]).0[0])
  {
    hide Docile, Search, Rewrite;
    SubstKind(ctx, tr, p, i);
    OkAt(ctx, tr, p, i);
    OkAt(ctx, tr, p, i + 1);
  }

  lemma FoldFitsKind(ctx: Contexts, tr: Traits, p: Code, i: nat)
    requires Docile(ctx, tr, p) && i < |p| && Search(ctx, p[i..]) in {BinaryConstFold, AlgMulZero, AlgAddZero}
    ensures var out := Rewrite(ctx, p[i..]).0; out != [] ==> QuadOk(ctx, tr, out[0])
  {
    hide Docile, Folded, FoldJump, GoodThree;
    var s := p[i..];
    assert s[0] == p[i] && s[1] == p[i + 1] && s[2] == p[i + 2];
    ThreeOk(ctx, tr, p, i);
    GoodThreeParts(p, i);
    OkAt(ctx, tr, p, i);
    OkAt(ctx, tr, p, i + 1);
    OkAt(ctx, tr, p, i + 2);
  }

  lemma GoodThreeParts(p: Code, i: nat)
    requires i + 2 < |p| && p[i].Quad? && p[i + 1].Quad? && p[i + 2].Quad? && GoodThree(p, i)
    ensures p[i + 1].op == Copy && p[i].res.ATemp? && p[i + 1].res.ATemp? && p[i].res != p[i + 1].res
    ensures p[i + 2].arg1.ATemp? && p[i + 2].arg2.ATemp?
  {
  }

  lemma ConstFits(ctx: Contexts, tr: Traits, p: Code, i: nat)
    requires Docile(ctx, tr, p) && i < |p| && Search(ctx, p[i..]) in {RefSubst, UnaryConstFold, NoPattern}
    ensures var out := Rewrite(ctx, p[i..]).0; out != [] ==> QuadOk(ctx, tr, out[0])
  {
    hide Docile, CastWord, FoldUn, CopyPat3, CopyPat4, CopyPat5, Good, Gone;
    var s := p[i..];
    assert s[0] == p[i];
    OkAt(ctx, tr, p, i);
    if Search(ctx, s) != NoPattern {
      assert s[1] == p[i + 1];
      OkAt(ctx, tr, p, i + 1);
      if Search(ctx, s) == UnaryConstFold {
        ConstTemp(ctx, tr, p, i);
      }
    }
  }

  lemma ConstTemp(ctx: Contexts, tr: Traits, p: Code, i: nat)
    requires Docile(ctx, tr, p) && i < |p| && Search(ctx, p[i..]) == UnaryConstFold
    ensures i + 1 < |p| && p[i + 1].Quad? && p[i].Quad? && p[i + 1].arg1 == p[i].res
  {
    hide Docile, CopyPat3, CopyPat4, CopyPat5, Gone;
    ConstOk(ctx, tr, p, i);
    assert p[i..][0] == p[i] && p[i..][1] == p[i + 1];
  }

  lemma OutOk(ctx: Contexts, tr: Traits, p: Code, i: nat)
    requires Docile(ctx, tr, p) && i < |p|
    ensures var out := Rewrite(ctx, p[i..]).0; out != [] ==> QuadOk(ctx, tr, out[0])
  {
    hide Docile, Rewrite, QuadOk, CopyPat2, CopyPat3, CopyPat4, CopyPat5;
    NoIndex(ctx, tr, p, i);
    if Search(ctx, p[i..]) in {BinaryConstFold, AlgMulZero, AlgAddZero} {
      FoldFitsKind(ctx, tr, p, i);
    } else if Search(ctx, p[i..]) == CopyUnarySubst {
      SubstFits(ctx, tr, p, i);
    } else {
      ConstFits(ctx, tr, p, i);
    }
  }

  lemma KeepsOk(ctx: Contexts, tr: Traits, p: Code)
    requires Docile(ctx, tr, p)
    ensures AllOk(ctx, tr, Pass(ctx, p))
  {
    hide Docile, QuadOk, Rewrite, Pass, Aligned, NestAt, GoodFrom, Good;
    DocileGoodFrom(ctx, tr, p, 0);
    forall k: nat | k < |Pass(ctx, p)|
      ensures QuadOk(ctx, tr, Pass(ctx, p)[k])
    {
      var a := FirstOrigin(ctx, p, k);
      OutOk(ctx, tr, p, a);
    }
  }

  // ----- where reads come from -----

  /** The quad of a window that reads what its rewriting reads: the first one, if it is copied from there. */
  lemma ReadOrigin(ctx: Contexts, tr: Traits, p: Code, a: nat, q: Quad, t: nat) returns (m: nat)
    requires Docile(ctx, tr, p) && a < |p| && Rewrite(ctx, p[a..]).0 == [q] && Reads(q, t)
    ensures a <= m < a + Rewrite(ctx, p[a..]).1 && m < |p| && Reads(p[m], t)
    ensures Writes(p[m], t) ==> Writes(q, t)
    ensures Idle(p, m) ==> IsOp(q, Copy) && q.res == p[m].res
  {
    hide Docile, Rewrite, Good, Idle, Search, QuadOk;
    var k := Rewrite(ctx, p[a..]).1;
    WindowSizes(ctx, p[a..]);
    match Search(ctx, p[a..])
    case NoPattern =>
      OneQuad(ctx, p, a);
      m := a;
      IdleCopy(p, m);
    case RefSubst =>
      RefWindow(ctx, p, a);
      m := a + 1;
      IdleCopy(p, m);
    case CopyUnarySubst =>
      SubstKind(ctx, tr, p, a);
      m := if p[a].arg1 == ATemp(t) && p[a].res != ATemp(t) then a else a + 1;
      IdleCopy(p, m);
      NotIdle(p, a, a + 1);
    case AlgAddZero =>
      ZeroWindow(ctx, tr, p, a);
      m := if p[a].res == ATemp(t) then a + 2 else a;
      IdleCopy(p, m);
      NotIdle(p, a, a + 2);
    case _ => NoReads(ctx, p, a, q, t);
  }

  lemma IdleCopy(p: Code, m: nat)
    requires m < |p|
    ensures Idle(p, m) ==> IsOp(p[m], Copy)
  {
  }

  lemma NotIdle(p: Code, m: nat, k: nat)
    requires m < |p| && k < |p| && p[m].Quad? && p[k].Quad? && p[m].res.ATemp? && p[k].arg1 == p[m].res
    ensures !Idle(p, m)
  {
    assert Reads(p[k], p[m].res.t);
  }

  lemma RefWindow(ctx: Contexts, p: Code, a: nat)
    requires a < |p| && Search(ctx, p[a..]) == RefSubst
    ensures a + 1 < |p| && p[a].Quad? && IsOp(p[a + 1], DerefCopy) && p[a].res.ATemp? && p[a + 1].res == p[a].res
    ensures Rewrite(ctx, p[a..]) == ([CopyOf(p[a].arg1, p[a + 1].arg1)], 2)
  {
    assert p[a..][0] == p[a] && p[a..][1] == p[a + 1];
  }

  lemma ZeroWindow(ctx: Contexts, tr: Traits, p: Code, a: nat)
    requires Docile(ctx, tr, p) && a < |p| && Search(ctx, p[a..]) == AlgAddZero
    ensures a + 2 < |p| && IsOp(p[a], Copy) && TwoOperands(p[a + 2]) && p[a].res.ATemp? && p[a + 2].arg1 == p[a].res
    ensures p[a + 2].op == Alu(OpAdd) && p[a + 2].arg2.ATemp? && p[a + 2].arg2 != p[a + 2].arg1
    ensures Rewrite(ctx, p[a..]) == ([CopyOf(p[a + 2].res, p[a].arg1)], 3)
  {
    hide Docile, Gone, CopyPat2, CopyPat3, CopyPat4;
    assert p[a..][0] == p[a] && p[a..][1] == p[a + 1] && p[a..][2] == p[a + 2];
    ThreeOk(ctx, tr, p, a);
  }

  lemma NoReads(ctx: Contexts, p: Code, a: nat, q: Quad, t: nat)
    requires a < |p| && Rewrite(ctx, p[a..]).0 == [q]
    requires Search(ctx, p[a..]) in {UnaryConstFold, BinaryConstFold, IndexConstFold, AlgMulZero}
    ensures !Reads(q, t)
  {
    hide Folded, CastWord, FoldUn, FoldJump;
  }

  /** Nothing is read that was not. */
  lemma ReadBefore(ctx: Contexts, tr: Traits, p: Code, k: nat, t: nat) returns (m: nat)
    requires Docile(ctx, tr, p) && k < |Pass(ctx, p)| && Reads(Pass(ctx, p)[k], t)
    ensures m < |p| && Reads(p[m], t)
  {
    hide Docile, Rewrite, Pass, Aligned, NestAt, GoodFrom, Good, Idle;
    DocileGoodFrom(ctx, tr, p, 0);
    var a := FirstOrigin(ctx, p, k);
    m := ReadOrigin(ctx, tr, p, a, Pass(ctx, p)[k], t);
  }

  /** An idle copy stays idle. */
  lemma StaysIdle(ctx: Contexts, tr: Traits, p: Code, m: nat, k: nat)
    requires Docile(ctx, tr, p) && m < |p| && Idle(p, m) && k < |Pass(ctx, p)|
    requires IsOp(Pass(ctx, p)[k], Copy) && Pass(ctx, p)[k].res == p[m].res
    ensures Idle(Pass(ctx, p), k)
  {
    hide Docile, Pass, Reads;
    forall j: nat | j < |Pass(ctx, p)|
      ensures !Reads(Pass(ctx, p)[j], p[m].res.t)
    {
      if Reads(Pass(ctx, p)[j], p[m].res.t) {
        var i := ReadBefore(ctx, tr, p, j, p[m].res.t);
      }
    }
  }

  lemma KeepsSingle(ctx: Contexts, tr: Traits, p: Code)
    requires Docile(ctx, tr, p)
    ensures Single(Pass(ctx, p))
  {
    hide Rewrite, Pass, Aligned, NestAt, GoodFrom, Good, Idle, Reads, Writes, Ordered, AllOk, Settled, Fed, NoLoops;
    var p' := Pass(ctx, p);
    DocileGoodFrom(ctx, tr, p, 0);
    forall j: nat, k: nat, t: nat | j < k < |p'| && Reads(p'[j], t) && !Writes(p'[j], t) && Reads(p'[k], t)
      ensures Idle(p', k)
    {
      var a := FirstOrigin(ctx, p, j);
      var b := NextOrigin(ctx, p, a, j, k);
      var m1 := ReadOrigin(ctx, tr, p, a, p'[j], t);
      var m2 := ReadOrigin(ctx, tr, p, b, p'[k], t);
      assert Idle(p, m2);
      StaysIdle(ctx, tr, p, m2, k);
    }
  }

  lemma KeepsNoLoops(ctx: Contexts, tr: Traits, p: Code)
    requires Docile(ctx, tr, p)
    ensures NoLoops(Pass(ctx, p))
  {
    hide Rewrite, Pass, Aligned, NestAt, GoodFrom, Good, Idle, Reads, Writes, Docile, Search;
    var p' := Pass(ctx, p);
    DocileGoodFrom(ctx, tr, p, 0);
    forall k: nat | k < |p'| && IsOp(p'[k], DerefCopy)
      ensures p'[k].arg1 != p'[k].res
    {
      var a := FirstOrigin(ctx, p, k);
      StoreKept(ctx, tr, p, a, p'[k]);
    }
  }

  lemma StoreKept(ctx: Contexts, tr: Traits, p: Code, a: nat, q: Quad)
    requires Docile(ctx, tr, p) && a < |p| && Rewrite(ctx, p[a..]).0 == [q] && IsOp(q, DerefCopy)
    ensures q.arg1 != q.res
  {
    hide Docile, Rewrite, Search, Idle;
    OkAt(ctx, tr, p, a);
    if Search(ctx, p[a..]) == NoPattern {
      OneQuad(ctx, p, a);
    } else if Search(ctx, p[a..]) == CopyUnarySubst {
      SubstKind(ctx, tr, p, a);
      OkAt(ctx, tr, p, a + 1);
      NotBoth(ctx, tr, p, a);
    } else {
      OtherOps(ctx, p, a);
    }
  }

  lemma OtherOps(ctx: Contexts, p: Code, a: nat)
    requires a < |p| && Search(ctx, p[a..]) !in {NoPattern, CopyUnarySubst}
    ensures var out := Rewrite(ctx, p[a..]).0; out != [] ==> out[0].Quad? && out[0].op in {Copy, UJump}
  {
    hide Folded, CastWord, FoldUn, FoldJump;
  }

  /** A temporary copied into the stored value is not the address. */
  lemma NotBoth(ctx: Contexts, tr: Traits, p: Code, a: nat)
    requires Docile(ctx, tr, p) && a + 1 < |p| && IsOp(p[a], Copy) && p[a].res.ATemp? && IsOp(p[a + 1], DerefCopy)
    requires p[a + 1].res.ATemp? && p[a + 1].res != p[a].res
    ensures p[a].arg1 != p[a + 1].res
  {
    hide Ordered, AllOk, Settled, Fed, NoLoops;
    if p[a].arg1 == p[a + 1].res {
      var t := p[a + 1].res.t;
      assert Reads(p[a], t) && !Writes(p[a], t) && Reads(p[a + 1], t);
      IdleCopy(p, a + 1);
    }
  }

  // ----- what stands before an operator -----

  /** The window that starts at c became nothing, or the quad before i'. */
  ghost predicate PrevOut(ctx: Contexts, p: Code, c: nat, i': nat)
    requires c < |p| && i' <= |Pass(ctx, p)|
  {
    var out := Rewrite(ctx, p[c..]).0;
    out == [] || (i' > 0 && out == [Pass(ctx, p)[i' - 1]])
  }

  ghost predicate Precedes(ctx: Contexts, p: Code, c: nat, i: nat, i': nat)
    requires i' <= |Pass(ctx, p)|
  {
    c < i <= |p| && c + Rewrite(ctx, p[c..]).1 == i && Good(ctx, p, c) && PrevOut(ctx, p, c, i')
  }

  /** The window a quad comes from, and the window before that one. */
  lemma {:induction false} Before(ctx: Contexts, p: Code, c: nat, i: nat, i': nat, k: nat) returns (b: nat, a: nat)
    requires GoodFrom(ctx, p, i) && i <= |p| && Aligned(ctx, p, Pass(ctx, p), i, i') && i' <= k < |Pass(ctx, p)|
    requires i == 0 || Precedes(ctx, p, c, i, i')
    ensures a < |p| && Good(ctx, p, a) && Rewrite(ctx, p[a..]).0 == [Pass(ctx, p)[k]]
    ensures a == 0 || Precedes(ctx, p, b, a, k)
    decreases |p| - i
  {
    hide Pass, Rewrite, Good, Aligned;
    var p' := Pass(ctx, p);
    InsideBoth(ctx, p, i, i');
    var (out, n) := Rewrite(ctx, p[i..]);
    WindowAt(ctx, p, p', i, i');
    WindowFlow(ctx, p, i);
    assert out != [] ==> out == [p'[i' + 0]];
    if out != [] && i' == k {
      b, a := c, i;
    } else {
      b, a := Before(ctx, p, i, i + n, i' + |out|, k);
    }
  }

  lemma OperatorKept(ctx: Contexts, tr: Traits, p: Code, a: nat, q: Quad)
    requires Docile(ctx, tr, p) && a < |p| && Rewrite(ctx, p[a..]).0 == [q] && TwoOperands(q)
    ensures p[a] == q
  {
    hide Docile, Rewrite, Search;
    if Search(ctx, p[a..]) == NoPattern {
      OneQuad(ctx, p, a);
    } else if Search(ctx, p[a..]) == CopyUnarySubst {
      SubstKind(ctx, tr, p, a);
    } else {
      OtherOps(ctx, p, a);
    }
  }

  lemma LabelWindow(ctx: Contexts, p: Code, c: nat)
    requires c < |p| && p[Last(ctx, p, c)].Label?
    ensures Rewrite(ctx, p[c..]) == ([p[Last(ctx, p, c)]], 1)
  {
    var s := p[c..];
    WindowSizes(ctx, s);
    if Search(ctx, s) == NoPattern {
      OneQuad(ctx, p, c);
    }
  }

  lemma KeepsFed(ctx: Contexts, tr: Traits, p: Code)
    requires Docile(ctx, tr, p)
    ensures Fed(Pass(ctx, p))
  {
    hide Rewrite, Pass, Aligned, GoodFrom, Good, Writes, Docile, Search, Precedes;
    var p' := Pass(ctx, p);
    DocileGoodFrom(ctx, tr, p, 0);
    StartAligned(ctx, p);
    forall k: nat | k < |p'| && TwoOperands(p'[k])
      ensures FedAt(p', k)
    {
      var b, a := Before(ctx, p, 0, 0, 0, k);
      OperatorKept(ctx, tr, p, a, p'[k]);
      OkAt(ctx, tr, p, a);
      FedBefore(ctx, p, b, a, k);
    }
  }

  lemma FedBefore(ctx: Contexts, p: Code, b: nat, a: nat, k: nat)
    requires 0 < a < |p| && k < |Pass(ctx, p)| && Precedes(ctx, p, b, a, k) && p[a] == Pass(ctx, p)[k]
    requires FedAt(p, a) && TwoOperands(p[a])
    ensures FedAt(Pass(ctx, p), k)
  {
    hide Rewrite, Pass, Good, Writes;
    assert a - 1 == Last(ctx, p, b);
    if p[a - 1].Label? {
      LabelWindow(ctx, p, b);
    } else {
      WindowFlow(ctx, p, b);
    }
  }

  // ----- what stands between an assignment and a read -----

  ghost predicate ReadIn(p: Code, m: nat, b: nat, t: nat)
  {
    exists l: nat :: m < l < b && l < |p| && Reads(p[l], t) && !Writes(p[l], t)
  }

  /** What a window sets, its rewriting sets, or its last quad reads it and it is gone. */
  lemma WindowConsumes(ctx: Contexts, tr: Traits, p: Code, i: nat, m: nat, t: nat)
    requires Docile(ctx, tr, p) && i < |p| && i <= m < i + Rewrite(ctx, p[i..]).1 && m < |p| && Writes(p[m], t)
    ensures var (out, n) := Rewrite(ctx, p[i..]); (out != [] && Writes(out[0], t)) || ReadIn(p, m, i + n, t)
  {
    hide Docile, Rewrite, Good, Search;
    var (out, n) := Rewrite(ctx, p[i..]);
    var last := i + n - 1;
    WindowSizes(ctx, p[i..]);
    DocileGoodAt(ctx, tr, p, i);
    WindowFlow(ctx, p, i);
    if !Writes(p[last], t) {
      assert Reads(p[last], t) by { LastReads(ctx, tr, p, i, m, t); }
      assert m < last;
    }
  }

  lemma LastReads(ctx: Contexts, tr: Traits, p: Code, i: nat, m: nat, t: nat)
    requires Docile(ctx, tr, p) && i < |p| && i <= m < i + Rewrite(ctx, p[i..]).1 - 1 && m < |p| && Writes(p[m], t)
    ensures i + Rewrite(ctx, p[i..]).1 <= |p| && Reads(p[i + Rewrite(ctx, p[i..]).1 - 1], t)
  {
    hide Docile, Rewrite, Good, Search;
    WindowSizes(ctx, p[i..]);
    NoIndex(ctx, tr, p, i);
    match Search(ctx, p[i..])
    case RefSubst => RefWindow(ctx, p, i);
    case CopyUnarySubst => SubstKind(ctx, tr, p, i);
    case UnaryConstFold => ConstTemp(ctx, tr, p, i);
    case NoPattern =>
    case _ => ThreeRead(ctx, tr, p, i);
  }

  lemma ThreeRead(ctx: Contexts, tr: Traits, p: Code, i: nat)
    requires Docile(ctx, tr, p) && i < |p| && Search(ctx, p[i..]) in {BinaryConstFold, AlgMulZero, AlgAddZero}
    ensures i + 2 < |p| && p[i].Quad? && p[i + 1].Quad? && p[i + 2].Quad?
    ensures p[i + 2].arg1 == p[i].res && p[i + 2].arg2 == p[i + 1].res
  {
    hide Docile, Gone, FoldFits;
    assert p[i..][0] == p[i] && p[i..][1] == p[i + 1] && p[i..][2] == p[i + 2];
    ThreeOk(ctx, tr, p, i);
  }

  /** Going over the windows up to the one that becomes the quad at k: t is set in the rewritten code on the
      way, or whatever sets it in the original is read again and gone. */
  lemma {:induction false} WalkWrites(ctx: Contexts, tr: Traits, p: Code, i: nat, i': nat, k: nat, t: nat)
    returns (b: nat)
    requires Docile(ctx, tr, p) && i <= |p| && Aligned(ctx, p, Pass(ctx, p), i, i') && i' <= k < |Pass(ctx, p)|
    ensures i <= b < |p| && Rewrite(ctx, p[b..]).0 == [Pass(ctx, p)[k]]
    ensures WrittenIn(Pass(ctx, p), i', k, t) || forall m: nat :: i <= m < b && Writes(p[m], t) ==> ReadIn(p, m, b, t)
    decreases |p| - i
  {
    hide Pass, Rewrite, Good, Aligned, Docile, Writes, Reads;
    var p' := Pass(ctx, p);
    InsideBoth(ctx, p, i, i');
    var (out, n) := Rewrite(ctx, p[i..]);
    WindowAt(ctx, p, p', i, i');
    DocileGoodAt(ctx, tr, p, i);
    WindowFlow(ctx, p, i);
    assert out != [] ==> out == [p'[i' + 0]];
    if out != [] && i' == k {
      b := i;
    } else {
      b := WalkWrites(ctx, tr, p, i + n, i' + |out|, k, t);
      if !WrittenIn(p', i', k, t) {
        NotWrittenLater(p', i', i' + |out|, k, t);
        forall m: nat | i <= m < b && Writes(p[m], t)
          ensures ReadIn(p, m, b, t)
        {
          if m < i + n {
            WindowConsumes(ctx, tr, p, i, m, t);
          }
        }
      }
    }
  }

  lemma NotWrittenLater(p: Code, i: nat, j: nat, k: nat, t: nat)
    requires i <= j && !WrittenIn(p, i, k, t)
    ensures !WrittenIn(p, j, k, t) && (i < k && i < |p| ==> !Writes(p[i], t))
  {
  }

  /** The first quad of a window that reads what its rewriting reads: nothing before it in the window sets that. */
  lemma ReadFirst(ctx: Contexts, tr: Traits, p: Code, b: nat, q: Quad, t: nat) returns (m: nat)
    requires Docile(ctx, tr, p) && b < |p| && Rewrite(ctx, p[b..]).0 == [q] && Reads(q, t)
    ensures b <= m < |p| && Reads(p[m], t) && forall l: nat :: b <= l < m ==> !Writes(p[l], t)
    ensures Idle(p, m) ==> IsOp(q, Copy) && q.res == p[m].res
  {
    hide Docile, Rewrite, Good, Idle, Search, QuadOk;
    WindowSizes(ctx, p[b..]);
    match Search(ctx, p[b..])
    case NoPattern =>
      OneQuad(ctx, p, b);
      m := b;
      IdleCopy(p, m);
    case RefSubst =>
      RefWindow(ctx, p, b);
      OkAt(ctx, tr, p, b + 1);
      m := b + 1;
      IdleCopy(p, m);
    case CopyUnarySubst =>
      SubstKind(ctx, tr, p, b);
      OkAt(ctx, tr, p, b + 1);
      NoSecond(ctx, tr, p[b + 1]);
      m := if p[b].arg1 == ATemp(t) then b else b + 1;
      IdleCopy(p, m);
      NotIdle(p, b, b + 1);
    case AlgAddZero =>
      ZeroWindow(ctx, tr, p, b);
      m := b;
      NotIdle(p, b, b + 2);
    case _ => NoReads(ctx, p, b, q, t);
  }

  lemma NoSecond(ctx: Contexts, tr: Traits, q: Quad)
    requires QuadOk(ctx, tr, q) && q.Quad?
    requires q.op in {Copy, OpDeref, DerefCopy} || q.op.OpCast? || q.op.Un? || ConstTest(tr, q)
    ensures !q.arg2.ATemp?
  {
  }

  /** An assignment comes from an assignment at the end of its window. */
  lemma SetKept(ctx: Contexts, tr: Traits, p: Code, a: nat, q: Quad)
    requires Docile(ctx, tr, p) && a < |p| && Rewrite(ctx, p[a..]).0 == [q] && Sets(q)
    ensures Sets(p[Last(ctx, p, a)])
  {
    hide Docile, Rewrite, Good, Search, QuadOk;
    WindowSizes(ctx, p[a..]);
    NoIndex(ctx, tr, p, a);
    match Search(ctx, p[a..])
    case NoPattern => OneQuad(ctx, p, a);
    case RefSubst => RefWindow(ctx, p, a);
    case CopyUnarySubst => SubstKind(ctx, tr, p, a);
    case UnaryConstFold => UnaryResult(ctx, tr, p, a);
    case _ => ThreeResult(ctx, tr, p, a);
  }

  lemma UnaryResult(ctx: Contexts, tr: Traits, p: Code, a: nat)
    requires Docile(ctx, tr, p) && a < |p| && Search(ctx, p[a..]) == UnaryConstFold
    ensures var out := Rewrite(ctx, p[a..]).0; out != [] ==> !Sets(out[0])
  {
    hide Docile, CastWord, FoldUn, CopyPat3, CopyPat4, CopyPat5;
    assert p[a..][0] == p[a] && p[a..][1] == p[a + 1];
    OkAt(ctx, tr, p, a + 1);
  }

  lemma ThreeResult(ctx: Contexts, tr: Traits, p: Code, a: nat)
    requires Docile(ctx, tr, p) && a < |p| && Search(ctx, p[a..]) in {BinaryConstFold, AlgMulZero, AlgAddZero}
    ensures var out := Rewrite(ctx, p[a..]).0; out != [] ==> !Sets(out[0])
  {
    hide Docile, Folded, FoldJump;
    assert p[a..][0] == p[a] && p[a..][1] == p[a + 1] && p[a..][2] == p[a + 2];
    OkAt(ctx, tr, p, a + 2);
  }

  lemma KeepsSettled(ctx: Contexts, tr: Traits, p: Code)
    requires Docile(ctx, tr, p)
    ensures Settled(Pass(ctx, p))
  {
    hide Rewrite, Pass, Aligned, NestAt, GoodFrom, Good, Idle, Reads, Writes, Docile, Sets, Settled;
    var p' := Pass(ctx, p);
    DocileGoodFrom(ctx, tr, p, 0);
    forall i: nat, k: nat, t: nat | i < k < |p'| && Sets(p'[i]) && Reads(p'[k], t) && !Idle(p', k)
      ensures WrittenIn(p', i + 1, k, t)
    {
      var a := FirstOrigin(ctx, p, i);
      SetKept(ctx, tr, p, a, p'[i]);
      WindowAt(ctx, p, p', a, i);
      var n := Rewrite(ctx, p[a..]).1;
      var b := WalkWrites(ctx, tr, p, a + n, i + 1, k, t);
      var m2 := ReadFirst(ctx, tr, p, b, p'[k], t);
      if Idle(p, m2) {
        StaysIdle(ctx, tr, p, m2, k);
      }
      SettledHere(ctx, tr, p, a + n, b, m2, t);
    }
    SettledFrom(p');
  }

  lemma SettledFrom(p: Code)
    requires forall i: nat, k: nat, t: nat :: i < k < |p| && Sets(p[i]) && Reads(p[k], t) && !Idle(p, k) ==> WrittenIn(p, i + 1, k, t)
    ensures Settled(p)
  {
  }

  /** What is read at m and not idle was set since the last assignment, and has not been read since then. */
  lemma SettledHere(ctx: Contexts, tr: Traits, p: Code, i: nat, b: nat, m: nat, t: nat)
    requires Docile(ctx, tr, p) && 0 < i <= b <= m < |p| && Sets(p[i - 1]) && Reads(p[m], t) && !Idle(p, m)
    requires forall l: nat :: b <= l < m ==> !Writes(p[l], t)
    ensures !forall l: nat :: i <= l < b && Writes(p[l], t) ==> ReadIn(p, l, b, t)
  {
    hide Idle, Reads, Writes, Sets, Ordered, AllOk, Fed, NoLoops;
    assert WrittenIn(p, i - 1 + 1, m, t);
    var l: nat :| i <= l < m && l < |p| && Writes(p[l], t);
  }

  // ----- passes -----

  lemma DocilePass(ctx: Contexts, tr: Traits, p: Code)
    requires Docile(ctx, tr, p)
    ensures GoodFrom(ctx, p, 0) && Docile(ctx, tr, Pass(ctx, p))
  {
    hide Pass, GoodFrom, AllOk, Single, Settled, Fed, NoLoops, Ordered;
    DocileGoodFrom(ctx, tr, p, 0);
    PassOrdered(ctx, p);
    KeepsOk(ctx, tr, p);
    KeepsSingle(ctx, tr, p);
    KeepsSettled(ctx, tr, p);
    KeepsFed(ctx, tr, p);
    KeepsNoLoops(ctx, tr, p);
  }

  /** For docile code all passes go over good windows only. */
  lemma {:induction false} DocileAllGood(ctx: Contexts, tr: Traits, p: Code)
    requires Docile(ctx, tr, p)
    ensures AllGood(ctx, p) && Docile(ctx, tr, Passes(ctx, p))
    decreases |p|
  {
    hide Pass, GoodFrom, Docile;
    PassShortens(ctx, p);
    if |Pass(ctx, p)| != |p| {
      DocilePass(ctx, tr, p);
      DocileAllGood(ctx, tr, Pass(ctx, p));
    }
  }
}
