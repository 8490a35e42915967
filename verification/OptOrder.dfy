/** A pass keeps code in order: what is needed of the rewritten code was needed of the original. */
module OptOrder {
  import opened Words
  import opened Ast
  import opened Quads
  import opened Labels
  import opened Liveness
  import opened Needs
  import opened Optimizer
  import opened OptSim

  /** The last quad of the window that starts at i. */
  function Last(ctx: Contexts, p: Code, i: nat): (j: nat)
    requires i < |p|
    ensures i <= j < |p|
  {
    i + Rewrite(ctx, p[i..]).1 - 1
  }

  /** What a window becomes goes where its last quad goes and sets at least what that sets. */
  lemma WindowFlow(ctx: Contexts, p: Code, i: nat)
    requires i < |p| && Good(ctx, p, i)
    ensures var out, q := Rewrite(ctx, p[i..]).0, p[Last(ctx, p, i)];
            && |out| <= 1
            && (out == [] ==> FallsThrough(q) && forall u: nat :: !Writes(q, u))
            && (out != [] ==>
                  && (FallsThrough(out[0]) ==> FallsThrough(q))
                  && (IsJump(out[0]) ==> IsJump(q) && q.res == out[0].res)
                  && forall u: nat :: Writes(q, u) ==> Writes(out[0], u))
  {
    hide Gone, FoldFits, Folded, CastWord, FoldUn, FoldJump;
    var s, k := p[i..], Rewrite(ctx, p[i..]).1;
    WindowSizes(ctx, s);
    assert s[k - 1] == p[i + k - 1];
  }

  /** What is needed after a window and not set by its last quad is needed where the window starts. */
  lemma WalkBack(ctx: Contexts, p: Code, i: nat, u: nat)
    requires i < |p| && Good(ctx, p, i) && NeedAfter(p, Last(ctx, p, i), u) && !Writes(p[Last(ctx, p, i)], u)
    ensures NeedAt(p, i, u)
  {
    hide NeedAt, NeedAfter, Rewrite, FoldFits, Target;
    var s, k := p[i..], Rewrite(ctx, p[i..]).1;
    WindowSizes(ctx, s);
    NeedThrough(p, i + k - 1, u);
    assert s[0] == p[i];
    if k >= 2 {
      assert s[1] == p[i + 1];
      assert !Writes(p[i], u);
      if k == 3 {
        assert s[2] == p[i + 2];
        NeedBack(p, i + 1, i + 2, u);
        NeedThrough(p, i + 1, u);
      }
      NeedBack(p, i, i + 1, u);
      NeedThrough(p, i, u);
    }
  }

  /** What the rewritten quad reads is needed where the window starts, if the quad matters. */
  lemma ReadBack(ctx: Contexts, p: Code, i: nat, t: nat)
    requires i < |p| && Good(ctx, p, i) && Rewrite(ctx, p[i..]).0 != [] && Reads(Rewrite(ctx, p[i..]).0[0], t)
    requires var q := Rewrite(ctx, p[i..]).0[0]; Pure(q) ==> NeedAfter(p, Last(ctx, p, i), q.res.t)
    ensures NeedAt(p, i, t)
  {
    hide NeedAt, NeedAfter, Gone, FoldFits, Folded, FoldUnary, FoldBinary;
    var s := p[i..];
    WindowSizes(ctx, s);
    assert s[0] == p[i];
    match Search(ctx, s)
    case NoPattern => NeedRead(p, i, t);
    case RefSubst =>
      assert s[1] == p[i + 1];
      SecondReads(p, i, p[i].res.t);
    case CopyUnarySubst =>
      assert s[1] == p[i + 1];
      SubstReads(p, i, t);
    case AlgAddZero =>
      assert s[1] == p[i + 1] && s[2] == p[i + 2];
      ZeroReads(p, i, t);
    case UnaryConstFold => FoldReads(s[1], s[0].arg1.w, t);
    case BinaryConstFold => FoldBinaryReads(s[2], s[0].arg1.w, s[1].arg1.w, t);
    case IndexConstFold =>
    case AlgMulZero =>
  }

  lemma FoldReads(q: Quad, c: Word, t: nat)
    requires q.Quad? && (q.op.OpCast? || q.op.Un? || q.op in {CJumpT, CJumpF})
    ensures FoldUnary(q, c) != [] ==> !Reads(FoldUnary(q, c)[0], t)
  {
    hide CastWord, FoldUn;
  }

  lemma FoldBinaryReads(q: Quad, a: Word, b: Word, t: nat)
    requires q.Quad? && (q.op.Alu? || q.op.CJump?)
    ensures FoldBinary(q, a, b) != [] ==> !Reads(FoldBinary(q, a, b)[0], t)
  {
    hide Folded, FoldJump;
  }

  /** A copy and a quad that reads it. */
  lemma SubstReads(p: Code, i: nat, t: nat)
    requires i + 1 < |p| && IsOp(p[i], Copy) && p[i].res.ATemp? && p[i + 1].Quad? && p[i + 1].op != OpRef
    requires p[i + 1].arg1 == p[i].res && p[i + 1].arg2 != p[i].res
    requires p[i + 1].op == DerefCopy ==> p[i + 1].res != p[i].res
    requires var q := p[i + 1].(arg1 := p[i].arg1); Reads(q, t) && (Pure(q) ==> NeedAfter(p, i + 1, q.res.t))
    ensures NeedAt(p, i, t)
  {
    hide NeedAt, NeedAfter;
    var x := p[i].res.t;
    assert Reads(p[i + 1], x) && Matters(p, i + 1);
    SecondReads(p, i, x);
    if p[i].arg1 == ATemp(t) {
      NeedRead(p, i, t);
    }
  }

  /** Adding a copied zero to a copy of t. */
  lemma ZeroReads(p: Code, i: nat, t: nat)
    requires i + 2 < |p| && IsOp(p[i], Copy) && p[i + 1].Quad? && p[i + 2].Quad? && GoodThree(p, i)
    requires IsOp(p[i + 2], Alu(OpAdd)) && p[i + 2].arg1 == p[i].res && p[i].arg1 == ATemp(t)
    requires Pure(CopyOf(p[i + 2].res, p[i].arg1)) ==> NeedAfter(p, i + 2, p[i + 2].res.t)
    ensures NeedAt(p, i, t)
  {
    hide NeedAt, NeedAfter, Gone;
    var x := p[i].res.t;
    NeedRead(p, i + 2, x);
    NeedBack(p, i + 1, i + 2, x);
    NeedThrough(p, i + 1, x);
    NeedBack(p, i, i + 1, x);
    NeedRead(p, i, t);
  }

  /** Labels of the rewritten code come from the original. */
  lemma {:induction false} LabelFrom(ctx: Contexts, s: Code, l: nat)
    requires Label(l) in Pass(ctx, s)
    ensures Label(l) in s
  {
    hide Rewrite, Pass;
    FromSomething(ctx, s);
    var (out, k) := Rewrite(ctx, s);
    PassParts(ctx, s);
    WindowLabels(ctx, s, l);
    if Label(l) in Pass(ctx, s[k..]) {
      LabelFrom(ctx, s[k..], l);
    }
  }

  lemma FromSomething(ctx: Contexts, s: Code)
    requires Pass(ctx, s) != []
    ensures s != []
  {
  }

  /** A jump target of the rewritten code and the one of the original it stands for. */
  lemma TargetFrom(ctx: Contexts, p: Code, l: nat)
    requires GoodFrom(ctx, p, 0) && FindLabel(Pass(ctx, p), l, 0).Some?
    ensures FindLabel(p, l, 0).Some?
    ensures var k := FindLabel(p, l, 0).value;
            GoodFrom(ctx, p, k) && Aligned(ctx, p, Pass(ctx, p), k, FindLabel(Pass(ctx, p), l, 0).value)
  {
    hide GoodFrom, Aligned, Pass;
    LabelFrom(ctx, p, l);
    JumpsAligned(ctx, p, l);
    GoodAtLabel(ctx, p, 0, FindLabel(p, l, 0).value);
  }

  /** What the rewritten code needs at a point the original needs at the point it stands for. */
  lemma {:induction false} NeedFrom(ctx: Contexts, p: Code, i: nat, i': nat, t: nat, n: nat)
    requires GoodFrom(ctx, p, 0) && GoodFrom(ctx, p, i) && Aligned(ctx, p, Pass(ctx, p), i, i')
    requires Needed(Pass(ctx, p), i', t, n)
    ensures NeedAt(p, i, t)
    decreases n, |p| - i
  {
    hide Pass, Rewrite, Good, Aligned, NeedAt, NeedAfter, NeededNext, Reads, Writes, Target;
    var p' := Pass(ctx, p);
    InsideBoth(ctx, p, i, i');
    var (out, k) := Rewrite(ctx, p[i..]);
    WindowAt(ctx, p, p', i, i');
    WindowFlow(ctx, p, i);
    if out == [] {
      NeedFrom(ctx, p, i + k, i', t, n);
      NeedBack(p, i + k - 1, i + k, t);
      WalkBack(ctx, p, i, t);
    } else {
      assert p'[i' + 0] == out[0];
      if !Writes(p'[i'], t) && NeededNext(p', i', t, n - 1) {
        NextFrom(ctx, p, i, i', t, n - 1);
        WalkBack(ctx, p, i, t);
      } else {
        if Pure(p'[i']) {
          NextFrom(ctx, p, i, i', p'[i'].res.t, n - 1);
        }
        ReadBack(ctx, p, i, t);
      }
    }
  }

  lemma InsideBoth(ctx: Contexts, p: Code, i: nat, i': nat)
    requires Aligned(ctx, p, Pass(ctx, p), i, i') && i' < |Pass(ctx, p)|
    ensures i < |p|
  {
    assert |Pass(ctx, p)[i'..]| == |Pass(ctx, p)| - i';
    FromSomething(ctx, p[i..]);
  }

  lemma {:induction false} NextFrom(ctx: Contexts, p: Code, i: nat, i': nat, u: nat, n: nat)
    requires GoodFrom(ctx, p, 0) && GoodFrom(ctx, p, i) && Aligned(ctx, p, Pass(ctx, p), i, i') && i < |p|
    requires i' < |Pass(ctx, p)| && |Rewrite(ctx, p[i..]).0| == 1 && NeededNext(Pass(ctx, p), i', u, n)
    ensures NeedAfter(p, Last(ctx, p, i), u)
    decreases n, |p| + 1
  {
    hide Pass, Rewrite, Good, Aligned, NeedAt, NeedAfter, Needed;
    var p' := Pass(ctx, p);
    var (out, k) := Rewrite(ctx, p[i..]);
    WindowAt(ctx, p, p', i, i');
    WindowFlow(ctx, p, i);
    assert p'[i' + 0] == out[0];
    if FallsThrough(p'[i']) && Needed(p', i' + 1, u, n) {
      NeedFrom(ctx, p, i + k, i' + 1, u, n);
      NeedBack(p, i + k - 1, i + k, u);
    } else {
      var l := p'[i'].res.l;
      TargetFrom(ctx, p, l);
      NeedFrom(ctx, p, FindLabel(p, l, 0).value, FindLabel(p', l, 0).value, u, n);
      NeedBack(p, i + k - 1, FindLabel(p, l, 0).value, u);
    }
  }

  /** The window a quad of the rewritten code comes from; labels up to it come from up to there. */
  lemma {:induction false} Origin(ctx: Contexts, p: Code, i: nat, i': nat, j': nat) returns (a: nat)
    requires GoodFrom(ctx, p, i) && Aligned(ctx, p, Pass(ctx, p), i, i') && i' <= j' < |Pass(ctx, p)|
    ensures i <= a < |p| && Good(ctx, p, a) && Aligned(ctx, p, Pass(ctx, p), a, j')
    ensures Rewrite(ctx, p[a..]).0 == [Pass(ctx, p)[j']]
    ensures forall l: nat :: Label(l) in Pass(ctx, p)[i'..j'] ==> Label(l) in p[i..a]
    decreases |p| - i
  {
    hide Pass, Rewrite, Good, Aligned;
    var p' := Pass(ctx, p);
    InsideBoth(ctx, p, i, i');
    var (out, k) := Rewrite(ctx, p[i..]);
    WindowAt(ctx, p, p', i, i');
    WindowFlow(ctx, p, i);
    if out != [] && i' == j' {
      a := i;
      assert p'[i' + 0] == out[0];
    } else {
      a := Origin(ctx, p, i + k, i' + |out|, j');
      forall l: nat | Label(l) in p'[i'..j']
        ensures Label(l) in p[i..a]
      {
        assert p[i..a] == p[i..i + k] + p[i + k..a] && p[i..][..k] == p[i..i + k];
        assert p'[i'..j'] == p'[i'..i' + |out|] + p'[i' + |out|..j'];
        assert p'[i'..i' + |out|] == out;
        WindowLabels(ctx, p[i..], l);
        if p[i..][0] == Label(l) {
          assert Label(l) in p[i..i + k];
        }
      }
    }
  }

  /** If every window may be rewritten, a pass leaves code in order. */
  lemma PassOrdered(ctx: Contexts, p: Code)
    requires GoodFrom(ctx, p, 0) && Ordered(p)
    ensures Ordered(Pass(ctx, p))
  {
    hide Pass, Good, NeedAt, Target, Ordered, Aligned, GoodFrom;
    var p' := Pass(ctx, p);
    StartAligned(ctx, p);
    forall t: nat
      ensures !NeedAt(p', 0, t)
    {
      if NeedAt(p', 0, t) {
        NeedStarts(ctx, p, 0, 0, t);
        NothingFirst(p, t);
      }
    }
    forall j: nat, k: nat, t: nat | j < |p'| && Target(p', p'[j]) == Some(k) && NeedAt(p', k, t)
      ensures j < k
    {
      JumpForward(ctx, p, j, k, t);
    }
    OrderedFrom(p');
  }

  lemma StartAligned(ctx: Contexts, p: Code)
    ensures Aligned(ctx, p, Pass(ctx, p), 0, 0)
  {
    hide Pass;
    assert p[0..] == p && Pass(ctx, p)[0..] == Pass(ctx, p);
  }

  lemma NothingFirst(p: Code, t: nat)
    requires Ordered(p)
    ensures !NeedAt(p, 0, t)
  {
    hide NeedAt;
  }

  lemma OrderedFrom(p: Code)
    requires forall t: nat :: !NeedAt(p, 0, t)
    requires forall j: nat, k: nat, t: nat :: j < |p| && Target(p, p[j]) == Some(k) && NeedAt(p, k, t) ==> j < k
    ensures Ordered(p)
  {
    hide NeedAt;
  }

  lemma NeedStarts(ctx: Contexts, p: Code, i: nat, i': nat, t: nat)
    requires GoodFrom(ctx, p, 0) && GoodFrom(ctx, p, i) && Aligned(ctx, p, Pass(ctx, p), i, i')
    requires NeedAt(Pass(ctx, p), i', t)
    ensures NeedAt(p, i, t)
  {
    hide Pass, GoodFrom, Aligned, Needed;
    var n: nat :| Needed(Pass(ctx, p), i', t, n);
    NeedFrom(ctx, p, i, i', t, n);
  }

  /** A jump of the rewritten code to a point where something is needed goes forward. */
  lemma JumpForward(ctx: Contexts, p: Code, j': nat, k': nat, t: nat)
    requires GoodFrom(ctx, p, 0) && Ordered(p) && j' < |Pass(ctx, p)|
    requires Target(Pass(ctx, p), Pass(ctx, p)[j']) == Some(k') && NeedAt(Pass(ctx, p), k', t)
    ensures j' < k'
  {
    hide Pass, Good, NeedAt, Aligned, GoodFrom, Rewrite, FindLabel;
    var p' := Pass(ctx, p);
    StartAligned(ctx, p);
    var a := Origin(ctx, p, 0, 0, j');
    WindowFlow(ctx, p, a);
    var l := p'[j'].res.l;
    TargetFrom(ctx, p, l);
    var k, last := FindLabel(p, l, 0).value, Last(ctx, p, a);
    NeedStarts(ctx, p, k, k', t);
    assert Target(p, p[last]) == Some(k);
    assert last < k;
    FindFirst(p, l, 0);
    NotAbove(p, l, a);
    NoSooner(p', l, j', k');
    assert p'[j'] != Label(l);
  }

  lemma NotAbove(p: Code, l: nat, a: nat)
    requires a <= |p| && forall m :: 0 <= m < a ==> p[m] != Label(l)
    ensures Label(l) !in p[0..a]
  {
    assert forall m :: 0 <= m < a ==> p[0..a][m] == p[m];
  }

  lemma NoSooner(p: Code, l: nat, j: nat, k: nat)
    requires j <= |p| && k < |p| && p[k] == Label(l) && Label(l) !in p[0..j]
    ensures j <= k
  {
    assert forall m :: 0 <= m < j ==> p[m] in p[0..j];
  }

  /** All passes together. */
  lemma {:induction false} PassesOrdered(ctx: Contexts, p: Code)
    requires AllGood(ctx, p) && Ordered(p)
    ensures Ordered(Passes(ctx, p))
    decreases |p|
  {
    hide Pass, GoodFrom, Ordered;
    PassShortens(ctx, p);
    if |Pass(ctx, p)| != |p| {
      PassOrdered(ctx, p);
      PassesOrdered(ctx, Pass(ctx, p));
    }
  }
}
