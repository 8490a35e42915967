/** Code every window of which may be rewritten: temporaries are used once, and numbers are kept from clashing. */
module OptClass {
  import opened Division
  import opened Ast
  import opened Quads
  import opened Liveness
  import opened Needs
  import opened Optimizer
  import opened OptSim

  // ----- what can be said of each quad by itself -----

  /** Which temporaries may come to hold constants, which hold addresses that are followed, which are used at
      all, and whether there are casts, signs or complements. */
  datatype Traits = Traits(isConst: nat -> bool, isPtr: nat -> bool, isUsed: nat -> bool, casts: bool)

  /** What temporary x may be copied from. Names are kept apart from temporaries by number where there are casts. */
  predicate Feeds(ctx: Contexts, tr: Traits, a: Operand, x: nat)
  {
    match a
    case AConst(_) => tr.isConst(x) && !tr.isPtr(x)
    case ATemp(u) => (tr.isConst(u) ==> tr.isConst(x)) && tr.isPtr(u) == tr.isPtr(x)
    case AName(_, _) => tr.casts ==> !tr.isUsed(Payload(ctx, a))
    case _ => false
  }

  /** Operators that fold differently on some constants. */
  predicate Delicate(op: Op)
  {
    op in {Alu(OpDiv), Alu(OpMod), Alu(OpShl), Alu(OpShr)} || (op.CJump? && op.rel !in {JumpE, JumpNe})
  }

  /** Operators and comparisons, except comparisons with a constant. */
  predicate TwoOperands(q: Quad)
  {
    q.Quad? && (q.op.Alu? || (q.op.CJump? && !q.arg2.AConst?))
  }

  /** Two different temporaries, which are not both constant if that matters. */
  predicate PairOk(tr: Traits, q: Quad)
    requires q.Quad?
  {
    && q.arg1.ATemp? && q.arg2.ATemp? && q.arg1 != q.arg2
    && (Delicate(q.op) ==> !(tr.isConst(q.arg1.t) && tr.isConst(q.arg2.t)))
  }

  /** A test for equality with a constant, as `!` and `&&` make them; the constant is no temporary's number. */
  predicate ConstTest(tr: Traits, q: Quad)
    requires q.Quad?
  {
    && q.op in {CJump(JumpE), CJump(JumpNe)} && q.arg2.AConst? && !tr.isUsed(q.arg2.w)
    && (q.arg1.ATemp? || q.arg1.AName? || q.arg1.AConst?)
  }

  predicate ResultOk(tr: Traits, q: Quad)
    requires q.Quad?
  {
    q.res.ATemp? && tr.isUsed(q.res.t)
  }

  predicate QuadOk(ctx: Contexts, tr: Traits, q: Quad)
  {
    q.Quad? ==>
      (q.res.ATemp? ==> tr.isUsed(q.res.t)) &&
      match q.op
      case Alu(k) =>
        && PairOk(tr, q) && ResultOk(tr, q) && !tr.isPtr(q.res.t) && !tr.isPtr(q.arg1.t)
        && (tr.isConst(q.arg1.t) && tr.isConst(q.arg2.t) ==> tr.isConst(q.res.t))
        && (k == OpMul && (tr.isConst(q.arg1.t) || tr.isConst(q.arg2.t)) ==> tr.isConst(q.res.t))
      case Un(_) => UnaryOk(ctx, tr, q)
      case OpCast(t) => UnaryOk(ctx, tr, q) && t != TPtr
      case CJumpT => q.arg1.ATemp?
      case CJumpF => q.arg1.ATemp?
      case CJump(_) => if q.arg2.AConst? then ConstTest(tr, q) else PairOk(tr, q)
      case Copy => q.arg2 == ANone && (q.res.AName? || (ResultOk(tr, q) && Feeds(ctx, tr, q.arg1, q.res.t)))
      case OpRef => ResultOk(tr, q) && q.arg1.AName?
      case OpDeref => q.arg2 == ANone && ResultOk(tr, q) && (q.arg1.AName? || (q.arg1.ATemp? && tr.isPtr(q.arg1.t)))
      case DerefCopy => q.arg2 == ANone && q.res.ATemp?
      case FCall => q.arg1.ATemp?
      case _ => true
  }

  predicate UnaryOk(ctx: Contexts, tr: Traits, q: Quad)
    requires q.Quad?
  {
    && tr.casts && q.arg2 == ANone && ResultOk(tr, q) && !tr.isPtr(q.res.t)
    && (q.arg1.ATemp? || (q.arg1.AName? && !tr.isUsed(Payload(ctx, q.arg1))))
    && (q.arg1.ATemp? && tr.isConst(q.arg1.t) ==> tr.isConst(q.res.t))
  }

  // ----- what is said of their order -----

  /** A copy to a temporary that nothing reads. */
  ghost predicate Idle(p: Code, k: nat)
    requires k < |p|
  {
    IsOp(p[k], Copy) && p[k].res.ATemp? && forall m: nat :: m < |p| ==> !Reads(p[m], p[k].res.t)
  }

  /** What has been read and not set anew is read no more, except by idle copies. */
  ghost predicate Single(p: Code)
  {
    forall j: nat, k: nat, t: nat :: j < k < |p| && Reads(p[j], t) && !Writes(p[j], t) && Reads(p[k], t) ==> Idle(p, k)
  }

  predicate Sets(q: Quad)
  {
    IsOp(q, DerefCopy) || (IsOp(q, Copy) && q.res.AName?)
  }

  ghost predicate WrittenIn(p: Code, i: nat, k: nat, t: nat)
  {
    exists m: nat :: i <= m < k && m < |p| && Writes(p[m], t)
  }

  /** Whatever is read after an assignment to memory has been set after it: assignments are not parts of expressions. */
  ghost predicate Settled(p: Code)
  {
    forall i: nat, k: nat, t: nat :: i < k < |p| && Sets(p[i]) && Reads(p[k], t) && !Idle(p, k) ==> WrittenIn(p, i + 1, k, t)
  }

  /** Before an operator with two operands its second operand has just been set, or there is a label. */
  ghost predicate FedAt(p: Code, k: nat)
    requires k < |p|
  {
    TwoOperands(p[k]) ==> k > 0 && p[k].arg2.ATemp? && (p[k - 1].Label? || Writes(p[k - 1], p[k].arg2.t))
  }

  ghost predicate Fed(p: Code)
  {
    forall k: nat :: k < |p| ==> FedAt(p, k)
  }

  /** No assignment stores the address it stores through. */
  ghost predicate NoLoops(p: Code)
  {
    forall k: nat :: k < |p| && IsOp(p[k], DerefCopy) ==> p[k].arg1 != p[k].res
  }

  ghost predicate AllOk(ctx: Contexts, tr: Traits, p: Code)
  {
    forall k: nat :: k < |p| ==> QuadOk(ctx, tr, p[k])
  }

  /** All of this together, for some traits: a condition on the quads that says nothing of runs or of passes. */
  ghost predicate Tame(ctx: Contexts, tr: Traits, p: Code)
  {
    AllOk(ctx, tr, p) && Single(p) && Settled(p) && Fed(p) && NoLoops(p)
  }

  ghost predicate Docile(ctx: Contexts, tr: Traits, p: Code)
  {
    Ordered(p) && Tame(ctx, tr, p)
  }

  // ----- such code may be rewritten -----

  /** What only idle copies read is not needed. */
  lemma {:induction false} IdleUnneeded(p: Code, j: nat, pc: nat, t: nat, n: nat)
    requires Ordered(p) && j < pc && forall k: nat :: j < k < |p| && Reads(p[k], t) ==> Idle(p, k)
    ensures !Needed(p, pc, t, n)
    decreases n
  {
    hide Target, Reads, Writes, Idle;
    if Needed(p, pc, t, n) {
      if Reads(p[pc], t) && (Pure(p[pc]) ==> NeededNext(p, pc, p[pc].res.t, n - 1)) {
        IdleReads(p, pc, t, n);
      } else if FallsThrough(p[pc]) && Needed(p, pc + 1, t, n - 1) {
        IdleUnneeded(p, j, pc + 1, t, n - 1);
      } else if Target(p, p[pc]).Some? {
        var to := Target(p, p[pc]).value;
        assert NeededNext(p, pc, t, n - 1);
        assert Needed(p, to, t, n - 1);
        assert NeedAt(p, to, t);
        IdleUnneeded(p, j, to, t, n - 1);
      }
    }
  }

  lemma IdleReads(p: Code, pc: nat, t: nat, n: nat)
    requires pc < |p| && Ordered(p) && n > 0 && (Reads(p[pc], t) ==> Idle(p, pc))
    ensures !(Reads(p[pc], t) && (Pure(p[pc]) ==> NeededNext(p, pc, p[pc].res.t, n - 1)))
  {
    hide Target, Reads, Needed;
    if Reads(p[pc], t) && NeededNext(p, pc, p[pc].res.t, n - 1) {
      var to := if FallsThrough(p[pc]) && Needed(p, pc + 1, p[pc].res.t, n - 1) then pc + 1 else Target(p, p[pc]).value;
      var k := ReadBelow(p, to, p[pc].res.t, n - 1);
    }
  }

  lemma GoneBy(p: Code, j: nat, t: nat)
    requires Ordered(p) && j < |p| && forall k: nat :: j < k < |p| && Reads(p[k], t) ==> Idle(p, k)
    ensures !NeedAfter(p, j, t)
  {
    hide Target, Reads, Writes, Idle, Needed;
    if NeedAfter(p, j, t) {
      var n: nat :| NeededNext(p, j, t, n);
      if FallsThrough(p[j]) && Needed(p, j + 1, t, n) {
        IdleUnneeded(p, j, j + 1, t, n);
      } else if Target(p, p[j]).Some? {
        var to := Target(p, p[j]).value;
        assert Needed(p, to, t, n);
        assert NeedAt(p, to, t);
        IdleUnneeded(p, j, to, t, n);
      }
    }
  }

  /** A temporary is gone where it is read. */
  lemma GoneWhereRead(ctx: Contexts, tr: Traits, p: Code, j: nat, t: nat)
    requires Docile(ctx, tr, p) && j < |p| && Reads(p[j], t)
    ensures Gone(p, j, t)
  {
    hide Reads, Writes, Idle, Ordered, AllOk, Settled, Fed, NeedAfter;
    if !Writes(p[j], t) {
      GoneBy(p, j, t);
    }
  }

  lemma OkAt(ctx: Contexts, tr: Traits, p: Code, k: nat)
    requires Docile(ctx, tr, p) && k < |p|
    ensures QuadOk(ctx, tr, p[k]) && FedAt(p, k) && (IsOp(p[k], DerefCopy) ==> p[k].arg1 != p[k].res)
  {
    hide QuadOk, FedAt, Ordered, Single, Settled;
  }

  /** The second of three quads sets the second operand, and the first the first. */
  lemma ThreeOk(ctx: Contexts, tr: Traits, p: Code, i: nat)
    requires Docile(ctx, tr, p) && i < |p| && IsOp(p[i], Copy) && (CopyPat3(ctx, p[i..]) || CopyPat5(ctx, p[i..]))
    ensures GoodThree(p, i) && p[i + 2].arg1 == p[i].res && p[i + 2].arg2 == p[i + 1].res && p[i + 1].arg1.AConst?
  {
    hide Docile, Reads, Gone, FoldFits;
    var s := p[i..];
    assert s[0] == p[i] && s[1] == p[i + 1] && s[2] == p[i + 2];
    OkAt(ctx, tr, p, i + 1);
    OkAt(ctx, tr, p, i + 2);
    NotConstTest(ctx, tr, p[i + 1], p[i + 2]);
    var a, b := p[i + 2].arg1.t, p[i + 2].arg2.t;
    assert p[i + 2 - 1] == p[i + 1] && p[i + 1].Quad? && Writes(p[i + 1], b);
    SecondSets(ctx, tr, p[i + 1], b);
    PairReads(p[i + 2]);
    if p[i].res.AName? {
      NotPending(ctx, tr, p, i, a);
    }
    assert p[i].res.ATemp? by { OkAt(ctx, tr, p, i); }
    GoneWhereRead(ctx, tr, p, i + 2, a);
    GoneWhereRead(ctx, tr, p, i + 2, b);
  }

  /** No pattern of three quads takes a test for a constant. */
  lemma NotConstTest(ctx: Contexts, tr: Traits, q1: Quad, q: Quad)
    requires QuadOk(ctx, tr, q1) && QuadOk(ctx, tr, q) && q1.Quad? && q.Quad? && (q.op.Alu? || q.op.CJump?)
    requires (q1.res.ATemp? && q1.arg1.AConst? && Payload(ctx, q.arg2) == q1.res.t) || q.op.Alu?
    ensures TwoOperands(q)
  {
  }

  lemma PairReads(q: Quad)
    requires q.Quad? && q.arg1.ATemp? && q.arg2.ATemp?
    ensures Reads(q, q.arg1.t) && Reads(q, q.arg2.t)
  {
  }

  lemma SecondSets(ctx: Contexts, tr: Traits, q: Quad, b: nat)
    requires QuadOk(ctx, tr, q) && q.Quad? && Writes(q, b) && q.arg1.AConst?
    ensures q.op == Copy && q.res == ATemp(b)
  {
  }

  /** Nothing set before an assignment to a variable is read two quads after it by an operator. */
  lemma NotPending(ctx: Contexts, tr: Traits, p: Code, i: nat, a: nat)
    requires Docile(ctx, tr, p) && i + 2 < |p| && IsOp(p[i], Copy) && p[i].res.AName? && TwoOperands(p[i + 2])
    requires Reads(p[i + 2], a)
    ensures Writes(p[i + 1], a)
  {
    hide Reads, Ordered, AllOk, Single, Fed, Writes;
    assert !Idle(p, i + 2);
    assert WrittenIn(p, i + 1, i + 2, a);
  }

  /** Folding fits because delicate operators never get two constants. */
  lemma FoldIsFit(ctx: Contexts, tr: Traits, p: Code, i: nat)
    requires Docile(ctx, tr, p) && i < |p| && IsOp(p[i], Copy) && CopyPat3(ctx, p[i..])
    ensures FoldFits(p[i + 2], p[i].arg1.w, p[i + 1].arg1.w)
  {
    hide Docile, GoodThree, QuotFits, RemFits;
    var s := p[i..];
    assert s[0] == p[i] && s[1] == p[i + 1] && s[2] == p[i + 2];
    ThreeOk(ctx, tr, p, i);
    OkAt(ctx, tr, p, i);
    OkAt(ctx, tr, p, i + 1);
    OkAt(ctx, tr, p, i + 2);
  }

  /** Every window of docile code is good. */
  lemma DocileGoodAt(ctx: Contexts, tr: Traits, p: Code, i: nat)
    requires Docile(ctx, tr, p) && i < |p|
    ensures Good(ctx, p, i)
  {
    hide Docile, Gone, GoodThree, FoldFits, QuadOk, CopyPat3, CopyPat5;
    var s := p[i..];
    assert s[0] == p[i];
    match Search(ctx, s)
    case NoPattern =>
    case RefSubst => RefOk(ctx, tr, p, i);
    case CopyUnarySubst => SubstOk(ctx, tr, p, i);
    case UnaryConstFold => ConstOk(ctx, tr, p, i);
    case IndexConstFold => NoIndex(ctx, tr, p, i);
    case BinaryConstFold =>
      ThreeOk(ctx, tr, p, i);
      assert s[1] == p[i + 1] && s[2] == p[i + 2] by { ThreeHere(ctx, p, i); }
      FoldIsFit(ctx, tr, p, i);
    case AlgMulZero => ThreeOk(ctx, tr, p, i);
    case AlgAddZero => ThreeOk(ctx, tr, p, i);
  }

  lemma ThreeHere(ctx: Contexts, p: Code, i: nat)
    requires i < |p| && p[i].Quad? && CopyPat3(ctx, p[i..])
    ensures i + 2 < |p| && p[i..][1] == p[i + 1] && p[i..][2] == p[i + 2]
  {
  }

  lemma RefOk(ctx: Contexts, tr: Traits, p: Code, i: nat)
    requires Docile(ctx, tr, p) && i < |p| && Search(ctx, p[i..]) == RefSubst
    ensures Good(ctx, p, i)
  {
    hide Docile, Gone, GoodThree, FoldFits;
    var s := p[i..];
    assert s[0] == p[i] && s[1] == p[i + 1];
    OkAt(ctx, tr, p, i);
    OkAt(ctx, tr, p, i + 1);
    GoneWhereRead(ctx, tr, p, i + 1, s[0].res.t);
  }

  lemma SubstOk(ctx: Contexts, tr: Traits, p: Code, i: nat)
    requires Docile(ctx, tr, p) && i < |p| && Search(ctx, p[i..]) == CopyUnarySubst
    ensures Good(ctx, p, i) && (p[i + 1].op.CJump? ==> p[i + 1].arg2.AConst?)
  {
    hide Docile, Gone, GoodThree, FoldFits, CopyPat2, CopyPat3, CopyPat4, CopyPat5;
    var s := p[i..];
    assert s[0] == p[i] && s[1] == p[i + 1];
    OkAt(ctx, tr, p, i);
    OkAt(ctx, tr, p, i + 1);
    GoneWhereRead(ctx, tr, p, i + 1, s[0].res.t);
  }

  lemma ConstOk(ctx: Contexts, tr: Traits, p: Code, i: nat)
    requires Docile(ctx, tr, p) && i < |p| && Search(ctx, p[i..]) == UnaryConstFold
    ensures Good(ctx, p, i)
  {
    hide Docile, Gone, GoodThree, FoldFits, CopyPat3, CopyPat4, CopyPat5;
    var s := p[i..];
    assert s[0] == p[i] && s[1] == p[i + 1];
    OkAt(ctx, tr, p, i);
    OkAt(ctx, tr, p, i + 1);
    GoneWhereRead(ctx, tr, p, i + 1, s[0].res.t);
  }

  lemma NoIndex(ctx: Contexts, tr: Traits, p: Code, i: nat)
    requires Docile(ctx, tr, p) && i < |p|
    ensures Search(ctx, p[i..]) != IndexConstFold
  {
    hide Docile, CopyPat2, CopyPat3, CopyPat5;
    var s := p[i..];
    assert s[0] == p[i];
    if Search(ctx, s) == IndexConstFold {
      assert s[1] == p[i + 1];
      OkAt(ctx, tr, p, i + 1);
    }
  }

  lemma {:induction false} DocileGoodFrom(ctx: Contexts, tr: Traits, p: Code, i: nat)
    requires Docile(ctx, tr, p)
    ensures GoodFrom(ctx, p, i)
    decreases |p| - i
  {
    hide Docile, Good, Rewrite;
    if i < |p| {
      DocileGoodAt(ctx, tr, p, i);
      DocileGoodFrom(ctx, tr, p, i + Rewrite(ctx, p[i..]).1);
    }
  }
}
