/** Bodies whose code the optimizer may rewrite everywhere: which sources are translated to tame code. */
module MildSource {
  import opened Words
  import opened Ast
  import opened Quads
  import opened Emit
  import opened ExprSim
  import opened StmtSim
  import opened Labels
  import opened Procedure
  import opened Liveness
  import opened Boundaries
  import opened Needs
  import opened CallBalance
  import opened Optimizer
  import opened OptSim
  import opened OptClass
  import opened OptKeeps

  // ----- the sources -----

  /** Operators that fold differently on some constants. */
  predicate DelicateArith(k: ArithKind)
  {
    k in {Div, Mod, Shl, Shr}
  }

  /** Whether an operand's temporary may come to hold a constant; `forced` if what is computed in it later may. A
      variable or a call is not a constant. */
  function MayBeConst(e: Expr, forced: bool): bool
    decreases e, 0
  {
    match e
    case Ident(_, _) => forced
    case Call(_, _, _) => forced
    case Arith(k, l, r) => MayBeConst(l, ForcedLeft(k, r, forced))
    case _ => true
  }

  /** A product with a constant may fold to zero. */
  function ForcedLeft(k: ArithKind, r: Expr, forced: bool): bool
    decreases r, 1
  {
    forced || (k == Mul && MayBeConst(r, false))
  }

  /** No casts, signs, complements, dereferences or assignments; calls have values; delicate operators have an
      operand that is not a constant. */
  predicate MildExpr(e: Expr, forced: bool)
    decreases e, 0
  {
    match e
    case Const(_) => true
    case Ident(_, _) => true
    case Ref(a) => a.Ident?
    case Not(a) => MildExpr(a, false)
    case Arith(k, l, r) =>
      var f := ForcedLeft(k, r, forced);
      MildExpr(l, f) && MildExpr(r, false) && (DelicateArith(k) ==> !(MayBeConst(l, f) && MayBeConst(r, false)))
    case Relate(k, l, r) =>
      MildExpr(l, false) && MildExpr(r, false) && (k !in {Eq, Neq} ==> !(MayBeConst(l, false) && MayBeConst(r, false)))
    case Or(l, r) => MildExpr(l, false) && MildExpr(r, false)
    case And(l, r) => MildExpr(l, false) && MildExpr(r, false)
    case Comma(l, r) => MildExpr(l, false) && MildExpr(r, false)
    case Ternary(c, y, n) => MildExpr(c, false) && MildExpr(y, false) && MildExpr(n, false)
    case Call(f, args, isVoid) => !isVoid && MildExpr(f, false) && MildArgs(args)
    case _ => false
  }

  predicate MildArgs(args: ExprList)
    decreases args, 0
  {
    match args
    case ENil => true
    case ECons(e, tail) => MildExpr(e, false) && MildArgs(tail)
  }

  /** An assignment to a variable, a call without a value, or an expression. */
  predicate MildEval(e: Expr)
  {
    match e
    case Assign(l, r) => l.Ident? && MildExpr(r, false)
    case Call(f, args, _) => MildExpr(f, false) && MildArgs(args)
    case _ => MildExpr(e, false)
  }

  predicate MildTest(e: Option<Expr>)
  {
    e.Some? ==> MildExpr(e.value, false)
  }

  predicate MildStmt(st: Stmt)
  {
    match st
    case Empty => true
    case Eval(e) => MildEval(e)
    case Let(_, e) => MildTest(e)
    case Seq(a, b) => MildStmt(a) && MildStmt(b)
    case If(branch) => MildBranch(branch)
    case While(c, body) => MildExpr(c, false) && MildStmt(body)
    case Do(body, c) => MildStmt(body) && MildExpr(c, false)
    case For(init, test, step, body) => MildStmt(init) && MildTest(test) && MildStmt(step) && MildStmt(body)
    case Break => true
    case Continue => true
    case Return(e) => MildTest(e)
  }

  predicate MildBranch(b: Branch)
  {
    && MildExpr(b.cond, false) && MildStmt(b.body)
    && match b.others
       case NoElse => true
       case Elif(b') => MildBranch(b')
       case ElseBody(body) => MildStmt(body)
  }

  // ----- stretches of tame code -----

  type Consts = nat -> bool

  /** No temporary holds an address that is followed, all are used, and there are no casts. */
  function TraitsOf(k: Consts): Traits
  {
    Traits(k, (t: nat) => false, (t: nat) => t > 0, false)
  }

  ghost predicate ReadsIn(p: Code, i: nat, j: nat, lo: nat, hi: nat)
  {
    forall m: nat, t: nat :: i <= m < j && m < |p| && Reads(p[m], t) ==> lo < t <= hi && WrittenIn(p, i, m, t)
  }

  ghost predicate WritesIn(p: Code, i: nat, j: nat, lo: nat, hi: nat)
  {
    forall m: nat, t: nat :: i <= m < j && m < |p| && Writes(p[m], t) ==> lo < t <= hi
  }

  /** Left for what follows: written, and not read except to be written over. */
  ghost predicate LeftOver(p: Code, i: nat, j: nat, lo: nat, hi: nat, t: nat)
  {
    && lo < t <= hi && WrittenIn(p, i, j, t)
    && forall m: nat :: i <= m < j && m < |p| && Reads(p[m], t) ==> Writes(p[m], t)
  }

  ghost predicate IdleIn(p: Code, i: nat, j: nat, k: nat)
    requires k < |p|
  {
    IsOp(p[k], Copy) && p[k].res.ATemp? && forall m: nat :: i <= m < j && m < |p| ==> !Reads(p[m], p[k].res.t)
  }

  ghost predicate SingleIn(p: Code, i: nat, j: nat)
  {
    forall a: nat, b: nat, t: nat :: i <= a < b < j && b < |p| && Reads(p[a], t) && !Writes(p[a], t) && Reads(p[b], t) ==>
                                       IdleIn(p, i, j, b)
  }

  ghost predicate SettledIn(p: Code, i: nat, j: nat)
  {
    forall a: nat, b: nat, t: nat :: i <= a < b < j && b < |p| && Sets(p[a]) && Reads(p[b], t) && !IdleIn(p, i, j, b) ==>
                                       WrittenIn(p, a + 1, b, t)
  }

  ghost predicate QuadTame(ctx: Contexts, p: Code, k: Consts, m: nat)
    requires m < |p|
  {
    QuadOk(ctx, TraitsOf(k), p[m]) && FedAt(p, m) && (IsOp(p[m], DerefCopy) ==> p[m].arg1 != p[m].res)
  }

  /** Tame in itself, over the temporaries lo + 1 to hi. */
  ghost predicate TameIn(ctx: Contexts, p: Code, i: nat, j: nat, k: Consts, lo: nat, hi: nat)
  {
    && i <= j <= |p| && lo <= hi && ReadsIn(p, i, j, lo, hi) && WritesIn(p, i, j, lo, hi)
    && SingleIn(p, i, j) && SettledIn(p, i, j) && forall m: nat :: i <= m < j ==> QuadTame(ctx, p, k, m)
  }

  ghost predicate NoSets(p: Code, i: nat, j: nat)
  {
    forall m: nat :: i <= m < j && m < |p| ==> !Sets(p[m])
  }

  /** Nothing is read twice unless it has been set anew. */
  ghost predicate Once(p: Code, i: nat, j: nat)
  {
    forall a: nat, b: nat, t: nat :: i <= a < b < j && b < |p| && Reads(p[a], t) && Reads(p[b], t) ==> Writes(p[a], t)
  }

  /** Code of an expression: it assigns nothing, reads nothing twice and leaves some temporaries. */
  ghost predicate Neat(ctx: Contexts, p: Code, i: nat, j: nat, k: Consts, lo: nat, hi: nat, outs: set<nat>)
  {
    TameIn(ctx, p, i, j, k, lo, hi) && NoSets(p, i, j) && Once(p, i, j) && forall t :: t in outs ==> LeftOver(p, i, j, lo, hi, t)
  }

  ghost predicate Extended(c: nat, k: Consts, k': Consts)
  {
    forall t: nat :: t <= c ==> k'(t) == k(t)
  }

  lemma ExtendedMore(c: nat, d: nat, k: Consts, k1: Consts, k2: Consts)
    requires c <= d && Extended(c, k, k1) && Extended(d, k1, k2)
    ensures Extended(c, k, k2)
  {
  }

  lemma NoCode(ctx: Contexts, p: Code, i: nat, k: Consts, lo: nat)
    requires i <= |p|
    ensures Neat(ctx, p, i, i, k, lo, lo, {})
  {
  }

  lemma FewerLeft(ctx: Contexts, p: Code, i: nat, j: nat, k: Consts, lo: nat, hi: nat, outs: set<nat>, outs': set<nat>)
    requires Neat(ctx, p, i, j, k, lo, hi, outs) && outs' <= outs
    ensures Neat(ctx, p, i, j, k, lo, hi, outs')
  {
    hide TameIn, NoSets, LeftOver, Once;
  }

  /** What is said of a quad depends on its own temporaries. */
  lemma OtherConsts(ctx: Contexts, p: Code, i: nat, j: nat, k: Consts, k': Consts, lo: nat, hi: nat)
    requires TameIn(ctx, p, i, j, k, lo, hi) && Extended(hi, k, k')
    ensures TameIn(ctx, p, i, j, k', lo, hi)
  {
    hide SingleIn, SettledIn, FedAt, Sets;
    forall m: nat | i <= m < j
      ensures QuadTame(ctx, p, k', m)
    {
      assert QuadTame(ctx, p, k, m);
      forall t: nat
        ensures Reads(p[m], t) || Writes(p[m], t) ==> k'(t) == k(t)
      {
      }
      SameQuadOk(ctx, k, k', p[m]);
    }
  }

  lemma SameQuadOk(ctx: Contexts, k: Consts, k': Consts, q: Quad)
    requires QuadOk(ctx, TraitsOf(k), q) && forall t: nat :: Reads(q, t) || Writes(q, t) ==> k'(t) == k(t)
    ensures QuadOk(ctx, TraitsOf(k'), q)
  {
    if q.Quad? {
      assert forall t: nat :: q.arg1 == ATemp(t) || q.arg2 == ATemp(t) ==> Reads(q, t);
      assert forall t: nat :: q.res == ATemp(t) && (q.op.Alu? || q.op == Copy) ==> Writes(q, t);
    }
  }

  lemma WrittenMore(p: Code, i: nat, i': nat, m: nat, m': nat, t: nat)
    requires WrittenIn(p, i, m, t) && i' <= i && m <= m'
    ensures WrittenIn(p, i', m', t)
  {
  }

  lemma ReadHere(p: Code, i: nat, j: nat, lo: nat, hi: nat, m: nat, t: nat)
    requires ReadsIn(p, i, j, lo, hi) && i <= m < j && m < |p| && Reads(p[m], t)
    ensures lo < t <= hi && WrittenIn(p, i, m, t)
  {
  }

  /** One stretch after another. */
  lemma JoinTame(ctx: Contexts, p: Code, i: nat, j: nat, n: nat, k: Consts, lo: nat, mid: nat, hi: nat)
    requires TameIn(ctx, p, i, j, k, lo, mid) && TameIn(ctx, p, j, n, k, mid, hi)
    ensures TameIn(ctx, p, i, n, k, lo, hi)
  {
    hide QuadTame, WrittenIn, Reads, Writes, Sets;
    forall m: nat | i <= m < n
      ensures QuadTame(ctx, p, k, m)
    {
    }
    assert ReadsIn(p, i, n, lo, hi) by {
      forall m: nat, t: nat | i <= m < n && Reads(p[m], t)
        ensures lo < t <= hi && WrittenIn(p, i, m, t)
      {
        if m < j {
          ReadHere(p, i, j, lo, mid, m, t);
        } else {
          ReadHere(p, j, n, mid, hi, m, t);
          WrittenMore(p, j, i, m, m, t);
        }
      }
    }
    forall b: nat | i <= b < n
      ensures b < j && IdleIn(p, i, j, b) ==> IdleIn(p, i, n, b)
      ensures b >= j && IdleIn(p, j, n, b) ==> IdleIn(p, i, n, b)
    {
      JoinIdle(p, i, j, n, lo, mid, hi, b);
    }
    assert SingleIn(p, i, n) by {
      forall a: nat, b: nat, t: nat | i <= a < b < n && Reads(p[a], t) && !Writes(p[a], t) && Reads(p[b], t)
        ensures IdleIn(p, i, n, b)
      {
        if a < j && b >= j {
          ReadHere(p, i, j, lo, mid, a, t);
          ReadHere(p, j, n, mid, hi, b, t);
          assert false;
        }
      }
    }
    forall a: nat, b: nat, t: nat | i <= a < b < n && Sets(p[a]) && Reads(p[b], t) && !IdleIn(p, i, n, b)
      ensures WrittenIn(p, a + 1, b, t)
    {
      if a < j && b >= j {
        ReadHere(p, j, n, mid, hi, b, t);
        WrittenMore(p, j, a + 1, b, b, t);
      }
    }
  }

  lemma JoinIdle(p: Code, i: nat, j: nat, n: nat, lo: nat, mid: nat, hi: nat, b: nat)
    requires i <= j <= n <= |p| && i <= b < n && ReadsIn(p, i, j, lo, mid) && ReadsIn(p, j, n, mid, hi)
    requires WritesIn(p, i, j, lo, mid) && WritesIn(p, j, n, mid, hi)
    ensures b < j && IdleIn(p, i, j, b) ==> IdleIn(p, i, n, b)
    ensures b >= j && IdleIn(p, j, n, b) ==> IdleIn(p, i, n, b)
  {
    hide WrittenIn, Reads;
    if IsOp(p[b], Copy) && p[b].res.ATemp? {
      assert Writes(p[b], p[b].res.t);
    }
  }

  lemma JoinNeat(ctx: Contexts, p: Code, i: nat, j: nat, n: nat, k: Consts, k': Consts, lo: nat, mid: nat, hi: nat,
                 outs1: set<nat>, outs2: set<nat>)
    requires Neat(ctx, p, i, j, k, lo, mid, outs1) && Neat(ctx, p, j, n, k', mid, hi, outs2) && Extended(mid, k, k')
    ensures Neat(ctx, p, i, n, k', lo, hi, outs1 + outs2)
  {
    hide QuadTame, WrittenIn, Reads, Writes, Sets, SingleIn, SettledIn;
    OtherConsts(ctx, p, i, j, k, k', lo, mid);
    JoinTame(ctx, p, i, j, n, k', lo, mid, hi);
    forall a: nat, b: nat, t: nat | i <= a < b < n && Reads(p[a], t) && Reads(p[b], t)
      ensures Writes(p[a], t)
    {
      if a < j && b >= j {
        ReadHere(p, i, j, lo, mid, a, t);
        ReadHere(p, j, n, mid, hi, b, t);
      }
    }
    forall t | t in outs1 + outs2
      ensures LeftOver(p, i, n, lo, hi, t)
    {
      if t in outs1 {
        assert LeftOver(p, i, j, lo, mid, t);
        WrittenMore(p, i, i, j, n, t);
      } else {
        assert LeftOver(p, j, n, mid, hi, t);
        WrittenMore(p, j, i, n, n, t);
      }
    }
  }

  lemma JoinTameNext(ctx: Contexts, p: Code, i: nat, j: nat, n: nat, k: Consts, k': Consts, lo: nat, mid: nat, hi: nat)
    requires TameIn(ctx, p, i, j, k, lo, mid) && TameIn(ctx, p, j, n, k', mid, hi) && Extended(mid, k, k')
    ensures TameIn(ctx, p, i, n, k', lo, hi)
  {
    hide TameIn;
    OtherConsts(ctx, p, i, j, k, k', lo, mid);
    JoinTame(ctx, p, i, j, n, k', lo, mid, hi);
  }

  /** One more quad, which reads some of what is left and may write over it or write a number given out for it. */
  lemma AddTame(ctx: Contexts, p: Code, i: nat, j: nat, k: Consts, lo: nat, hi: nat, outs: set<nat>)
    requires Neat(ctx, p, i, j, k, lo, hi, outs) && j < |p| && QuadTame(ctx, p, k, j)
    requires forall t: nat :: Reads(p[j], t) ==> t in outs
    requires forall t: nat :: Writes(p[j], t) ==> lo < t <= hi
    ensures TameIn(ctx, p, i, j + 1, k, lo, hi)
  {
    hide QuadTame, WrittenIn, Reads, Writes, Sets;
    forall t: nat | Reads(p[j], t)
      ensures LeftOver(p, i, j, lo, hi, t)
    {
    }
    AddOnce(ctx, p, i, j, k, lo, hi, outs);
  }

  lemma AddOnce(ctx: Contexts, p: Code, i: nat, j: nat, k: Consts, lo: nat, hi: nat, outs: set<nat>)
    requires Neat(ctx, p, i, j, k, lo, hi, outs) && j < |p| && forall t: nat :: Reads(p[j], t) ==> t in outs
    ensures Once(p, i, j + 1)
  {
    hide QuadTame, WrittenIn, Reads, Writes, Sets;
    forall a: nat, b: nat, t: nat | i <= a < b < j + 1 && Reads(p[a], t) && Reads(p[b], t)
      ensures Writes(p[a], t)
    {
      if b == j {
        assert LeftOver(p, i, j, lo, hi, t);
      }
    }
  }

  /** The same for an expression: what it reads without writing it over is no longer left. */
  lemma AddNeat(ctx: Contexts, p: Code, i: nat, j: nat, k: Consts, lo: nat, hi: nat, outs: set<nat>, outs': set<nat>)
    requires Neat(ctx, p, i, j, k, lo, hi, outs) && j < |p| && QuadTame(ctx, p, k, j) && !Sets(p[j])
    requires forall t: nat :: Reads(p[j], t) ==> t in outs
    requires forall t: nat :: Writes(p[j], t) ==> lo < t <= hi
    requires forall t :: t in outs' ==>
                           lo < t <= hi && (t in outs || (Writes(p[j], t) && !WasRead(p, i, j, t)))
                           && (Reads(p[j], t) ==> Writes(p[j], t))
    ensures Neat(ctx, p, i, j + 1, k, lo, hi, outs')
  {
    hide QuadTame, Reads, Writes, Sets, TameIn, Once;
    NeatSizes(ctx, p, i, j, k, lo, hi, outs);
    AddTame(ctx, p, i, j, k, lo, hi, outs);
    AddOnce(ctx, p, i, j, k, lo, hi, outs);
    forall t | t in outs'
      ensures LeftOver(p, i, j + 1, lo, hi, t)
    {
      if t in outs {
        assert LeftOver(p, i, j, lo, hi, t);
        WrittenMore(p, i, i, j, j + 1, t);
      } else {
        assert Writes(p[j], t) && i <= j < j + 1;
        assert forall m: nat :: i <= m < j && m < |p| ==> !Reads(p[m], t);
      }
    }
  }

  ghost predicate WasRead(p: Code, i: nat, j: nat, t: nat)
  {
    exists m: nat :: i <= m < j && m < |p| && Reads(p[m], t)
  }

  /** The next number is free for what follows. */
  lemma NextNumber(ctx: Contexts, p: Code, i: nat, j: nat, k: Consts, lo: nat, hi: nat, outs: set<nat>, flag: bool)
    returns (k': Consts)
    requires Neat(ctx, p, i, j, k, lo, hi, outs)
    ensures Neat(ctx, p, i, j, k', lo, hi + 1, outs) && Extended(hi, k, k') && k'(hi + 1) == flag && !WasRead(p, i, j, hi + 1)
  {
    hide QuadTame, WrittenIn, Reads, Writes, Sets, SingleIn, SettledIn;
    k' := (t: nat) => if t == hi + 1 then flag else k(t);
    OtherConsts(ctx, p, i, j, k, k', lo, hi);
    forall t | t in outs
      ensures LeftOver(p, i, j, lo, hi + 1, t)
    {
      assert LeftOver(p, i, j, lo, hi, t);
    }
  }

  // ----- expressions -----

  /** Just before the quad at j the temporary has been set, or there is a label. */
  ghost predicate JustSet(p: Code, j: nat, t: nat)
  {
    0 < j <= |p| && (p[j - 1].Label? || Writes(p[j - 1], t))
  }

  /** The code of an expression with a value, and whether that may be a constant. */
  ghost predicate ExprNeat(ctx: Contexts, p: Code, pos: nat, c: nat, E: Emitted, k: Consts, flag: bool)
  {
    && E.res.ATemp? && k(E.res.t) == flag
    && Neat(ctx, p, pos, pos + |E.code|, k, c, E.cgt, {E.res.t}) && JustSet(p, pos + |E.code|, E.res.t)
  }

  /** A plain quad that reads nothing and sets nothing. */
  lemma AddMute(ctx: Contexts, p: Code, i: nat, j: nat, k: Consts, lo: nat, hi: nat, outs: set<nat>)
    requires Neat(ctx, p, i, j, k, lo, hi, outs) && j < |p| && (p[j].Label? || p[j].op in {UJump, HintCall, HintLocal, RetP})
    requires p[j].Quad? ==> (p[j].res.ATemp? ==> p[j].res.t > 0) && !p[j].arg1.ATemp? && !p[j].arg2.ATemp?
    ensures Neat(ctx, p, i, j + 1, k, lo, hi, outs)
  {
    hide Neat, LeftOver;
    assert QuadTame(ctx, p, k, j);
    assert forall t :: t in outs ==> lo < t <= hi by { OutsIn(ctx, p, i, j, k, lo, hi, outs); }
    AddNeat(ctx, p, i, j, k, lo, hi, outs, outs);
  }

  lemma OutsIn(ctx: Contexts, p: Code, i: nat, j: nat, k: Consts, lo: nat, hi: nat, outs: set<nat>)
    requires Neat(ctx, p, i, j, k, lo, hi, outs)
    ensures forall t :: t in outs ==> lo < t <= hi
  {
    hide TameIn, NoSets, Once;
  }

  /** A constant copied into a number given out for it. */
  lemma AddConst(ctx: Contexts, p: Code, i: nat, j: nat, k: Consts, lo: nat, hi: nat, outs: set<nat>, r: nat, w: Word)
    requires Neat(ctx, p, i, j, k, lo, hi, outs) && j < |p| && p[j] == CopyConst(ATemp(r), w) && lo < r <= hi && k(r)
    requires r in outs || !WasRead(p, i, j, r)
    ensures Neat(ctx, p, i, j + 1, k, lo, hi, outs + {r})
  {
    hide Neat, LeftOver, WasRead;
    assert QuadTame(ctx, p, k, j);
    assert forall t :: t in outs ==> lo < t <= hi by { OutsIn(ctx, p, i, j, k, lo, hi, outs); }
    AddNeat(ctx, p, i, j, k, lo, hi, outs, outs + {r});
  }

  /** The settling tail leaves its result only. */
  lemma AddTail(ctx: Contexts, p: Code, i: nat, j: nat, k: Consts, lo: nat, hi: nat, r: nat, v: Word, here: nat, next: nat)
    requires v <= 1 && UniqueLabels(p) && Within(p, j, Settle(ATemp(r), v, here, next))
    requires Neat(ctx, p, i, j, k, lo, hi, {}) && lo < r <= hi && k(r) && !WasRead(p, i, j, r)
    ensures Neat(ctx, p, i, j + 5, k, lo, hi, {r}) && JustSet(p, j + 5, r)
  {
    hide Within, Neat, UniqueLabels, FindLabel, WasRead;
    SettleQuads(p, j, r, v, here, next);
    AddConst(ctx, p, i, j, k, lo, hi, {}, r, v);
    assert {} + {r} == {r};
    AddMute(ctx, p, i, j + 1, k, lo, hi, {r});
    AddMute(ctx, p, i, j + 2, k, lo, hi, {r});
    AddConst(ctx, p, i, j + 3, k, lo, hi, {r}, r, 1 - v);
    assert {r} + {r} == {r};
    AddMute(ctx, p, i, j + 4, k, lo, hi, {r});
  }

  lemma SettleNeat(ctx: Contexts, p: Code, pos: nat, body: Code, c: nat, cgt: nat, l: nat, lab: nat, v: Word, k: Consts)
    returns (k': Consts)
    requires v <= 1 && UniqueLabels(p) && Within(p, pos, SettleAfter(body, cgt, l, lab, v).code)
    requires Neat(ctx, p, pos, pos + |body|, k, c, cgt, {})
    ensures ExprNeat(ctx, p, pos, c, SettleAfter(body, cgt, l, lab, v), k', true) && Extended(cgt, k, k')
  {
    hide Within, Neat, UniqueLabels, WasRead;
    WithinSplit(p, pos, body, Settle(ATemp(cgt + 1), v, l + 1, l + 2));
    NeatSizes(ctx, p, pos, pos + |body|, k, c, cgt, {});
    k' := NextNumber(ctx, p, pos, pos + |body|, k, c, cgt, {}, true);
    AddTail(ctx, p, pos, pos + |body|, k', c, cgt + 1, cgt + 1, v, l + 1, l + 2);
  }

  lemma NeatSizes(ctx: Contexts, p: Code, i: nat, j: nat, k: Consts, lo: nat, hi: nat, outs: set<nat>)
    requires Neat(ctx, p, i, j, k, lo, hi, outs)
    ensures i <= j <= |p| && lo <= hi
  {
    hide SingleIn, SettledIn, ReadsIn, WritesIn, QuadTame, LeftOver, Once;
  }

  /** A quad over the results of a body that gives no result itself: a test or an argument. */
  lemma AddTest(ctx: Contexts, p: Code, pos: nat, body: Code, q: Quad, k: Consts, lo: nat, hi: nat, outs: set<nat>)
    requires Within(p, pos, body + [q]) && Neat(ctx, p, pos, pos + |body|, k, lo, hi, outs)
    requires QuadOk(ctx, TraitsOf(k), q) && !Sets(q) && !IsOp(q, DerefCopy) && (forall t: nat :: !Writes(q, t))
    requires forall t: nat :: Reads(q, t) ==> t in outs
    requires TwoOperands(q) ==> q.arg2.ATemp? && JustSet(p, pos + |body|, q.arg2.t)
    ensures Neat(ctx, p, pos, pos + |body| + 1, k, lo, hi, {})
  {
    hide Within, Neat, QuadOk, Sets, Reads, Writes;
    LastQuad(p, pos, body, q);
    AddNeat(ctx, p, pos, pos + |body|, k, lo, hi, outs, {});
  }

  /** A quad that writes a new number from the results of a body. */
  lemma AddFresh(ctx: Contexts, p: Code, pos: nat, body: Code, q: Quad, k: Consts, lo: nat, hi: nat, outs: set<nat>)
    requires Within(p, pos, body + [q]) && Neat(ctx, p, pos, pos + |body|, k, lo, hi, outs)
    requires QuadOk(ctx, TraitsOf(k), q) && !Sets(q) && !IsOp(q, DerefCopy) && !TwoOperands(q)
    requires q.Quad? && q.res == ATemp(hi) && Writes(q, hi) && lo < hi && hi !in outs && !WasRead(p, pos, pos + |body|, hi)
    requires forall t: nat :: Reads(q, t) ==> t in outs
    ensures Neat(ctx, p, pos, pos + |body| + 1, k, lo, hi, {hi}) && JustSet(p, pos + |body| + 1, hi)
  {
    hide Within, Neat, QuadOk, Sets, WasRead;
    LastQuad(p, pos, body, q);
    AddNeat(ctx, p, pos, pos + |body|, k, lo, hi, outs, {hi});
  }

  lemma FreshNeat(ctx: Contexts, p: Code, pos: nat, c: nat, A: Emitted, k: Consts, flag: bool) returns (k': Consts)
    requires Within(p, pos, FreshCode(Copy, A).code) && ExprNeat(ctx, p, pos, c, A, k, flag)
    ensures ExprNeat(ctx, p, pos, c, FreshCode(Copy, A), k', true) && Extended(A.cgt, k, k')
  {
    hide Within, Neat, WasRead;
    NeatSizes(ctx, p, pos, pos + |A.code|, k, c, A.cgt, {A.res.t});
    OutsIn(ctx, p, pos, pos + |A.code|, k, c, A.cgt, {A.res.t});
    k' := NextNumber(ctx, p, pos, pos + |A.code|, k, c, A.cgt, {A.res.t}, true);
    AddFresh(ctx, p, pos, A.code, Q1(Copy, ATemp(A.cgt + 1), A.res), k', c, A.cgt + 1, {A.res.t});
  }

  /** A variable, an address of one, or a constant. */
  lemma SingleNeat(ctx: Contexts, p: Code, pos: nat, q: Quad, c: nat, l: nat, k: Consts, flag: bool) returns (k': Consts)
    requires Within(p, pos, [q]) && q.Quad? && q.res == ATemp(c + 1) && q.arg2 == ANone
    requires (q.op == Copy && (q.arg1.AName? || (q.arg1.AConst? && flag))) || (q.op == OpRef && q.arg1.AName?)
    ensures ExprNeat(ctx, p, pos, c, Emitted([q], ATemp(c + 1), c + 1, l), k', flag) && Extended(c, k, k')
  {
    hide Within, Neat, WasRead;
    WithinBound(p, pos, [q]);
    NoCode(ctx, p, pos, k, c);
    k' := NextNumber(ctx, p, pos, pos, k, c, c, {}, flag);
    assert [] + [q] == [q];
    AddFresh(ctx, p, pos, [], q, k', c, c + 1, {});
  }

  lemma {:induction false} ForcedConst(e: Expr)
    ensures MayBeConst(e, true)
  {
    if e.Arith? {
      ForcedConst(e.left);
    }
  }

  /** Two operands, the second after the first. */
  lemma BothNeat(ctx: Contexts, p: Code, pos: nat, c: nat, A: Emitted, B: Emitted, k: Consts, k': Consts, f: bool, g: bool)
    requires ExprNeat(ctx, p, pos, c, A, k, f) && ExprNeat(ctx, p, pos + |A.code|, A.cgt, B, k', g) && Extended(A.cgt, k, k')
    ensures Neat(ctx, p, pos, pos + |Both(A, B)|, k', c, B.cgt, {A.res.t} + {B.res.t})
    ensures JustSet(p, pos + |Both(A, B)|, B.res.t) && k'(A.res.t) == f && c < A.res.t <= A.cgt < B.res.t <= B.cgt
  {
    hide Neat;
    OutsIn(ctx, p, pos, pos + |A.code|, k, c, A.cgt, {A.res.t});
    OutsIn(ctx, p, pos + |A.code|, pos + |A.code| + |B.code|, k', A.cgt, B.cgt, {B.res.t});
    JoinNeat(ctx, p, pos, pos + |A.code|, pos + |A.code| + |B.code|, k, k', c, A.cgt, B.cgt, {A.res.t}, {B.res.t});
  }

  lemma ArithNeat(ctx: Contexts, p: Code, pos: nat, kind: ArithKind, c: nat, A: Emitted, B: Emitted, k: Consts, k': Consts,
                  f: bool, g: bool)
    requires ExprNeat(ctx, p, pos, c, A, k, f) && ExprNeat(ctx, p, pos + |A.code|, A.cgt, B, k', g) && Extended(A.cgt, k, k')
    requires Within(p, pos, ArithCode(kind, A, B).code) && (DelicateArith(kind) ==> !(f && g)) && (kind == Mul && g ==> f)
    ensures ExprNeat(ctx, p, pos, c, ArithCode(kind, A, B), k', f)
  {
    hide Within, Neat;
    BothNeat(ctx, p, pos, c, A, B, k, k', f, g);
    var both, q, outs := Both(A, B), Quad(Alu(AluOf(kind)), A.res, A.res, B.res), {A.res.t} + {B.res.t};
    LastQuad(p, pos, both, q);
    assert QuadTame(ctx, p, k', pos + |both|);
    AddNeat(ctx, p, pos, pos + |both|, k', c, B.cgt, outs, {A.res.t});
  }

  lemma RelateNeat(ctx: Contexts, p: Code, pos: nat, rel: RelKind, c: nat, A: Emitted, B: Emitted, l: nat, k: Consts, k': Consts,
                   f: bool, g: bool)
    returns (k2: Consts)
    requires ExprNeat(ctx, p, pos, c, A, k, f) && ExprNeat(ctx, p, pos + |A.code|, A.cgt, B, k', g) && Extended(A.cgt, k, k')
    requires UniqueLabels(p) && Within(p, pos, RelateCode(rel, A, B, l).code) && (rel !in {Eq, Neq} ==> !(f && g))
    ensures ExprNeat(ctx, p, pos, c, RelateCode(rel, A, B, l), k2, true) && Extended(B.cgt, k', k2)
  {
    hide Within, Neat, UniqueLabels;
    BothNeat(ctx, p, pos, c, A, B, k, k', f, g);
    var both, q, outs := Both(A, B), Quad(CJump(JumpOf(rel)), ALabel(l + 1), A.res, B.res), {A.res.t} + {B.res.t};
    PrefixWithin(p, pos, both + [q], RelateCode(rel, A, B, l).code);
    AddTest(ctx, p, pos, both, q, k', c, B.cgt, outs);
    k2 := SettleNeat(ctx, p, pos, both + [q], c, B.cgt, l, B.lab, 0, k');
  }

  lemma NotNeat(ctx: Contexts, p: Code, pos: nat, c: nat, A: Emitted, l: nat, k: Consts, f: bool) returns (k': Consts)
    requires UniqueLabels(p) && Within(p, pos, NotCode(A, l).code) && ExprNeat(ctx, p, pos, c, A, k, f)
    ensures ExprNeat(ctx, p, pos, c, NotCode(A, l), k', true) && Extended(A.cgt, k, k')
  {
    hide Within, Neat, UniqueLabels;
    var q := JumpZero(l + 1, A.res);
    PrefixWithin(p, pos, A.code + [q], NotCode(A, l).code);
    AddTest(ctx, p, pos, A.code, q, k, c, A.cgt, {A.res.t});
    k' := SettleNeat(ctx, p, pos, A.code + [q], c, A.cgt, l, A.lab, 0, k);
  }

  lemma LogicNeat(ctx: Contexts, p: Code, pos: nat, isOr: bool, c: nat, A: Emitted, B: Emitted, l: nat, k: Consts, k': Consts,
                  f: bool, g: bool)
    returns (k2: Consts)
    requires UniqueLabels(p) && Within(p, pos, LogicCode(isOr, A, B, l).code)
    requires ExprNeat(ctx, p, pos, c, A, k, f) && ExprNeat(ctx, p, pos + |A.code| + 1, A.cgt, B, k', g) && Extended(A.cgt, k, k')
    ensures ExprNeat(ctx, p, pos, c, LogicCode(isOr, A, B, l), k2, true) && Extended(B.cgt, k', k2)
  {
    hide Within, Neat, UniqueLabels, LogicJump;
    var j1, j2 := LogicJump(isOr, l + 1, A.res), LogicJump(isOr, l + 1, B.res);
    var v: Word := if isOr then 0 else 1;
    var first, body := A.code + [j1], A.code + [j1] + B.code + [j2];
    var at := pos + |first|;
    PrefixWithin(p, pos, first, LogicCode(isOr, A, B, l).code);
    PrefixWithin(p, pos, body, LogicCode(isOr, A, B, l).code);
    LogicTest(ctx, isOr, l + 1, A.res.t, k);
    LogicTest(ctx, isOr, l + 1, B.res.t, k');
    AddTest(ctx, p, pos, A.code, j1, k, c, A.cgt, {A.res.t});
    JoinNeat(ctx, p, pos, at, at + |B.code|, k, k', c, A.cgt, B.cgt, {}, {B.res.t});
    assert {} + {B.res.t} == {B.res.t};
    AddTest(ctx, p, pos, first + B.code, j2, k', c, B.cgt, {B.res.t});
    k2 := SettleNeat(ctx, p, pos, body, c, B.cgt, l, B.lab, v, k');
  }

  lemma LogicTest(ctx: Contexts, isOr: bool, l: nat, t: nat, k: Consts)
    ensures var q := LogicJump(isOr, l, ATemp(t));
            && QuadOk(ctx, TraitsOf(k), q) && !Sets(q) && !IsOp(q, DerefCopy) && !TwoOperands(q)
            && (forall u: nat :: !Writes(q, u)) && (forall u: nat :: Reads(q, u) ==> u == t)
  {
  }

  // calls

  lemma ArgsNeat(ctx: Contexts, p: Code, pos: nat, A: Emitted, T: Emitted, c: nat, k: Consts, k': Consts, f: bool)
    requires Within(p, pos, A.code + [Q1(Arg, ANone, A.res)] + T.code) && ExprNeat(ctx, p, pos, c, A, k, f)
    requires Neat(ctx, p, pos + |A.code| + 1, pos + |A.code| + 1 + |T.code|, k', A.cgt, T.cgt, {}) && Extended(A.cgt, k, k')
    ensures Neat(ctx, p, pos, pos + |A.code| + 1 + |T.code|, k', c, T.cgt, {})
  {
    hide Within, Neat;
    var q := Q1(Arg, ANone, A.res);
    WithinSplit(p, pos, A.code + [q], T.code);
    AddTest(ctx, p, pos, A.code, q, k, c, A.cgt, {A.res.t});
    JoinNeat(ctx, p, pos, pos + |A.code| + 1, pos + |A.code| + 1 + |T.code|, k, k', c, A.cgt, T.cgt, {}, {});
    var none: set<nat> := {};
    assert none + none == none;
  }

  /** What is computed for a call, and the quad that makes it. */
  lemma CallInside(ctx: Contexts, p: Code, pos: nat, A: Emitted, F: Emitted, c: nat, k: Consts, k': Consts, f: bool)
    requires Neat(ctx, p, pos + 1, pos + 1 + |A.code|, k, c, A.cgt, {}) && Extended(A.cgt, k, k')
    requires ExprNeat(ctx, p, pos + 1 + |A.code|, A.cgt, F, k', f)
    requires pos < |p| && IsOp(p[pos], HintCall) && (p[pos].res.ATemp? ==> p[pos].res.t > 0) && p[pos].arg1 == ANone && p[pos].arg2 == ANone
    ensures Neat(ctx, p, pos, pos + 1 + |A.code| + |F.code|, k', c, F.cgt, {F.res.t}) && c < F.res.t <= F.cgt
  {
    hide Neat;
    var at := pos + 1 + |A.code|;
    NoCode(ctx, p, pos, k, c);
    AddMute(ctx, p, pos, pos, k, c, c, {});
    assert Extended(c, k, k);
    var none: set<nat> := {};
    assert none + none == none;
    JoinNeat(ctx, p, pos, pos + 1, at, k, k, c, c, A.cgt, {}, {});
    JoinNeat(ctx, p, pos, at, at + |F.code|, k, k', c, A.cgt, F.cgt, {}, {F.res.t});
    assert none + {F.res.t} == {F.res.t};
    OutsIn(ctx, p, pos, at + |F.code|, k', c, F.cgt, {F.res.t});
    NeatSizes(ctx, p, pos, at, k, c, A.cgt, {});
  }

  lemma CallNeat(ctx: Contexts, p: Code, pos: nat, A: Emitted, F: Emitted, count: Word, c: nat, k: Consts, k': Consts, f: bool,
                 flag: bool)
    returns (k2: Consts)
    requires Neat(ctx, p, pos + 1, pos + 1 + |A.code|, k, c, A.cgt, {}) && Extended(A.cgt, k, k')
    requires ExprNeat(ctx, p, pos + 1 + |A.code|, A.cgt, F, k', f) && Within(p, pos, CallCode(A, F, false, count).code)
    ensures ExprNeat(ctx, p, pos, c, CallCode(A, F, false, count), k2, flag) && Extended(F.cgt, k', k2)
  {
    hide Within, Neat, WasRead;
    var E := CallCode(A, F, false, count);
    var body := [Q1(HintCall, E.res, ANone)] + A.code + F.code;
    CallQuadsAt(p, pos, A, F, false, count);
    CallInside(ctx, p, pos, A, F, c, k, k', f);
    NeatSizes(ctx, p, pos, pos + |body|, k', c, F.cgt, {F.res.t});
    k2 := NextNumber(ctx, p, pos, pos + |body|, k', c, F.cgt, {F.res.t}, flag);
    AddFresh(ctx, p, pos, body, Quad(FCall, E.res, F.res, AConst(count)), k2, c, F.cgt + 1, {F.res.t});
  }

  lemma CallQuadsAt(p: Code, pos: nat, A: Emitted, F: Emitted, isVoid: bool, count: Word)
    requires Within(p, pos, CallCode(A, F, isVoid, count).code)
    ensures var E := CallCode(A, F, isVoid, count);
            pos < |p| && p[pos] == Q1(HintCall, E.res, ANone)
  {
    WithinAt(p, pos, CallCode(A, F, isVoid, count).code, 0);
  }

  lemma VoidNeat(ctx: Contexts, p: Code, pos: nat, A: Emitted, F: Emitted, count: Word, c: nat, k: Consts, k': Consts, f: bool)
    requires Neat(ctx, p, pos + 1, pos + 1 + |A.code|, k, c, A.cgt, {}) && Extended(A.cgt, k, k')
    requires ExprNeat(ctx, p, pos + 1 + |A.code|, A.cgt, F, k', f) && Within(p, pos, CallCode(A, F, true, count).code)
    ensures Neat(ctx, p, pos, pos + |CallCode(A, F, true, count).code|, k', c, F.cgt, {})
  {
    hide Within, Neat, WasRead;
    CallQuadsAt(p, pos, A, F, true, count);
    CallInside(ctx, p, pos, A, F, c, k, k', f);
    AddTest(ctx, p, pos, [Q1(HintCall, ANone, ANone)] + A.code + F.code, Quad(PCall, ANone, F.res, AConst(count)), k', c, F.cgt, {F.res.t});
  }

  // the ternary

  lemma TernaryNeat(ctx: Contexts, p: Code, pos: nat, c: nat, X: Emitted, N: Emitted, Y: Emitted, l: nat, k: Consts, k1: Consts,
                    k2: Consts, g: bool, h: bool)
    requires UniqueLabels(p) && Within(p, pos, TernaryCode(X, N, Y, l).code)
    requires Neat(ctx, p, pos, pos + |X.code| + 1, k, c, X.cgt + 1, {}) && k(X.cgt + 1) && !WasRead(p, pos, pos + |X.code| + 1, X.cgt + 1)
    requires var at := pos + |X.code| + 1;
             ExprNeat(ctx, p, at, X.cgt + 1, N, k1, g) && ExprNeat(ctx, p, at + |N.code| + 3, N.cgt, Y, k2, h)
    requires Extended(X.cgt + 1, k, k1) && Extended(N.cgt, k1, k2) && X.cgt + 1 <= N.cgt <= Y.cgt && c <= X.cgt
    ensures ExprNeat(ctx, p, pos, c, TernaryCode(X, N, Y, l), k2, true)
  {
    hide Within, UniqueLabels, Neat, FindLabel, WasRead;
    TernaryLayout(p, pos, X, N, Y, l);
    var r, at := X.cgt + 1, pos + |X.code| + 1;
    var i := at + |N.code|;
    var j := i + 3 + |Y.code|;
    JoinNeat(ctx, p, pos, at, i, k, k1, c, r, N.cgt, {}, {N.res.t});
    assert {} + {N.res.t} == {N.res.t};
    OutsIn(ctx, p, at, i, k1, r, N.cgt, {N.res.t});
    assert !WasRead(p, pos, i, r) by { NotRead(ctx, p, pos, at, i, k1, r, N.cgt, {N.res.t}, r); }
    AddCopy(ctx, p, pos, i, k1, c, N.cgt, {N.res.t}, r, N.res.t);
    AddMute(ctx, p, pos, i + 1, k1, c, N.cgt, {r});
    AddMute(ctx, p, pos, i + 2, k1, c, N.cgt, {r});
    JoinNeat(ctx, p, pos, i + 3, j, k1, k2, c, N.cgt, Y.cgt, {r}, {Y.res.t});
    OutsIn(ctx, p, i + 3, j, k2, N.cgt, Y.cgt, {Y.res.t});
    AddCopy(ctx, p, pos, j, k2, c, Y.cgt, {r} + {Y.res.t}, r, Y.res.t);
    AddMute(ctx, p, pos, j + 1, k2, c, Y.cgt, {r});
  }

  lemma NotRead(ctx: Contexts, p: Code, i: nat, j: nat, n: nat, k: Consts, lo: nat, hi: nat, outs: set<nat>, t: nat)
    requires !WasRead(p, i, j, t) && Neat(ctx, p, j, n, k, lo, hi, outs) && t <= lo
    ensures !WasRead(p, i, n, t)
  {
    hide QuadTame, Reads, WrittenIn, SingleIn, SettledIn, Once, LeftOver;
    forall m: nat | i <= m < n && m < |p|
      ensures !Reads(p[m], t)
    {
      if m >= j && Reads(p[m], t) {
        ReadHere(p, j, n, lo, hi, m, t);
      }
    }
  }

  /** An alternative copied into the common result. */
  lemma AddCopy(ctx: Contexts, p: Code, i: nat, j: nat, k: Consts, lo: nat, hi: nat, outs: set<nat>, r: nat, a: nat)
    requires Neat(ctx, p, i, j, k, lo, hi, outs) && j < |p| && p[j] == Q1(Copy, ATemp(r), ATemp(a)) && lo < r <= hi && k(r)
    requires a in outs && a != r && (r in outs || !WasRead(p, i, j, r))
    ensures Neat(ctx, p, i, j + 1, k, lo, hi, {r})
  {
    hide Neat, LeftOver, WasRead;
    assert QuadTame(ctx, p, k, j);
    AddNeat(ctx, p, i, j, k, lo, hi, outs, {r});
  }

  // any expression

  lemma {:induction false} ExprMild(ctx: Contexts, p: Code, pos: nat, e: Expr, forced: bool, c: nat, l: nat, k: Consts)
    returns (k': Consts)
    requires UniqueLabels(p) && Within(p, pos, ExprCode(e, c, l).code) && MildExpr(e, forced)
    ensures ExprNeat(ctx, p, pos, c, ExprCode(e, c, l), k', MayBeConst(e, forced)) && Extended(c, k, k')
    decreases e, 1
  {
    hide Within, UniqueLabels, ExprCode, ArgsCode, PlaceCode, ExprNeat, Extended;
    CodeParts(e, c, l);
    match e
    case Const(n) => k' := SingleNeat(ctx, p, pos, CopyConst(ATemp(c + 1), ToWord(n)), c, l, k, true);
    case Ident(x, isFn) => k' := SingleNeat(ctx, p, pos, Q1(Copy, ATemp(c + 1), AName(x, isFn)), c, l, k, forced);
    case Ref(a) => k' := RefMild(ctx, p, pos, a, c, l, k);
    case Not(a) =>
      var A := ExprCode(a, c, l + 2);
      var k1 := PrefixMild(ctx, p, pos, a, false, c, l + 2, ExprCode(e, c, l).code, k);
      k' := NotNeat(ctx, p, pos, c, A, l, k1, MayBeConst(a, false));
      ExtendedMore(c, A.cgt, k, k1, k');
    case Ternary(_, _, _) => k' := TernaryMild(ctx, p, pos, e, c, l, k);
    case Call(_, _, _) => k' := CallMild(ctx, p, pos, e, forced, c, l, k);
    case Arith(_, _, _) => k' := ArithMild(ctx, p, pos, e, forced, c, l, k);
    case Relate(_, _, _) => k' := InfixMild(ctx, p, pos, e, c, l, k);
    case Or(_, _) => k' := InfixMild(ctx, p, pos, e, c, l, k);
    case And(_, _) => k' := InfixMild(ctx, p, pos, e, c, l, k);
    case Comma(_, _) => k' := InfixMild(ctx, p, pos, e, c, l, k);
  }

  lemma {:induction false} PrefixMild(ctx: Contexts, p: Code, pos: nat, a: Expr, forced: bool, c: nat, l: nat, whole: Code,
                                      k: Consts)
    returns (k': Consts)
    requires UniqueLabels(p) && Within(p, pos, whole) && ExprCode(a, c, l).code <= whole && MildExpr(a, forced)
    ensures ExprNeat(ctx, p, pos, c, ExprCode(a, c, l), k', MayBeConst(a, forced)) && Extended(c, k, k')
    decreases a, 2
  {
    hide Within, UniqueLabels, ExprNeat, ExprCode, Extended;
    PrefixWithin(p, pos, ExprCode(a, c, l).code, whole);
    k' := ExprMild(ctx, p, pos, a, forced, c, l, k);
  }

  lemma RefMild(ctx: Contexts, p: Code, pos: nat, a: Expr, c: nat, l: nat, k: Consts) returns (k': Consts)
    requires a.Ident? && Within(p, pos, PlaceCode(a, c, l).code)
    ensures ExprNeat(ctx, p, pos, c, PlaceCode(a, c, l), k', true) && Extended(c, k, k')
  {
    hide ExprNeat, Extended;
    k' := SingleNeat(ctx, p, pos, Q1(OpRef, ATemp(c + 1), AName(a.name, a.isFn)), c, l, k, true);
  }

  lemma {:induction false} ArithMild(ctx: Contexts, p: Code, pos: nat, e: Expr, forced: bool, c: nat, l: nat, k: Consts)
    returns (k': Consts)
    requires e.Arith? && UniqueLabels(p) && Within(p, pos, ExprCode(e, c, l).code) && MildExpr(e, forced)
    ensures ExprNeat(ctx, p, pos, c, ExprCode(e, c, l), k', MayBeConst(e, forced)) && Extended(c, k, k')
    decreases e, 0
  {
    hide Within, UniqueLabels, ExprCode, ExprNeat, Extended;
    CodeParts(e, c, l);
    var A := ExprCode(e.left, c, l);
    var B := ExprCode(e.right, A.cgt, A.lab);
    var f := ForcedLeft(e.kind, e.right, forced);
    PairWithin(p, pos, A, B, ExprCode(e, c, l).code);
    var k1 := ExprMild(ctx, p, pos, e.left, f, c, l, k);
    k' := ExprMild(ctx, p, pos + |A.code|, e.right, false, A.cgt, A.lab, k1);
    ForcedConst(e.left);
    ArithNeat(ctx, p, pos, e.kind, c, A, B, k1, k', MayBeConst(e.left, f), MayBeConst(e.right, false));
    ExtendedMore(c, A.cgt, k, k1, k');
  }

  lemma {:induction false} InfixMild(ctx: Contexts, p: Code, pos: nat, e: Expr, c: nat, l: nat, k: Consts)
    returns (k': Consts)
    requires (e.Relate? || e.Or? || e.And? || e.Comma?) && MildExpr(e, false)
    requires UniqueLabels(p) && Within(p, pos, ExprCode(e, c, l).code)
    ensures ExprNeat(ctx, p, pos, c, ExprCode(e, c, l), k', true) && Extended(c, k, k')
    decreases e, 0
  {
    hide Within, UniqueLabels, ExprCode, ExprNeat, Extended;
    CodeParts(e, c, l);
    var logic := e.Or? || e.And?;
    var l' := if e.Relate? || logic then l + 2 else l;
    var A := ExprCode(e.left, c, l');
    var B := ExprCode(e.right, A.cgt, A.lab);
    var f, g := MayBeConst(e.left, false), MayBeConst(e.right, false);
    var k1, k2;
    if logic {
      LogicWithin(p, pos, e.Or?, A, B, l);
      k1 := ExprMild(ctx, p, pos, e.left, false, c, l', k);
      k2 := ExprMild(ctx, p, pos + |A.code| + 1, e.right, false, A.cgt, A.lab, k1);
      k' := LogicNeat(ctx, p, pos, e.Or?, c, A, B, l, k1, k2, f, g);
    } else {
      InfixCode(e, c, l);
      PairWithin(p, pos, A, B, ExprCode(e, c, l).code);
      k1 := ExprMild(ctx, p, pos, e.left, false, c, l', k);
      k2 := ExprMild(ctx, p, pos + |A.code|, e.right, false, A.cgt, A.lab, k1);
      if e.Relate? {
        k' := RelateNeat(ctx, p, pos, e.rel, c, A, B, l, k1, k2, f, g);
      } else {
        k' := CommaNeat(ctx, p, pos, c, A, B, k1, k2, f, g);
      }
    }
    ExtendedMore(c, A.cgt, k, k1, k2);
    ExtendedMore(c, B.cgt, k, k2, k');
  }

  lemma CommaNeat(ctx: Contexts, p: Code, pos: nat, c: nat, A: Emitted, B: Emitted, k: Consts, k1: Consts, f: bool, g: bool)
    returns (k': Consts)
    requires ExprNeat(ctx, p, pos, c, A, k, f) && ExprNeat(ctx, p, pos + |A.code|, A.cgt, B, k1, g) && Extended(A.cgt, k, k1)
    requires Within(p, pos, CommaCode(A, B).code)
    ensures ExprNeat(ctx, p, pos, c, CommaCode(A, B), k', true) && Extended(B.cgt, k1, k')
  {
    hide Within, Neat;
    BothNeat(ctx, p, pos, c, A, B, k, k1, f, g);
    FewerLeft(ctx, p, pos, pos + |Both(A, B)|, k1, c, B.cgt, {A.res.t} + {B.res.t}, {B.res.t});
    k' := FreshNeat(ctx, p, pos, c, B.(code := Both(A, B)), k1, g);
  }

  lemma {:induction false} TernaryMild(ctx: Contexts, p: Code, pos: nat, e: Expr, c: nat, l: nat, k: Consts)
    returns (k': Consts)
    requires e.Ternary? && UniqueLabels(p) && Within(p, pos, ExprCode(e, c, l).code) && MildExpr(e, false)
    ensures ExprNeat(ctx, p, pos, c, ExprCode(e, c, l), k', true) && Extended(c, k, k')
    decreases e, 0
  {
    hide Within, UniqueLabels, ExprCode, ExprNeat, Extended, Neat, WasRead;
    CodeParts(e, c, l);
    var X := ExprCode(e.cond, c, l + 2);
    var N := ExprCode(e.no, X.cgt + 1, X.lab);
    var Y := ExprCode(e.yes, N.cgt, N.lab);
    TernaryLayout(p, pos, X, N, Y, l);
    var k1 := ExprMild(ctx, p, pos, e.cond, false, c, l + 2, k);
    var k2 := TernaryFirst(ctx, p, pos, c, X, N, Y, l, k1, MayBeConst(e.cond, false));
    var k3 := ExprMild(ctx, p, pos + |X.code| + 1, e.no, false, X.cgt + 1, X.lab, k2);
    k' := ExprMild(ctx, p, pos + |X.code| + 1 + |N.code| + 3, e.yes, false, N.cgt, N.lab, k3);
    TernaryNeat(ctx, p, pos, c, X, N, Y, l, k2, k3, k', MayBeConst(e.no, false), MayBeConst(e.yes, false));
    ExtendedMore(c, X.cgt, k, k1, k2);
    ExtendedMore(c, X.cgt + 1, k, k2, k3);
    ExtendedMore(c, N.cgt, k, k3, k');
  }

  /** The condition of a ternary, its jump, and the number of the common result. */
  lemma TernaryFirst(ctx: Contexts, p: Code, pos: nat, c: nat, X: Emitted, N: Emitted, Y: Emitted, l: nat, k: Consts, f: bool)
    returns (k': Consts)
    requires ExprNeat(ctx, p, pos, c, X, k, f) && Within(p, pos, TernaryCode(X, N, Y, l).code)
    ensures Neat(ctx, p, pos, pos + |X.code| + 1, k', c, X.cgt + 1, {}) && Extended(X.cgt, k, k') && k'(X.cgt + 1)
    ensures !WasRead(p, pos, pos + |X.code| + 1, X.cgt + 1)
  {
    hide Within, Neat, WasRead;
    var q := JumpTrue(l + 1, X.res);
    PrefixWithin(p, pos, X.code + [q], TernaryCode(X, N, Y, l).code);
    AddTest(ctx, p, pos, X.code, q, k, c, X.cgt, {X.res.t});
    k' := NextNumber(ctx, p, pos, pos + |X.code| + 1, k, c, X.cgt, {}, true);
  }

  lemma {:induction false} ArgsMild(ctx: Contexts, p: Code, pos: nat, args: ExprList, c: nat, l: nat, k: Consts)
    returns (k': Consts)
    requires UniqueLabels(p) && Within(p, pos, ArgsCode(args, c, l).code) && MildArgs(args)
    ensures var T := ArgsCode(args, c, l); Neat(ctx, p, pos, pos + |T.code|, k', c, T.cgt, {}) && Extended(c, k, k')
    decreases args, 0
  {
    hide UniqueLabels, ExprCode, ArgsCode, Within, Neat, ExprNeat, Extended;
    ArgsParts(args, c, l);
    if args.ECons? {
      var A := ExprCode(args.head, c, l);
      var T := ArgsCode(args.tail, A.cgt, A.lab);
      var q := Q1(Arg, ANone, A.res);
      WithinSplit(p, pos, A.code + [q], T.code);
      var k1 := PrefixMild(ctx, p, pos, args.head, false, c, l, A.code + [q], k);
      k' := ArgsMild(ctx, p, pos + |A.code| + 1, args.tail, A.cgt, A.lab, k1);
      ArgsNeat(ctx, p, pos, A, T, c, k1, k', MayBeConst(args.head, false));
      ExtendedMore(c, A.cgt, k, k1, k');
    } else {
      WithinBound(p, pos, []);
      k' := k;
      NoCode(ctx, p, pos, k, c);
      ExtendedSelf(c, k);
    }
  }

  lemma ExtendedSelf(c: nat, k: Consts)
    ensures Extended(c, k, k)
  {
  }

  lemma {:induction false} CallMild(ctx: Contexts, p: Code, pos: nat, e: Expr, forced: bool, c: nat, l: nat, k: Consts)
    returns (k': Consts)
    requires e.Call? && !e.isVoid && UniqueLabels(p) && Within(p, pos, ExprCode(e, c, l).code) && MildExpr(e, forced)
    ensures ExprNeat(ctx, p, pos, c, ExprCode(e, c, l), k', forced) && Extended(c, k, k')
    decreases e, 0
  {
    hide Within, UniqueLabels, ExprCode, ArgsCode, ExprNeat, Extended, Neat;
    CodeParts(e, c, l);
    var A := ArgsCode(e.args, c, l);
    var F := ExprCode(e.callee, A.cgt, A.lab);
    CallWithin(p, pos, A, F, e.isVoid, Count(e.args));
    var k1 := ArgsMild(ctx, p, pos + 1, e.args, c, l, k);
    var k2 := ExprMild(ctx, p, pos + 1 + |A.code|, e.callee, false, A.cgt, A.lab, k1);
    k' := CallNeat(ctx, p, pos, A, F, Count(e.args), c, k1, k2, MayBeConst(e.callee, false), forced);
    ExtendedMore(c, A.cgt, k, k1, k2);
    ExtendedMore(c, F.cgt, k, k2, k');
  }

  // ----- statements -----

  lemma NeatTame(ctx: Contexts, p: Code, i: nat, j: nat, k: Consts, lo: nat, hi: nat, outs: set<nat>)
    requires Neat(ctx, p, i, j, k, lo, hi, outs)
    ensures TameIn(ctx, p, i, j, k, lo, hi)
  {
    hide TameIn, NoSets, Once, LeftOver;
  }

  ghost predicate StmtTame(ctx: Contexts, p: Code, pos: nat, c: nat, E: Emitted, k: Consts)
  {
    TameIn(ctx, p, pos, pos + |E.code|, k, c, E.cgt)
  }

  lemma NoTame(ctx: Contexts, p: Code, i: nat, k: Consts, lo: nat)
    requires i <= |p|
    ensures TameIn(ctx, p, i, i, k, lo, lo)
  {
  }

  /** A label, a jump, a hint or a return between statements. */
  lemma AddPlainTame(ctx: Contexts, p: Code, i: nat, j: nat, k: Consts, lo: nat, hi: nat)
    requires TameIn(ctx, p, i, j, k, lo, hi) && j < |p|
    requires p[j].Label? || (p[j].op in {UJump, HintLocal, RetP} && !p[j].res.ATemp? && !p[j].arg1.ATemp? && !p[j].arg2.ATemp?)
    ensures TameIn(ctx, p, i, j + 1, k, lo, hi)
  {
    hide TameIn, Neat;
    NoCode(ctx, p, j, k, hi);
    AddMute(ctx, p, j, j, k, hi, hi, {});
    NeatTame(ctx, p, j, j + 1, k, hi, hi, {});
    JoinTame(ctx, p, i, j, j + 1, k, lo, hi, hi);
  }

  /** An expression and the quad that uses its result. */
  lemma UseTame(ctx: Contexts, p: Code, pos: nat, e: Expr, c: nat, l: nat, q: Quad, k: Consts) returns (k': Consts)
    requires MildExpr(e, false) && UniqueLabels(p) && Within(p, pos, ExprCode(e, c, l).code + [q])
    requires q.Quad? && q.arg1 == ExprCode(e, c, l).res && q.arg2 == ANone
    requires (q.op == CJumpF && q.res.ALabel?) || (q.op == RetF && q.res == ANone) || (q.op == Copy && q.res.AName?)
    ensures var E := ExprCode(e, c, l);
            TameIn(ctx, p, pos, pos + |E.code| + 1, k', c, E.cgt) && Extended(c, k, k')
  {
    hide ExprCode, Within, UniqueLabels, Neat, Extended;
    var E := ExprCode(e, c, l);
    k' := PrefixMild(ctx, p, pos, e, false, c, l, E.code + [q], k);
    LastQuad(p, pos, E.code, q);
    AddTame(ctx, p, pos, pos + |E.code|, k', c, E.cgt, {E.res.t});
  }

  lemma TestTame(ctx: Contexts, p: Code, pos: nat, test: Option<Expr>, c: nat, l: nat, out: nat, k: Consts) returns (k': Consts)
    requires MildTest(test) && UniqueLabels(p) && Within(p, pos, TestCode(test, c, l, out).code)
    ensures StmtTame(ctx, p, pos, c, TestCode(test, c, l, out), k') && Extended(c, k, k')
  {
    hide ExprCode, Within, UniqueLabels, TameIn, Extended;
    if test.None? {
      WithinBound(p, pos, []);
      k' := k;
      NoTame(ctx, p, pos, k, c);
      ExtendedSelf(c, k);
    } else {
      k' := UseTame(ctx, p, pos, test.value, c, l, Q1(CJumpF, ALabel(out), ExprCode(test.value, c, l).res), k);
    }
  }

  // assignments

  /** The assignment and the copy of its value, which nobody reads. */
  lemma PutTame(ctx: Contexts, p: Code, pos: nat, j: nat, k: Consts, lo: nat, hi: nat, a: nat, b: nat)
    requires Neat(ctx, p, pos, j, k, lo, hi, {a} + {b}) && a != b && j + 1 < |p|
    requires p[j] == Q1(DerefCopy, ATemp(a), ATemp(b)) && p[j + 1] == Q1(Copy, ATemp(hi + 1), ATemp(b)) && k(hi + 1)
    ensures TameIn(ctx, p, pos, j + 2, k, lo, hi + 1)
  {
    hide WrittenIn, Sets, FedAt;
    assert LeftOver(p, pos, j, lo, hi, a) && LeftOver(p, pos, j, lo, hi, b);
    WrittenMore(p, pos, pos, j, j + 1, b);
    PutQuads(ctx, p, j, k, hi, a, b);
    PutUses(p[j], p[j + 1], a, b, hi + 1);
    forall m: nat | pos <= m < j + 2
      ensures QuadTame(ctx, p, k, m)
    {
      assert m < j ==> QuadTame(ctx, p, k, m);
    }
    assert IdleIn(p, pos, j + 2, j + 1) by { PutIdle(p, pos, j, lo, hi, a, b); }
    assert SingleIn(p, pos, j + 2) by { PutSingle(ctx, p, pos, j, k, lo, hi, a, b); }
    assert SettledIn(p, pos, j + 2) by { PutSettled(p, pos, j); }
  }

  lemma PutQuads(ctx: Contexts, p: Code, j: nat, k: Consts, hi: nat, a: nat, b: nat)
    requires j + 1 < |p| && a != b && k(hi + 1) && a > 0
    requires p[j] == Q1(DerefCopy, ATemp(a), ATemp(b)) && p[j + 1] == Q1(Copy, ATemp(hi + 1), ATemp(b))
    ensures QuadTame(ctx, p, k, j) && QuadTame(ctx, p, k, j + 1) && !Sets(p[j + 1])
  {
  }

  /** What the two quads read and write. */
  lemma PutUses(put: Quad, copy: Quad, a: nat, b: nat, next: nat)
    requires put == Q1(DerefCopy, ATemp(a), ATemp(b)) && copy == Q1(Copy, ATemp(next), ATemp(b))
    ensures (forall t: nat :: Reads(put, t) <==> t in {a, b}) && (forall t: nat :: Reads(copy, t) <==> t == b)
    ensures (forall t: nat :: !Writes(put, t)) && (forall t: nat :: Writes(copy, t) <==> t == next)
  {
  }

  lemma PutIdle(p: Code, pos: nat, j: nat, lo: nat, hi: nat, a: nat, b: nat)
    requires pos <= j && j + 1 < |p| && ReadsIn(p, pos, j, lo, hi) && a <= hi && b <= hi
    requires p[j] == Q1(DerefCopy, ATemp(a), ATemp(b)) && p[j + 1] == Q1(Copy, ATemp(hi + 1), ATemp(b))
    ensures IdleIn(p, pos, j + 2, j + 1)
  {
    hide WrittenIn;
    var next := hi + 1;
    assert forall m: nat :: pos <= m < j ==> !Reads(p[m], next);
  }

  lemma PutSingle(ctx: Contexts, p: Code, pos: nat, j: nat, k: Consts, lo: nat, hi: nat, a: nat, b: nat)
    requires Neat(ctx, p, pos, j, k, lo, hi, {a} + {b}) && j + 1 < |p| && IdleIn(p, pos, j + 2, j + 1)
    requires forall t: nat :: Reads(p[j], t) ==> t in {a, b}
    ensures SingleIn(p, pos, j + 2)
  {
    hide QuadTame, WrittenIn, Reads, Writes, Sets, SettledIn;
    assert LeftOver(p, pos, j, lo, hi, a) && LeftOver(p, pos, j, lo, hi, b);
    forall m: nat, n: nat, t: nat | pos <= m < n < j + 2 && Reads(p[m], t) && !Writes(p[m], t) && Reads(p[n], t)
      ensures n == j + 1
    {
    }
  }

  lemma PutSettled(p: Code, pos: nat, j: nat)
    requires pos <= j && j + 1 < |p| && NoSets(p, pos, j) && IdleIn(p, pos, j + 2, j + 1)
    ensures SettledIn(p, pos, j + 2)
  {
    hide WrittenIn, Reads, Sets;
  }

  lemma AssignTame(ctx: Contexts, p: Code, pos: nat, e: Expr, c: nat, l: nat, k: Consts) returns (k': Consts)
    requires e.Assign? && e.left.Ident? && MildExpr(e.right, false) && UniqueLabels(p) && Within(p, pos, ExprCode(e, c, l).code)
    ensures TameIn(ctx, p, pos, pos + |ExprCode(e, c, l).code|, k', c, ExprCode(e, c, l).cgt) && Extended(c, k, k')
  {
    hide Within, UniqueLabels, ExprCode, Neat, TameIn, PlaceCode;
    CodeParts(e, c, l);
    var A := PlaceCode(e.left, c, l);
    var B := ExprCode(e.right, A.cgt, A.lab);
    var both, put := Both(A, B), Q1(DerefCopy, A.res, B.res);
    InfixCode(e, c, l);
    PairWithin(p, pos, A, B, ExprCode(e, c, l).code);
    var k1 := RefMild(ctx, p, pos, e.left, c, l, k);
    var k2 := ExprMild(ctx, p, pos + |A.code|, e.right, false, A.cgt, A.lab, k1);
    BothNeat(ctx, p, pos, c, A, B, k1, k2, true, MayBeConst(e.right, false));
    k' := NextNumber(ctx, p, pos, pos + |both|, k2, c, B.cgt, {A.res.t} + {B.res.t}, true);
    LastQuad(p, pos, both + [put], Q1(Copy, ATemp(B.cgt + 1), B.res));
    LastQuad(p, pos, both, put);
    ShrunkNeat(ctx, p, pos, pos + |both|, k2, k', c, B.cgt, {A.res.t} + {B.res.t});
    PutTame(ctx, p, pos, pos + |both|, k', c, B.cgt, A.res.t, B.res.t);
  }

  lemma ShrunkNeat(ctx: Contexts, p: Code, i: nat, j: nat, k: Consts, k': Consts, lo: nat, hi: nat, outs: set<nat>)
    requires Neat(ctx, p, i, j, k, lo, hi, outs) && Extended(hi, k, k')
    ensures Neat(ctx, p, i, j, k', lo, hi, outs)
  {
    hide TameIn, NoSets, Once, LeftOver;
    OtherConsts(ctx, p, i, j, k, k', lo, hi);
  }

  lemma VoidTame(ctx: Contexts, p: Code, pos: nat, e: Expr, c: nat, l: nat, k: Consts) returns (k': Consts)
    requires e.Call? && e.isVoid && MildEval(e) && UniqueLabels(p) && Within(p, pos, ExprCode(e, c, l).code)
    ensures TameIn(ctx, p, pos, pos + |ExprCode(e, c, l).code|, k', c, ExprCode(e, c, l).cgt) && Extended(c, k, k')
  {
    hide Within, UniqueLabels, ExprCode, ArgsCode, Extended, Neat, TameIn;
    CodeParts(e, c, l);
    var A := ArgsCode(e.args, c, l);
    var F := ExprCode(e.callee, A.cgt, A.lab);
    CallWithin(p, pos, A, F, e.isVoid, Count(e.args));
    var k1 := ArgsMild(ctx, p, pos + 1, e.args, c, l, k);
    k' := ExprMild(ctx, p, pos + 1 + |A.code|, e.callee, false, A.cgt, A.lab, k1);
    VoidNeat(ctx, p, pos, A, F, Count(e.args), c, k1, k', MayBeConst(e.callee, false));
    NeatTame(ctx, p, pos, pos + |ExprCode(e, c, l).code|, k', c, F.cgt, {});
    ExtendedMore(c, A.cgt, k, k1, k');
  }

  lemma EvalTame(ctx: Contexts, p: Code, pos: nat, e: Expr, c: nat, l: nat, k: Consts) returns (k': Consts)
    requires MildEval(e) && UniqueLabels(p) && Within(p, pos, ExprCode(e, c, l).code)
    ensures TameIn(ctx, p, pos, pos + |ExprCode(e, c, l).code|, k', c, ExprCode(e, c, l).cgt) && Extended(c, k, k')
  {
    hide Within, UniqueLabels, ExprCode, Neat, TameIn, Extended;
    if e.Assign? {
      k' := AssignTame(ctx, p, pos, e, c, l, k);
    } else if e.Call? && e.isVoid {
      k' := VoidTame(ctx, p, pos, e, c, l, k);
    } else {
      var E := ExprCode(e, c, l);
      k' := ExprMild(ctx, p, pos, e, false, c, l, k);
      NeatTame(ctx, p, pos, pos + |E.code|, k', c, E.cgt, {E.res.t});
    }
  }

  // any statement

  lemma {:induction false} StmtMild(ctx: Contexts, p: Code, pos: nat, st: Stmt, c: nat, l: nat, out: nat, iter: nat, k: Consts)
    returns (k': Consts)
    requires MildStmt(st) && UniqueLabels(p) && Within(p, pos, StmtCode(st, c, l, out, iter).code)
    ensures StmtTame(ctx, p, pos, c, StmtCode(st, c, l, out, iter), k') && Extended(c, k, k')
    decreases st, 1
  {
    hide Within, UniqueLabels, StmtCode, ExprCode, BranchCode, TestCode, TameIn, Extended, FindLabel;
    StmtParts(st, c, l, out, iter);
    match st
    case Seq(a, b) =>
      var A := StmtCode(a, c, l, out, iter);
      var B := StmtCode(b, A.cgt, A.lab, out, iter);
      WithinSplit(p, pos, A.code, B.code);
      var k1 := StmtMild(ctx, p, pos, a, c, l, out, iter, k);
      k' := StmtMild(ctx, p, pos + |A.code|, b, A.cgt, A.lab, out, iter, k1);
      JoinTameNext(ctx, p, pos, pos + |A.code|, pos + |A.code| + |B.code|, k1, k', c, A.cgt, B.cgt);
      ExtendedMore(c, A.cgt, k, k1, k');
    case If(branch) =>
      var B := BranchCode(branch, c, l + 1, l + 1, out, iter);
      LastQuad(p, pos, B.code, Label(l + 1));
      k' := BranchMild(ctx, p, pos, branch, c, l + 1, l + 1, out, iter, k);
      AddPlainTame(ctx, p, pos, pos + |B.code|, k', c, B.cgt);
    case While(x, body) =>
      var X := TestCode(Some(x), c, l + 2, l + 2);
      var B := StmtCode(body, X.cgt, X.lab, l + 2, l + 1);
      LoopLayout(p, pos, X, B, l);
      var k1 := TestTame(ctx, p, pos + 1, Some(x), c, l + 2, l + 2, k);
      k' := StmtMild(ctx, p, pos + 1 + |X.code|, body, X.cgt, X.lab, l + 2, l + 1, k1);
      JoinTameNext(ctx, p, pos + 1, pos + 1 + |X.code|, pos + 1 + |X.code| + |B.code|, k1, k', c, X.cgt, B.cgt);
      ExtendedMore(c, X.cgt, k, k1, k');
      LoopTame(ctx, p, pos, pos + 1 + |X.code| + |B.code|, k', c, B.cgt, l + 1);
    case Do(body, x) =>
      var B := StmtCode(body, c, l + 2, l + 2, l + 1);
      var X := TestCode(Some(x), B.cgt, B.lab, l + 2);
      LoopLayout(p, pos, B, X, l);
      var k1 := StmtMild(ctx, p, pos + 1, body, c, l + 2, l + 2, l + 1, k);
      k' := TestTame(ctx, p, pos + 1 + |B.code|, Some(x), B.cgt, B.lab, l + 2, k1);
      JoinTameNext(ctx, p, pos + 1, pos + 1 + |B.code|, pos + 1 + |B.code| + |X.code|, k1, k', c, B.cgt, X.cgt);
      ExtendedMore(c, B.cgt, k, k1, k');
      LoopTame(ctx, p, pos, pos + 1 + |B.code| + |X.code|, k', c, X.cgt, l + 1);
    case For(_, _, _, _) => k' := ForMild(ctx, p, pos, st, c, l, out, iter, k);
    case _ => k' := SmallMild(ctx, p, pos, st, c, l, out, iter, k);
  }

  /** The label, the jump back and the label at the exit around the inside of a loop. */
  lemma LoopTame(ctx: Contexts, p: Code, head: nat, g: nat, k: Consts, lo: nat, hi: nat, l: nat)
    requires head + 1 <= g && g + 2 <= |p| && TameIn(ctx, p, head + 1, g, k, lo, hi)
    requires p[head].Label? && p[g] == Goto(l) && p[g + 1].Label?
    ensures TameIn(ctx, p, head, g + 2, k, lo, hi)
  {
    hide TameIn;
    NoTame(ctx, p, head, k, lo);
    AddPlainTame(ctx, p, head, head, k, lo, lo);
    ExtendedSelf(lo, k);
    JoinTameNext(ctx, p, head, head + 1, g, k, k, lo, lo, hi);
    AddPlainTame(ctx, p, head, g, k, lo, hi);
    AddPlainTame(ctx, p, head, g + 1, k, lo, hi);
  }

  lemma SmallMild(ctx: Contexts, p: Code, pos: nat, st: Stmt, c: nat, l: nat, out: nat, iter: nat, k: Consts) returns (k': Consts)
    requires MildStmt(st) && UniqueLabels(p) && Within(p, pos, StmtCode(st, c, l, out, iter).code)
    requires st.Empty? || st.Eval? || st.Let? || st.Break? || st.Continue? || st.Return?
    ensures StmtTame(ctx, p, pos, c, StmtCode(st, c, l, out, iter), k') && Extended(c, k, k')
  {
    hide Within, UniqueLabels, TameIn, ExprCode, Extended;
    ExtendedSelf(c, k);
    if st.Eval? {
      k' := EvalTame(ctx, p, pos, st.expr, c, l, k);
    } else if st.Let? && st.initial.Some? {
      var E := ExprCode(st.initial.value, c, l);
      LetParts(p, pos, st.name, E);
      NoTame(ctx, p, pos, k, c);
      AddPlainTame(ctx, p, pos, pos, k, c, c);
      k' := UseTame(ctx, p, pos + 1, st.initial.value, c, l, Q1(Copy, AName(st.name, false), E.res), k);
      JoinTameNext(ctx, p, pos, pos + 1, pos + 1 + |E.code| + 1, k, k', c, c, E.cgt);
    } else if st.Return? && st.value.Some? {
      k' := UseTame(ctx, p, pos, st.value.value, c, l, Q1(RetF, ANone, ExprCode(st.value.value, c, l).res), k);
    } else {
      k' := k;
      WithinBound(p, pos, StmtCode(st, c, l, out, iter).code);
      NoTame(ctx, p, pos, k, c);
      if !st.Empty? {
        WithinAt(p, pos, StmtCode(st, c, l, out, iter).code, 0);
        AddPlainTame(ctx, p, pos, pos, k, c, c);
      }
    }
  }

  lemma {:induction false} BranchMild(ctx: Contexts, p: Code, pos: nat, b: Branch, c: nat, l: nat, done: nat, out: nat, iter: nat,
                                       k: Consts)
    returns (k': Consts)
    requires MildBranch(b) && UniqueLabels(p) && Within(p, pos, BranchCode(b, c, l, done, out, iter).code)
    ensures StmtTame(ctx, p, pos, c, BranchCode(b, c, l, done, out, iter), k') && Extended(c, k, k')
    decreases b, 0
  {
    hide Within, UniqueLabels, StmtCode, TestCode, TameIn, Extended, FindLabel;
    var last := b.others.NoElse?;
    var X := if last then TestCode(Some(b.cond), c, l, done) else TestCode(Some(b.cond), c, l + 1, l + 1);
    var B := StmtCode(b.body, X.cgt, X.lab, out, iter);
    var a, j := pos + |X.code|, pos + |X.code| + |B.code|;
    if last {
      WithinSplit(p, pos, X.code, B.code);
      var k1 := TestTame(ctx, p, pos, Some(b.cond), c, l, done, k);
      k' := StmtMild(ctx, p, a, b.body, X.cgt, X.lab, out, iter, k1);
      JoinTameNext(ctx, p, pos, a, j, k1, k', c, X.cgt, B.cgt);
      ExtendedMore(c, X.cgt, k, k1, k');
    } else {
      var E := if b.others.Elif? then BranchCode(b.others.branch, B.cgt, B.lab, done, out, iter)
               else StmtCode(b.others.body, B.cgt, B.lab, out, iter);
      ElseLayout(p, pos, X, B, E, done, l + 1);
      var k1 := TestTame(ctx, p, pos, Some(b.cond), c, l + 1, l + 1, k);
      var k2 := StmtMild(ctx, p, a, b.body, X.cgt, X.lab, out, iter, k1);
      JoinTameNext(ctx, p, pos, a, j, k1, k2, c, X.cgt, B.cgt);
      AddPlainTame(ctx, p, pos, j, k2, c, B.cgt);
      AddPlainTame(ctx, p, pos, j + 1, k2, c, B.cgt);
      if b.others.Elif? {
        k' := BranchMild(ctx, p, j + 2, b.others.branch, B.cgt, B.lab, done, out, iter, k2);
      } else {
        k' := StmtMild(ctx, p, j + 2, b.others.body, B.cgt, B.lab, out, iter, k2);
      }
      JoinTameNext(ctx, p, pos, j + 2, j + 2 + |E.code|, k2, k', c, B.cgt, E.cgt);
      ExtendedMore(c, X.cgt, k, k1, k2);
      ExtendedMore(c, B.cgt, k, k2, k');
    }
  }

  lemma {:induction false} ForMild(ctx: Contexts, p: Code, pos: nat, st: Stmt, c: nat, l: nat, out: nat, iter: nat, k: Consts)
    returns (k': Consts)
    requires st.For? && MildStmt(st) && UniqueLabels(p) && Within(p, pos, StmtCode(st, c, l, out, iter).code)
    ensures StmtTame(ctx, p, pos, c, StmtCode(st, c, l, out, iter), k') && Extended(c, k, k')
    decreases st, 0
  {
    hide Within, UniqueLabels, StmtCode, TestCode, TameIn, Extended, FindLabel;
    StmtParts(st, c, l, out, iter);
    var (I, X, B, S) := ForParts(st, c, l);
    ForLayout(p, pos, I, X, B, S, l);
    var a := pos + |I.code|;
    var b := a + 1 + |X.code|;
    var d := b + |B.code|;
    var g := d + 1 + |S.code|;
    var k1 := StmtMild(ctx, p, pos, st.init, c, l + 3, l + 3, l + 2, k);
    var k2 := TestTame(ctx, p, a + 1, st.test, I.cgt, I.lab, l + 3, k1);
    var k3 := StmtMild(ctx, p, b, st.body, X.cgt, X.lab, l + 3, l + 2, k2);
    k' := StmtMild(ctx, p, d + 1, st.step, B.cgt, B.lab, l + 3, l + 2, k3);
    JoinTameNext(ctx, p, a + 1, b, d, k2, k3, I.cgt, X.cgt, B.cgt);
    AddPlainTame(ctx, p, a + 1, d, k3, I.cgt, B.cgt);
    JoinTameNext(ctx, p, a + 1, d + 1, g, k3, k', I.cgt, B.cgt, S.cgt);
    LoopTame(ctx, p, a, g, k', I.cgt, S.cgt, l + 1);
    ExtendedMore(I.cgt, X.cgt, k1, k2, k3);
    ExtendedMore(I.cgt, B.cgt, k1, k3, k');
    JoinTameNext(ctx, p, pos, a, g + 2, k1, k', c, I.cgt, S.cgt);
    ExtendedMore(c, I.cgt, k, k1, k');
  }

  // ----- procedures -----

  /** The code of such a body is tame, for traits that can be read off it. */
  lemma MildTame(ctx: Contexts, body: Stmt, l: nat) returns (tr: Traits)
    requires WellFormed(body, false) && MildStmt(body)
    ensures Tame(ctx, tr, ProcCode(body, l))
  {
    hide StmtCode, UniqueLabels, Within, QuadOk, FedAt, Sets, Reads, Writes;
    var p := ProcCode(body, l);
    ProcedureLabels(body, 0, l);
    WithinWhole(p);
    var k := StmtMild(ctx, p, 0, body, 0, l, 0, 0, (t: nat) => false);
    tr := TraitsOf(k);
    assert TameIn(ctx, p, 0, |p|, k, 0, StmtCode(body, 0, l, 0, 0).cgt);
    forall m: nat | m < |p|
      ensures QuadOk(ctx, tr, p[m]) && FedAt(p, m) && (IsOp(p[m], DerefCopy) ==> p[m].arg1 != p[m].res)
    {
      assert QuadTame(ctx, p, k, m);
    }
    forall b: nat | b < |p| && IdleIn(p, 0, |p|, b)
      ensures Idle(p, b)
    {
    }
  }

  /** So the optimizer may rewrite it everywhere, pass after pass. */
  lemma MildAllGood(ctx: Contexts, body: Stmt, l: nat)
    requires WellFormed(body, false) && MildStmt(body)
    ensures AllGood(ctx, ProcCode(body, l))
  {
    hide ProcCode, Ordered, Tame, AllGood;
    var tr := MildTame(ctx, body, l);
    ProcedureOrdered(body, l);
    DocileAllGood(ctx, tr, ProcCode(body, l));
  }
}
