/** Concrete code that the optimizer may rewrite: `x = 2 + 3` becomes `x = 5`, by passes over good windows. */
module OptExample {
  import opened Ast
  import opened Quads
  import opened Emit
  import opened Procedure
  import opened Liveness
  import opened Boundaries
  import opened Optimizer
  import opened OptSim
  import opened OptClass
  import opened OptKeeps
  import opened OptFaults

  function Source(): Expr
  {
    Expr.Assign(Ident("x", false), Arith(Add, Const(2), Const(3)))
  }

  function SumCode(): Code
  {
    [RefTo(1, "x"), Set(2, AConst(2)), Set(3, AConst(3)), Quad(Alu(OpAdd), ATemp(2), ATemp(2), ATemp(3)),
     Put(1, ATemp(2)), Set(4, ATemp(2))]
  }

  function FoldedSum(): Code
  {
    [RefTo(1, "x"), Set(2, AConst(5)), Put(1, ATemp(2)), Set(4, ATemp(2))]
  }

  function StoredSum(): Code
  {
    [RefTo(1, "x"), Put(1, AConst(5)), Set(4, ATemp(2))]
  }

  function CopiedSum(): Code
  {
    [Q1(Copy, AName("x", false), AConst(5)), Set(4, ATemp(2))]
  }

  lemma SourceCode()
    ensures ProcCode(Eval(Source()), 0) == SumCode()
  {
    assert ExprCode(Arith(Add, Const(2), Const(3)), 1, 0).code
        == [Set(2, AConst(2))] + [Set(3, AConst(3))] + [Quad(Alu(OpAdd), ATemp(2), ATemp(2), ATemp(3))];
  }

  /** The window at the head of s and what it becomes. */
  lemma OneWindow(ctx: Contexts, s: Code, out: Code, k: nat)
    requires s != [] && Rewrite(ctx, s) == (out, k)
    ensures Pass(ctx, s) == out + Pass(ctx, s[k..])
  {
  }

  lemma FivePass(ctx: Contexts)
    ensures Pass(ctx, SumCode()) == FoldedSum()
  {
    hide Pass;
    var s := SumCode();
    OnePlain(ctx, s);
    assert Folded(OpAdd, 2, 3) == 5;
    OneWindow(ctx, s[1..], [Set(2, AConst(5))], 3);
    assert s[1..][3..] == s[4..];
    OnePlain(ctx, s[4..]);
    assert s[4..][1..] == s[5..];
    LastPass(ctx, s);
  }

  lemma PutPass(ctx: Contexts)
    ensures Pass(ctx, FoldedSum()) == StoredSum()
  {
    hide Pass;
    var s := FoldedSum();
    OnePlain(ctx, s);
    OneSubst(ctx, s[1..]);
    assert s[1..][2..] == s[3..];
    LastPass(ctx, s);
  }

  lemma RefPass(ctx: Contexts)
    ensures Pass(ctx, StoredSum()) == CopiedSum()
  {
    hide Pass;
    var s := StoredSum();
    OneWindow(ctx, s, [Q1(Copy, AName("x", false), AConst(5))], 2);
    LastPass(ctx, s);
  }

  lemma StablePass(ctx: Contexts)
    ensures Pass(ctx, CopiedSum()) == CopiedSum()
  {
    hide Pass;
    var s := CopiedSum();
    OnePlain(ctx, s);
    LastPass(ctx, s);
  }

  lemma LastPass(ctx: Contexts, s: Code)
    requires s != [] && s[|s| - 1] == Set(4, ATemp(2))
    ensures Pass(ctx, s[|s| - 1..]) == [Set(4, ATemp(2))]
  {
    var last := s[|s| - 1..];
    assert last == [Set(4, ATemp(2))] && last[1..] == [];
    EmptyPass(ctx);
  }

  // ----- the class it belongs to -----

  /** Temporaries 1 to 4 are used, 2 to 4 may hold constants, and there are no casts. */
  function SumTraits(): Traits
  {
    Traits(t => 2 <= t <= 4, t => false, t => 1 <= t <= 4, false)
  }

  lemma SumReads(k: nat, t: nat)
    requires k < |SumCode()| && Reads(SumCode()[k], t)
    ensures (k == 3 && t in {2, 3}) || (k == 4 && t in {1, 2}) || (k == 5 && t == 2)
  {
  }

  lemma SumKinds(ctx: Contexts, k: nat)
    requires k < |SumCode()|
    ensures QuadOk(ctx, SumTraits(), SumCode()[k]) && FedAt(SumCode(), k)
    ensures IsOp(SumCode()[k], DerefCopy) ==> SumCode()[k].arg1 != SumCode()[k].res
    ensures Sets(SumCode()[k]) ==> k == 4
  {
    assert k in {0, 1, 2} || k in {3, 4, 5};
  }

  lemma SumIdle()
    ensures Idle(SumCode(), 5) && Writes(SumCode()[3], 2)
  {
    forall m: nat | m < |SumCode()|
      ensures !Reads(SumCode()[m], 4)
    {
      if Reads(SumCode()[m], 4) {
        SumReads(m, 4);
      }
    }
  }

  lemma SumTame(ctx: Contexts)
    ensures Tame(ctx, SumTraits(), SumCode())
  {
    hide Reads, Writes, Idle, Sets, QuadOk, FedAt, SumTraits;
    var p := SumCode();
    SumIdle();
    forall k: nat | k < |p|
      ensures QuadOk(ctx, SumTraits(), p[k]) && FedAt(p, k)
      ensures IsOp(p[k], DerefCopy) ==> p[k].arg1 != p[k].res
      ensures Sets(p[k]) ==> k == 4
    {
      SumKinds(ctx, k);
    }
    forall k: nat, t: nat | k < |p| && Reads(p[k], t)
      ensures (k == 3 && t in {2, 3}) || (k == 4 && t in {1, 2}) || (k == 5 && t == 2)
    {
      SumReads(k, t);
    }
  }

  /** The sum is in the class for which all passes are right, and they bring it to a constant. */
  lemma SumOptimized(ctx: Contexts)
    ensures AllGood(ctx, ProcCode(Eval(Source()), 0))
    ensures Passes(ctx, ProcCode(Eval(Source()), 0)) == [Q1(Copy, AName("x", false), AConst(5)), Set(4, ATemp(2))]
  {
    hide Pass, Tame, ProcCode;
    assert ProcCode(Eval(Source()), 0) == SumCode() by { SourceCode(); }
    ProcedureOrdered(Eval(Source()), 0);
    SumTame(ctx);
    DocileAllGood(ctx, SumTraits(), SumCode());
    FivePass(ctx);
    PutPass(ctx);
    RefPass(ctx);
    StablePass(ctx);
    assert Passes(ctx, CopiedSum()) == CopiedSum() && Passes(ctx, StoredSum()) == CopiedSum();
    assert Passes(ctx, FoldedSum()) == CopiedSum();
  }
}
