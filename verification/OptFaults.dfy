/** Concrete code that the optimizer changes the meaning of. */
module OptFaults {
  import opened Ast
  import opened Quads
  import opened Emit
  import opened Procedure
  import opened Optimizer

  function RefTo(t: nat, x: string): Quad
  {
    Q1(OpRef, ATemp(t), AName(x, false))
  }

  function Set(t: nat, a: Operand): Quad
  {
    Q1(Copy, ATemp(t), a)
  }

  function Put(t: nat, a: Operand): Quad
  {
    Q1(DerefCopy, ATemp(t), a)
  }

  function Chained(): Code
  {
    [RefTo(1, "x"), RefTo(2, "y"), Set(3, AConst(5)), Put(2, ATemp(3)), Set(4, ATemp(3)), Put(1, ATemp(4)),
        Set(5, ATemp(4))]
  }

  function ChainedBody(): Stmt
  {
    Eval(Expr.Assign(Ident("x", false), Expr.Assign(Ident("y", false), Const(5))))
  }

  /** `x = (y = 5)` as it is translated: the value assigned to y is read twice. */
  lemma ChainedCode()
    ensures ProcCode(ChainedBody(), 0) == Chained()
  {
    var inner := Expr.Assign(Ident("y", false), Const(5));
    assert ExprCode(inner, 1, 0).code == [RefTo(2, "y")] + [Set(3, AConst(5))] + [Put(2, ATemp(3))] +
        [Set(4, ATemp(3))];
  }

  function ChainedPass(): Code
  {
    [RefTo(1, "x"), RefTo(2, "y"), Put(2, AConst(5)), Put(1, ATemp(3)), Set(5, ATemp(4))]
  }

  lemma OnePlain(ctx: Contexts, s: Code)
    requires s != [] && Search(ctx, s) == NoPattern
    ensures Pass(ctx, s) == [s[0]] + Pass(ctx, s[1..])
  {
  }

  lemma OneSubst(ctx: Contexts, s: Code)
    requires s != [] && Search(ctx, s) == CopyUnarySubst
    ensures Pass(ctx, s) == [s[1].(arg1 := s[0].arg1)] + Pass(ctx, s[2..])
  {
  }

  lemma ChainedFirst(ctx: Contexts)
    ensures Pass(ctx, Chained()) == ChainedPass()
  {
    hide Pass;
    var s := Chained();
    OnePlain(ctx, s);
    OnePlain(ctx, s[1..]);
    assert s[1..][1..] == s[2..];
    OneSubst(ctx, s[2..]);
    assert s[2..][2..] == s[4..];
    OneSubst(ctx, s[4..]);
    assert s[4..][2..] == s[6..];
    OnePlain(ctx, s[6..]);
    assert s[6..][1..] == [];
    EmptyPass(ctx);
    assert Pass(ctx, s) == ChainedPass();
  }

  lemma EmptyPass(ctx: Contexts)
    ensures Pass(ctx, []) == []
  {
  }

  /** One quad that only sets a temporary or stores through one. */
  function Effect(q: Quad, temps: Temps, store: Store): Option<(Temps, Store)>
  {
    if !q.Quad? || !q.res.ATemp? then None
    else
      var a := Read(q.arg1, temps, store);
      if q.op == OpRef && q.arg1.AName? then Some((temps[q.res.t := Addr(q.arg1.name)], store))
      else if q.op == Copy then Some((temps[q.res.t := a], store))
      else if q.op == OpCast(TU8) then Some((temps[q.res.t := CastVal(TU8, a)], store))
      else if q.op == Alu(OpAdd) then Some((temps[q.res.t := AluVal(OpAdd, a, Read(q.arg2, temps, store)).value],
          store))
      else if q.op == DerefCopy && Get(temps, q.res.t).Addr? then Some((temps, store[Get(temps, q.res.t).name := a]))
      else None
  }

  /** The state of a run after the quad at pc. */
  lemma EffectStep(env: Env, p: Code, s: State, temps: Temps, store: Store)
    requires s.pc < |p| && Effect(p[s.pc], s.temps, s.store) == Some((temps, store))
    ensures Step(env, p, s) == At(State(s.pc + 1, temps, store, s.frames))
  {
    hide CastVal;
  }

  /** A run goes on from there. */
  lemma Onward(env: Env, p: Code, s: State, temps: Temps, store: Store, n: nat)
    requires s.pc < |p| && Effect(p[s.pc], s.temps, s.store) == Some((temps, store)) && n > 0
    ensures Run(env, p, s, n) == Run(env, p, State(s.pc + 1, temps, store, s.frames), n - 1)
  {
    hide Effect;
    EffectStep(env, p, s, temps, store);
  }

  /** Run as translated, `x = (y = 5)` sets both variables. */
  lemma ChainedRuns(env: Env)
    ensures Run(env, ProcCode(ChainedBody(), 0), State(0, map[], map[], []), 8) ==
            Halt(Void, map["y" := Num(5), "x" := Num(5)])
  {
    hide Run, ProcCode;
    ChainedCode();
    var p := Chained();
    var t1: Temps := map[1 := Addr("x")];
    var t2, m := t1[2 := Addr("y")], map["y" := Num(5)];
    var t3 := t2[3 := Num(5)];
    var t4, m' := t3[4 := Num(5)], m["x" := Num(5)];
    Onward(env, p, State(0, map[], map[], []), t1, map[], 8);
    Onward(env, p, State(1, t1, map[], []), t2, map[], 7);
    Onward(env, p, State(2, t2, map[], []), t3, map[], 6);
    Onward(env, p, State(3, t3, map[], []), t3, m, 5);
    Onward(env, p, State(4, t3, m, []), t4, m, 4);
    Onward(env, p, State(5, t4, m, []), t4, m', 3);
    Onward(env, p, State(6, t4, m', []), t4[5 := Num(5)], m', 2);
    AtEnd(env, p, State(7, t4[5 := Num(5)], m', []));
  }

  lemma AtEnd(env: Env, p: Code, s: State)
    requires s.pc >= |p|
    ensures Run(env, p, s, 1) == Halt(Void, s.store)
  {
  }

  /** What all passes leave: the address of y is gone as well. */
  function ChainedFinal(): Code
  {
    [RefTo(1, "x"), Q1(Copy, AName("y", false), AConst(5)), Put(1, ATemp(3)), Set(5, ATemp(4))]
  }

  lemma ChainedPasses(ctx: Contexts)
    ensures Passes(ctx, Chained()) == ChainedFinal()
  {
    hide Pass;
    ChainedFirst(ctx);
    var s := ChainedPass();
    OnePlain(ctx, s);
    OneRef(ctx, s[1..]);
    assert s[1..][2..] == s[3..];
    ChainedEnd(ctx, s, 3);
    assert Pass(ctx, s) == ChainedFinal();
    var u := ChainedFinal();
    OnePlain(ctx, u);
    OnePlain(ctx, u[1..]);
    assert u[1..][1..] == u[2..];
    ChainedEnd(ctx, u, 2);
    assert Pass(ctx, u) == u;
    assert Passes(ctx, u) == u && Passes(ctx, s) == u;
  }

  lemma OneRef(ctx: Contexts, s: Code)
    requires s != [] && Search(ctx, s) == RefSubst
    ensures Pass(ctx, s) == [CopyOf(s[0].arg1, s[1].arg1)] + Pass(ctx, s[2..])
  {
  }

  lemma ChainedEnd(ctx: Contexts, s: Code, i: nat)
    requires i + 2 == |s| && s[i] == Put(1, ATemp(3)) && s[i + 1] == Set(5, ATemp(4))
    ensures Pass(ctx, s[i..]) == s[i..]
  {
    hide Pass;
    var end := s[i..];
    assert end == [Put(1, ATemp(3)), Set(5, ATemp(4))];
    OnePlain(ctx, end);
    OnePlain(ctx, end[1..]);
    assert end[1..][1..] == [];
    EmptyPass(ctx);
  }

  lemma ChainedFinalRuns(env: Env)
    ensures Run(env, ChainedFinal(), State(0, map[], map[], []), 5) == Halt(Void, map["y" := Num(5), "x" := Void])
  {
    hide Run, AluVal;
    var p := ChainedFinal();
    var t1: Temps := map[1 := Addr("x")];
    var m := map["y" := Num(5)];
    var m' := m["x" := Void];
    Onward(env, p, State(0, map[], map[], []), t1, map[], 5);
    NameSet(env, p, State(1, t1, map[], []), 4);
    Onward(env, p, State(2, t1, m, []), t1, m', 3);
    Onward(env, p, State(3, t1, m', []), t1[5 := Void], m', 2);
    AtEnd(env, p, State(4, t1[5 := Void], m', []));
  }

  /** A constant copied to a variable. */
  lemma NameSet(env: Env, p: Code, s: State, n: nat)
    requires s.pc < |p| && n > 0 && IsOp(p[s.pc], Copy) && p[s.pc].res.AName? && p[s.pc].arg1.AConst?
    ensures Run(env, p, s, n) == Run(env, p, s.(pc := s.pc + 1, store := s.store[p[s.pc].res.name := Num(p[s.pc].arg1.w)]), n - 1)
  {
  }

  /** What the optimizer returns sets x from a temporary that nothing has written. */
  lemma ChainedDiffers(env: Env, ctx: Contexts)
    ensures Run(env, Passes(ctx, ProcCode(ChainedBody(), 0)), State(0, map[], map[], []), 5) ==
            Halt(Void, map["y" := Num(5), "x" := Void])
  {
    hide Run, Passes, ProcCode;
    ChainedCode();
    ChainedPasses(ctx);
    ChainedFinalRuns(env);
  }

  // ----- a local variable taken for temporary 1 -----

  function AddCast(): Code
  {
    [Set(1, AConst(5)), Set(2, AName("x", false)), Q1(OpCast(TU8), ATemp(3), ATemp(2)),
     Quad(Alu(OpAdd), ATemp(1), ATemp(1), ATemp(3)), Q1(RetF, ANone, ATemp(1))]
  }

  function AddCastBody(): Stmt
  {
    Return(Some(Arith(Add, Const(5), Cast(TU8, Ident("x", false)))))
  }

  /** `return 5 + (x as u8)` as it is translated. */
  lemma AddCastCode()
    ensures ProcCode(AddCastBody(), 0) == AddCast()
  {
    var cast := Cast(TU8, Ident("x", false));
    assert ExprCode(cast, 1, 0).code == [Set(2, AName("x", false))] + [Q1(OpCast(TU8), ATemp(3), ATemp(2))];
    assert ExprCode(Const(5), 0, 0).code == [Set(1, AConst(5))];
    assert ExprCode(Arith(Add, Const(5), cast), 0, 0).code
           == [Set(1, AConst(5))] + ExprCode(cast, 1, 0).code + [Quad(Alu(OpAdd), ATemp(1), ATemp(1), ATemp(3))];
  }

  function AddCastPass(): Code
  {
    [Set(1, AConst(5)), Q1(OpCast(TU8), ATemp(3), AName("x", false)),
     Quad(Alu(OpAdd), ATemp(1), ATemp(1), ATemp(3)), Q1(RetF, ANone, ATemp(1))]
  }

  function AddCastPasses(): Code
  {
    [Set(3, AConst(5)), Quad(Alu(OpAdd), ATemp(1), ATemp(1), ATemp(3)), Q1(RetF, ANone, ATemp(1))]
  }

  /** The second pass takes x, whose context number is 1, for temporary 1 and casts 5 instead. */
  lemma AddCastOptimized(ctx: Contexts)
    requires ctx("x") == 1
    ensures Passes(ctx, AddCast()) == AddCastPasses()
  {
    hide Pass;
    var s, u := AddCast(), AddCastPass();
    EmptyPass(ctx);
    OnePlain(ctx, s);
    OneSubst(ctx, s[1..]);
    assert s[1..][2..] == s[3..];
    OnePlain(ctx, s[3..]);
    assert s[3..][1..] == s[4..];
    OnePlain(ctx, s[4..]);
    assert s[4..][1..] == [];
    assert Pass(ctx, s) == u;
    OneFold(ctx, u);
    OnePlain(ctx, u[2..]);
    assert u[2..][1..] == u[3..];
    OnePlain(ctx, u[3..]);
    assert u[3..][1..] == [];
    assert Pass(ctx, u) == AddCastPasses();
    AddCastStable(ctx);
    assert Passes(ctx, AddCastPasses()) == AddCastPasses() && Passes(ctx, u) == AddCastPasses();
  }

  lemma AddCastStable(ctx: Contexts)
    ensures Pass(ctx, AddCastPasses()) == AddCastPasses()
  {
    hide Pass;
    var u := AddCastPasses();
    OnePlain(ctx, u);
    OnePlain(ctx, u[1..]);
    assert u[1..][1..] == u[2..];
    OnePlain(ctx, u[2..]);
    assert u[2..][1..] == [];
    EmptyPass(ctx);
  }

  lemma OneFold(ctx: Contexts, s: Code)
    requires s != [] && Search(ctx, s) == UnaryConstFold
    ensures Pass(ctx, s) == FoldUnary(s[1], s[0].arg1.w) + Pass(ctx, s[2..])
  {
  }

  lemma SmallWords()
    ensures CastWord(TU8, 7) == 7 && AluWord(OpAdd, 5, 7) == Some(12)
  {
  }

  /** For x = 7 the translated code returns 12. */
  lemma AddCastRuns(env: Env)
    ensures Run(env, ProcCode(AddCastBody(), 0), State(0, map[], map["x" := Num(7)], []), 5) ==
            Halt(Num(12), map["x" := Num(7)])
  {
    hide Run, AluWord, CastWord, ProcCode;
    AddCastCode();
    SmallWords();
    var p, m := AddCast(), map["x" := Num(7)];
    var t1: Temps := map[1 := Num(5)];
    var t2 := t1[2 := Num(7)];
    var t3 := t2[3 := Num(7)];
    Onward(env, p, State(0, map[], m, []), t1, m, 5);
    Onward(env, p, State(1, t1, m, []), t2, m, 4);
    Onward(env, p, State(2, t2, m, []), t3, m, 3);
    Onward(env, p, State(3, t3, m, []), t3[1 := Num(12)], m, 2);
    ReturnStep(env, p, State(4, t3[1 := Num(12)], m, []));
  }

  lemma ReturnStep(env: Env, p: Code, s: State)
    requires s.pc < |p| && IsOp(p[s.pc], RetF)
    ensures Run(env, p, s, 1) == Halt(Read(p[s.pc].arg1, s.temps, s.store), s.store)
  {
  }

  lemma AddCastPassesRun(env: Env)
    ensures Run(env, AddCastPasses(), State(0, map[], map["x" := Num(7)], []), 3) == Halt(Void, map["x" := Num(7)])
  {
    hide Run, AluWord;
    var p, m := AddCastPasses(), map["x" := Num(7)];
    var t3: Temps := map[3 := Num(5)];
    Onward(env, p, State(0, map[], m, []), t3, m, 3);
    Onward(env, p, State(1, t3, m, []), t3[1 := Void], m, 2);
    ReturnStep(env, p, State(2, t3[1 := Void], m, []));
  }

  /** What the optimizer returns gives back nothing usable: temporary 1 is no longer written. */
  lemma AddCastDiffers(env: Env, ctx: Contexts)
    requires ctx("x") == 1
    ensures Run(env, Passes(ctx, ProcCode(AddCastBody(), 0)), State(0, map[], map["x" := Num(7)], []), 3) ==
            Halt(Void, map["x" := Num(7)])
  {
    hide Run, Passes, ProcCode;
    AddCastCode();
    AddCastOptimized(ctx);
    AddCastPassesRun(env);
  }
}
