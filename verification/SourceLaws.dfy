/** Laws of the source semantics that do not depend on how it is compiled. */
module SourceLaws {
  import opened Words
  import opened Ast

  lemma Leaves(env: Env, x: string, n: I64, s: Store)
    ensures EvalPlace(env, Ident(x, false), s) == Some((Addr(x), s))
    ensures EvalExpr(env, Ident(x, false), s) == Some((if x in s then s[x] else Void, s))
    ensures EvalExpr(env, Const(n), s) == Some((Num(ToWord(n)), s))
  {
  }

  lemma AssignTo(env: Env, l: Expr, e: Expr, s: Store, x: string, s0: Store, v: Val, s1: Store)
    requires EvalPlace(env, l, s) == Some((Addr(x), s0)) && EvalExpr(env, e, s0) == Some((v, s1))
    ensures EvalExpr(env, Assign(l, e), s) == Some((v, s1[x := v]))
  {
  }

  lemma CommaTo(env: Env, a: Expr, b: Expr, s: Store, v: Val, s1: Store)
    requires EvalExpr(env, a, s) == Some((v, s1))
    ensures EvalExpr(env, Comma(a, b), s) == EvalExpr(env, b, s1)
  {
  }

  lemma PointerPlaces(env: Env, p: string, x: string, s: Store)
    ensures EvalExpr(env, Ref(Ident(x, false)), s) == Some((Addr(x), s))
    ensures p in s ==> EvalPlace(env, Deref(Ident(p, false)), s) == Some((s[p], s))
  {
    Leaves(env, x, 0, s);
    Leaves(env, p, 0, s);
  }

  /** `x = e, y`: x has the value e had and every other variable that had one still has it. */
  lemma AssignRead(env: Env, x: string, e: Expr, y: string, s: Store, v: Val, s1: Store)
    requires EvalExpr(env, e, s) == Some((v, s1)) && (y == x || y in s1)
    ensures EvalExpr(env, Comma(Assign(Ident(x, false), e), Ident(y, false)), s) ==
            Some((if y == x then v else s1[y], s1[x := v]))
  {
    hide EvalExpr, EvalPlace;
    Leaves(env, x, 0, s);
    AssignTo(env, Ident(x, false), e, s, x, s, v, s1);
    CommaTo(env, Assign(Ident(x, false), e), Ident(y, false), s, v, s1[x := v]);
    Leaves(env, y, 0, s1[x := v]);
  }

  /** `p = &x, *p = e, x`, when evaluating e leaves p alone: a store through a pointer is a store to the variable. */
  lemma StoreThrough(env: Env, p: string, x: string, e: Expr, s: Store, v: Val, s1: Store)
    requires p != x && EvalExpr(env, e, s[p := Addr(x)]) == Some((v, s1))
    ensures EvalExpr(env, Comma(Comma(Assign(Ident(p, false), Ref(Ident(x, false))), Assign(Deref(Ident(p, false)), e)),
                                Ident(x, false)), s) ==
            Some((v, s1[x := v]))
  {
    hide EvalExpr, EvalPlace;
    var setP, setX := Assign(Ident(p, false), Ref(Ident(x, false))), Assign(Deref(Ident(p, false)), e);
    var s0 := s[p := Addr(x)];
    Leaves(env, p, 0, s);
    PointerPlaces(env, p, x, s);
    AssignTo(env, Ident(p, false), Ref(Ident(x, false)), s, p, s, Addr(x), s);
    PointerPlaces(env, p, x, s0);
    AssignTo(env, Deref(Ident(p, false)), e, s0, x, s0, v, s1);
    CommaTo(env, setP, setX, s, Addr(x), s0);
    CommaTo(env, Comma(setP, setX), Ident(x, false), s, v, s1[x := v]);
    Leaves(env, x, 0, s1[x := v]);
  }

  /** A variable that has no value can be read and copied, but not computed with or tested. */
  lemma UnsetUnusable(env: Env, x: string, s: Store)
    requires x !in s
    ensures EvalExpr(env, Not(Ident(x, false)), s) == None && EvalExpr(env, Deref(Ident(x, false)), s) == None
    ensures forall k :: EvalExpr(env, Unary(k, Ident(x, false)), s) == None
    ensures forall k, e :: EvalExpr(env, Arith(k, Ident(x, false), e), s) == None
    ensures forall k, e :: EvalExpr(env, Relate(k, Ident(x, false), e), s) == None
  {
    assert EvalExpr(env, Ident(x, false), s) == Some((Void, s));
  }

  /** `i = 0; while (i < n) i = i + 1;` ends with i equal to n after n rounds. */
  lemma {:induction false} CountsUp(env: Env, i: string, n: I64, at: I64, s: Store, fuel: nat)
    requires 0 <= at <= n && n - at <= fuel && i in s && s[i] == Num(at)
    ensures Exec(env, While(Relate(Lt, Ident(i, false), Const(n)),
                            Eval(Assign(Ident(i, false), Arith(Add, Ident(i, false), Const(1))))), s, fuel) ==
            Some((s[i := Num(n)], Normal))
    decreases fuel
  {
    hide EvalExpr, EvalPlace, EvalRel, EvalArith;
    var test, next := Relate(Lt, Ident(i, false), Const(n)), Arith(Add, Ident(i, false), Const(1));
    var step := Assign(Ident(i, false), next);
    CountTest(env, i, n, at, s);
    if at < n {
      CountNext(env, i, at, s);
      Leaves(env, i, 0, s);
      AssignTo(env, Ident(i, false), next, s, i, s, Num(at + 1), s);
      assert Exec(env, Eval(step), s, fuel) == Some((s[i := Num(at + 1)], Normal));
      CountsUp(env, i, n, at + 1, s[i := Num(at + 1)], fuel - 1);
      assert s[i := Num(at + 1)][i := Num(n)] == s[i := Num(n)];
    } else {
      assert s[i := Num(n)] == s;
    }
  }

  lemma CountTest(env: Env, i: string, n: I64, at: I64, s: Store)
    requires 0 <= at <= n && i in s && s[i] == Num(at)
    ensures Test(env, Some(Relate(Lt, Ident(i, false), Const(n))), s) == Some((at < n, s))
  {
    Leaves(env, i, n, s);
    assert EvalExpr(env, Relate(Lt, Ident(i, false), Const(n)), s) == Some((Flag(at < n), s));
  }

  lemma CountNext(env: Env, i: string, at: I64, s: Store)
    requires 0 <= at < SIGN - 1 && i in s && s[i] == Num(at)
    ensures EvalExpr(env, Arith(Add, Ident(i, false), Const(1)), s) == Some((Num(at + 1), s))
  {
    Leaves(env, i, 1, s);
    assert EvalArith(Add, Num(at), Num(1)) == Some(Num(at + 1));
  }
}
