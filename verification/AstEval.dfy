/** The compile-time evaluator of constant expressions, and its agreement with the emitted code. */
module AstEval {
  import opened Words
  import opened Ast
  import opened Quads
  import opened Emit
  import opened ExprSim
  import opened Labels

  /** The value the evaluator computes. It never looks at the left operand of a comma. None is
      division by zero, a bad shift, or a construct the evaluator does not accept. */
  function Evald(e: Expr): Option<I64>
  {
    match e
    case Const(n) => Some(n)
    case Not(a) =>
      var x :- Evald(a);
      Some(Truth(x == 0))
    case Unary(k, a) =>
      var x :- Evald(a);
      Some(ComputeUnary(k, x))
    case Cast(t, a) =>
      var x :- Evald(a);
      Some(Convert(t, x))
    case Arith(k, a, b) =>
      var x :- Evald(a);
      var y :- Evald(b);
      Compute(k, x, y)
    case Relate(k, a, b) =>
      var x :- Evald(a);
      var y :- Evald(b);
      Some(Truth(Compare(k, x, y)))
    case Or(a, b) =>
      var x :- Evald(a);
      if x != 0 then Some(1)
      else
        var y :- Evald(b);
        Some(Truth(y != 0))
    case And(a, b) =>
      var x :- Evald(a);
      if x == 0 then Some(0)
      else
        var y :- Evald(b);
        Some(Truth(y != 0))
    case Comma(_, b) => Evald(b)
    case Ternary(c, y, n) =>
      var x :- Evald(c);
      Evald(if x != 0 then y else n)
    case _ => None
  }

  function Truth(b: bool): I64
  {
    if b then 1 else 0
  }

  /** Built only from constants by operators the evaluator accepts. */
  predicate Constant(e: Expr)
  {
    match e
    case Const(_) => true
    case Not(a) => Constant(a)
    case Unary(_, a) => Constant(a)
    case Cast(_, a) => Constant(a)
    case Arith(_, a, b) => Constant(a) && Constant(b)
    case Relate(_, a, b) => Constant(a) && Constant(b)
    case Or(a, b) => Constant(a) && Constant(b)
    case And(a, b) => Constant(a) && Constant(b)
    case Comma(a, b) => Constant(a) && Constant(b)
    case Ternary(c, y, n) => Constant(c) && Constant(y) && Constant(n)
    case _ => false
  }

  /** The left operands of all commas that are reached have a value. */
  predicate LeftsDefined(e: Expr)
  {
    match e
    case Not(a) => LeftsDefined(a)
    case Unary(_, a) => LeftsDefined(a)
    case Cast(_, a) => LeftsDefined(a)
    case Arith(_, a, b) => LeftsDefined(a) && LeftsDefined(b)
    case Relate(_, a, b) => LeftsDefined(a) && LeftsDefined(b)
    case Or(a, b) => LeftsDefined(a) && (Evald(a) == Some(0) ==> LeftsDefined(b))
    case And(a, b) => LeftsDefined(a) && (Evald(a) != Some(0) ==> LeftsDefined(b))
    case Comma(a, b) => Evald(a).Some? && LeftsDefined(a) && LeftsDefined(b)
    case Ternary(c, y, n) => LeftsDefined(c) && LeftsDefined(if Evald(c) != Some(0) then y else n)
    case _ => true
  }

  /** What evaluation at run time makes of a constant expression. */
  ghost predicate RunsAs(env: Env, e: Expr, s: Store)
  {
    var d := Evald(e);
    if d.Some? && LeftsDefined(e) then EvalExpr(env, e, s) == Some((Num(ToWord(d.value)), s))
    else EvalExpr(env, e, s) == None
  }

  lemma WordZero(x: I64)
    ensures ToWord(x) == 0 <==> x == 0
    ensures Signed(ToWord(x)) == x
  {
    SignedToWord(x);
  }

  /** Evaluation at run time gives exactly the evaluator's value, except that it also needs the
      left operands of commas. */
  lemma {:induction false} EvaldAgrees(env: Env, e: Expr, s: Store)
    requires Constant(e)
    ensures RunsAs(env, e, s)
    decreases e, 1
  {
    if e.Ternary? {
      EvaldAgrees(env, e.cond, s);
      EvaldAgrees(env, e.yes, s);
      EvaldAgrees(env, e.no, s);
      if Evald(e.cond).Some? {
        WordZero(Evald(e.cond).value);
      }
    } else if e.Not? || e.Unary? || e.Cast? {
      PrefixAgrees(env, e, s);
    } else if !e.Const? {
      InfixAgrees(env, e, s);
    }
  }

  lemma {:induction false} PrefixAgrees(env: Env, e: Expr, s: Store)
    requires Constant(e) && (e.Not? || e.Unary? || e.Cast?)
    ensures RunsAs(env, e, s)
    decreases e, 0
  {
    hide Convert, ComputeUnary, ToWord, Signed;
    EvaldAgrees(env, e.arg, s);
    if Evald(e.arg).Some? {
      WordZero(Evald(e.arg).value);
    }
    WordZero(0);
    WordZero(1);
    FlagWord();
  }

  lemma FlagWord()
    ensures ToWord(0) == 0 && ToWord(1) == 1
  {
  }

  lemma {:induction false} InfixAgrees(env: Env, e: Expr, s: Store)
    requires Constant(e) && (e.Arith? || e.Relate? || e.Or? || e.And? || e.Comma?)
    ensures RunsAs(env, e, s)
    decreases e, 0
  {
    hide Compute, Compare, ToWord, Signed;
    EvaldAgrees(env, e.left, s);
    EvaldAgrees(env, e.right, s);
    if Evald(e.left).Some? {
      WordZero(Evald(e.left).value);
    }
    if Evald(e.right).Some? {
      WordZero(Evald(e.right).value);
    }
    FlagWord();
  }

  /** The code of a constant expression, run on its own, leaves the evaluator's value in the
      temporary its result is read from and touches nothing else. */
  lemma ConstantRuns(env: Env, e: Expr, c: nat, l: nat, m: Mem, frames: seq<seq<Val>>) returns (m': Mem)
    requires Constant(e) && Evald(e).Some? && LeftsDefined(e)
    ensures var E := ExprCode(e, c, l);
            && E.res.ATemp?
            && Goes(Ctx(env, E.code, frames), 0, m, |E.code|, m')
            && Get(m'.temps, E.res.t) == Num(ToWord(Evald(e).value))
            && m'.store == m.store
            && Agree(c, m.temps, m'.temps)
  {
    hide Goes, ExprCode, EvalExpr, Agree;
    var E := ExprCode(e, c, l);
    EvaldAgrees(env, e, m.store);
    ExprClosed(e, c, l);
    DefinesUnique(E.code, l, E.lab);
    var x := Ctx(env, E.code, frames);
    assert Within(E.code, 0, E.code);
    m' := ExprRuns(x, 0, e, c, l, m);
  }

  /** The evaluator gives `1 / 0, 5` the value 5, but its code stops at the division. */
  lemma CommaDiffers(env: Env)
    ensures var e := Comma(Arith(Div, Const(1), Const(0)), Const(5));
            && Evald(e) == Some(5) && !LeftsDefined(e)
            && Run(env, ExprCode(e, 0, 0).code, State(0, map[], map[], []), 3) == Stuck
  {
    hide ExprCode, Run;
    var p := ExprCode(Comma(Arith(Div, Const(1), Const(0)), Const(5)), 0, 0).code;
    var q1, q2 := CopyConst(ATemp(1), 1), CopyConst(ATemp(2), 0);
    var q3 := Quad(Alu(OpDiv), ATemp(1), ATemp(1), ATemp(2));
    DivisionCode(q1, q2, q3);
    assert p[0] == q1 && p[1] == q2 && p[2] == q3;
    DivisionStuck(env, p);
  }

  lemma DivisionStuck(env: Env, p: Code)
    requires |p| >= 3 && p[0] == CopyConst(ATemp(1), 1) && p[1] == CopyConst(ATemp(2), 0)
    requires p[2] == Quad(Alu(OpDiv), ATemp(1), ATemp(1), ATemp(2))
    ensures Run(env, p, State(0, map[], map[], []), 3) == Stuck
  {
    hide FindLabel;
    var t1: Temps, t2: Temps := map[1 := Num(1)], map[1 := Num(1), 2 := Num(0)];
    assert Run(env, p, State(2, t2, map[], []), 1) == Stuck;
    assert Run(env, p, State(1, t1, map[], []), 2) == Stuck;
  }

  lemma DivisionCode(q1: Quad, q2: Quad, q3: Quad)
    requires q1 == CopyConst(ATemp(1), 1) && q2 == CopyConst(ATemp(2), 0)
    requires q3 == Quad(Alu(OpDiv), ATemp(1), ATemp(1), ATemp(2))
    ensures [q1, q2, q3] <= ExprCode(Comma(Arith(Div, Const(1), Const(0)), Const(5)), 0, 0).code
  {
    assert ExprCode(Const(1), 0, 0).code == [q1];
    assert ExprCode(Const(0), 1, 0).code == [q2];
    assert ExprCode(Arith(Div, Const(1), Const(0)), 0, 0).code == [q1] + [q2] + [q3];
  }
}
