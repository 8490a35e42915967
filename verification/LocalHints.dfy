/** Every declaration of a local is announced to the generator by one hint, in the order of the code. */
module LocalHints {
  import opened Words
  import opened Ast
  import opened Quads
  import opened Emit
  import opened Procedure
  import opened Optimizer

  predicate IsLocalHint(q: Quad)
  {
    q.Quad? && q.op.HintLocal? && q.res.AName? && q.arg1 == ANone
  }

  /** The names of the local hints of some code, in order. */
  function HintsOf(p: Code): seq<string>
  {
    if p == [] then [] else HintsOf(p[..|p| - 1]) + if IsLocalHint(p[|p| - 1]) then [p[|p| - 1].res.name] else []
  }

  /** The names a statement declares, in the order in which its parts are laid out. */
  function Declared(st: Stmt): seq<string>
    decreases st, 0
  {
    match st
    case Let(x, _) => [x]
    case Seq(a, b) => Declared(a) + Declared(b)
    case If(b) => DeclaredIn(b)
    case While(_, body) => Declared(body)
    case Do(body, _) => Declared(body)
    case For(init, _, step, body) => Declared(init) + Declared(body) + Declared(step)
    case _ => []
  }

  function DeclaredIn(b: Branch): seq<string>
    decreases b, 0
  {
    Declared(b.body) + match b.others
                       case NoElse => []
                       case Elif(next) => DeclaredIn(next)
                       case ElseBody(body) => Declared(body)
  }

  lemma {:induction false} HintsJoin(p: Code, q: Code)
    ensures HintsOf(p + q) == HintsOf(p) + HintsOf(q)
    decreases |q|
  {
    if q == [] {
      assert p + q == p;
    } else {
      HintsJoin(p, q[..|q| - 1]);
      assert (p + q)[..|p + q| - 1] == p + q[..|q| - 1];
    }
  }

  predicate NoHints(p: Code)
  {
    forall q :: q in p ==> !IsLocalHint(q)
  }

  lemma {:induction false} NoneThere(p: Code)
    requires NoHints(p)
    ensures HintsOf(p) == []
  {
    if p != [] {
      NoneThere(p[..|p| - 1]);
    }
  }

  // ----- expressions have none -----

  lemma JoinNone(p: Code, q: Code)
    ensures NoHints(p + q) <==> NoHints(p) && NoHints(q)
  {
    assert forall x :: x in p ==> x in p + q;
    assert forall x :: x in q ==> x in p + q;
  }

  lemma OnePart(A: Emitted, l: nat)
    requires NoHints(A.code)
    ensures NoHints(NotCode(A, l).code)
    ensures forall k :: NoHints(UnaryCode(k, A).code)
    ensures forall op :: op != HintLocal ==> NoHints(FreshCode(op, A).code)
  {
  }

  lemma TwoParts(A: Emitted, B: Emitted, l: nat)
    requires NoHints(A.code) && NoHints(B.code)
    ensures NoHints(CommaCode(A, B).code) && NoHints(AssignCode(A, B).code)
    ensures forall k :: NoHints(ArithCode(k, A, B).code)
    ensures forall k :: NoHints(RelateCode(k, A, B, l).code)
    ensures forall isOr :: NoHints(LogicCode(isOr, A, B, l).code)
    ensures forall isVoid, n :: NoHints(CallCode(A, B, isVoid, n).code)
  {
    JoinNone(A.code, B.code);
  }

  lemma ThreeParts(X: Emitted, N: Emitted, Y: Emitted, l: nat)
    requires NoHints(X.code) && NoHints(N.code) && NoHints(Y.code)
    ensures NoHints(TernaryCode(X, N, Y, l).code)
  {
  }

  lemma {:induction false} ExprNoHints(e: Expr, c: nat, l: nat)
    ensures NoHints(ExprCode(e, c, l).code)
    decreases e, 1
  {
    hide NoHints, NotCode, UnaryCode, FreshCode, TernaryCode, CallCode, ArithCode, RelateCode, LogicCode, AssignCode,
         CommaCode;
    match e
    case Const(n) => ShortNoHints(CopyConst(ATemp(c + 1), ToWord(n)));
    case Ident(x, isFn) => ShortNoHints(Q1(Copy, ATemp(c + 1), AName(x, isFn)));
    case Not(a) => ExprNoHints(a, c, l + 2); OnePart(ExprCode(a, c, l + 2), l);
    case Unary(k, a) => ExprNoHints(a, c, l); OnePart(ExprCode(a, c, l), l);
    case Cast(t, a) => ExprNoHints(a, c, l); OnePart(ExprCode(a, c, l), l);
    case Ref(a) => PlaceNoHints(a, c, l);
    case Deref(a) =>
      ExprNoHints(a, c, l);
      OnePart(ExprCode(a, c, l), l);
      OnePart(FreshCode(Copy, ExprCode(a, c, l)), l);
    case Ternary(x, y, n) =>
      var X := ExprCode(x, c, l + 2);
      var N := ExprCode(n, X.cgt + 1, X.lab);
      ExprNoHints(x, c, l + 2);
      ExprNoHints(n, X.cgt + 1, X.lab);
      ExprNoHints(y, N.cgt, N.lab);
      ThreeParts(X, N, ExprCode(y, N.cgt, N.lab), l);
    case Call(f, args, isVoid) =>
      var A := ArgsCode(args, c, l);
      ArgsNoHints(args, c, l);
      ExprNoHints(f, A.cgt, A.lab);
      TwoParts(A, ExprCode(f, A.cgt, A.lab), l);
    case _ => InfixNoHints(e, c, l);
  }

  lemma {:induction false} InfixNoHints(e: Expr, c: nat, l: nat)
    requires e.Arith? || e.Relate? || e.Or? || e.And? || e.Assign? || e.Comma?
    ensures NoHints(ExprCode(e, c, l).code)
    decreases e, 0
  {
    hide NoHints, ArithCode, RelateCode, LogicCode, AssignCode, CommaCode, CallCode;
    var l' := if e.Relate? || e.Or? || e.And? then l + 2 else l;
    var A := if e.Assign? then PlaceCode(e.left, c, l) else ExprCode(e.left, c, l');
    if e.Assign? {
      PlaceNoHints(e.left, c, l);
    } else {
      ExprNoHints(e.left, c, l');
    }
    ExprNoHints(e.right, A.cgt, A.lab);
    TwoParts(A, ExprCode(e.right, A.cgt, A.lab), l);
  }

  lemma ShortNoHints(q: Quad)
    ensures NoHints([]) && (!IsLocalHint(q) ==> NoHints([q]))
  {
  }

  lemma {:induction false} PlaceNoHints(e: Expr, c: nat, l: nat)
    ensures NoHints(PlaceCode(e, c, l).code)
    decreases e, 2
  {
    hide NoHints, FreshCode;
    match e
    case Ident(x, isFn) => ShortNoHints(Q1(OpRef, ATemp(c + 1), AName(x, isFn)));
    case Deref(a) => ExprNoHints(a, c, l); OnePart(ExprCode(a, c, l), l);
    case Call(_, _, _) => ExprNoHints(e, c, l);
    case _ => ShortNoHints(CopyConst(ANone, 0));
  }

  lemma {:induction false} ArgsNoHints(args: ExprList, c: nat, l: nat)
    ensures NoHints(ArgsCode(args, c, l).code)
    decreases args, 0
  {
    match args
    case ENil =>
    case ECons(e, tail) =>
      var A := ExprCode(e, c, l);
      var T := ArgsCode(tail, A.cgt, A.lab);
      ExprNoHints(e, c, l);
      ArgsNoHints(tail, A.cgt, A.lab);
  }

  // ----- statements -----

  lemma ExprHints(e: Expr, c: nat, l: nat)
    ensures HintsOf(ExprCode(e, c, l).code) == []
  {
    ExprNoHints(e, c, l);
    NoneThere(ExprCode(e, c, l).code);
  }

  lemma TestHints(test: Option<Expr>, c: nat, l: nat, out: nat)
    ensures HintsOf(TestCode(test, c, l, out).code) == []
  {
    hide ExprCode;
    if test.Some? {
      ExprHints(test.value, c, l);
      HintNext(ExprCode(test.value, c, l).code, Q1(CJumpF, ALabel(out), ExprCode(test.value, c, l).res));
    }
  }

  lemma HintNext(p: Code, q: Quad)
    ensures HintsOf(p + [q]) == HintsOf(p) + if IsLocalHint(q) then [q.res.name] else []
    ensures HintsOf([q] + p) == (if IsLocalHint(q) then [q.res.name] else []) + HintsOf(p)
  {
    assert [q][..0] == [];
    HintsJoin(p, [q]);
    HintsJoin([q], p);
  }

  /** The hints in the code of a statement are its declarations, one for one and in order, whether or not they have an
      initial value. */
  lemma {:induction false} StmtHints(st: Stmt, c: nat, l: nat, out: nat, iter: nat)
    ensures HintsOf(StmtCode(st, c, l, out, iter).code) == Declared(st)
    decreases st, 1
  {
    hide HintsOf, LoopCode, ForCode, LetCode, ExprCode, TestCode;
    match st
    case Empty => NoneThere([]);
    case Eval(e) => ExprHints(e, c, l);
    case Let(x, None) =>
      var hint := Q1(HintLocal, AName(x, false), ANone);
      NoneThere([]);
      HintNext([], hint);
      assert [] + [hint] == [hint];
    case Let(x, Some(e)) => ExprHints(e, c, l); LetHints(x, ExprCode(e, c, l));
    case Seq(a, b) =>
      var A := StmtCode(a, c, l, out, iter);
      StmtHints(a, c, l, out, iter);
      StmtHints(b, A.cgt, A.lab, out, iter);
      HintsJoin(A.code, StmtCode(b, A.cgt, A.lab, out, iter).code);
    case If(branch) =>
      BranchHints(branch, c, l + 1, l + 1, out, iter);
      HintNext(BranchCode(branch, c, l + 1, l + 1, out, iter).code, Label(l + 1));
    case While(x, body) =>
      var X := TestCode(Some(x), c, l + 2, l + 2);
      TestHints(Some(x), c, l + 2, l + 2);
      StmtHints(body, X.cgt, X.lab, l + 2, l + 1);
      LoopHints(X, StmtCode(body, X.cgt, X.lab, l + 2, l + 1), l);
    case Do(body, x) =>
      var B := StmtCode(body, c, l + 2, l + 2, l + 1);
      StmtHints(body, c, l + 2, l + 2, l + 1);
      TestHints(Some(x), B.cgt, B.lab, l + 2);
      LoopHints(B, TestCode(Some(x), B.cgt, B.lab, l + 2), l);
    case For(init, test, step, body) =>
      var (I, X, B, S) := ForParts(st, c, l);
      StmtHints(init, c, l + 3, l + 3, l + 2);
      TestHints(test, I.cgt, I.lab, l + 3);
      StmtHints(body, X.cgt, X.lab, l + 3, l + 2);
      StmtHints(step, B.cgt, B.lab, l + 3, l + 2);
      ForHints(I, X, B, S, l);
    case Break => NoneThere([Goto(out)]);
    case Continue => NoneThere([Goto(iter)]);
    case Return(None) => NoneThere([Q1(RetP, ANone, ANone)]);
    case Return(Some(e)) => ExprHints(e, c, l); HintNext(ExprCode(e, c, l).code, Q1(RetF, ANone, ExprCode(e, c, l).res));
  }

  lemma LetHints(x: string, E: Emitted)
    requires HintsOf(E.code) == []
    ensures HintsOf(LetCode(x, E).code) == [x]
  {
    hide HintsOf;
    var hint, store := Q1(HintLocal, AName(x, false), ANone), Q1(Copy, AName(x, false), E.res);
    HintNext(E.code, hint);
    HintNext([hint] + E.code, store);
  }

  lemma LoopHints(P: Emitted, Q: Emitted, l: nat)
    ensures HintsOf(LoopCode(P, Q, l).code) == HintsOf(P.code) + HintsOf(Q.code)
  {
    hide HintsOf;
    var start, rest := [Label(l + 1)], [Goto(l + 1), Label(l + 2)];
    NoneThere(start);
    NoneThere(rest);
    HintsJoin(start, P.code);
    HintsJoin(start + P.code, Q.code);
    HintsJoin(start + P.code + Q.code, rest);
  }

  lemma ForHints(I: Emitted, X: Emitted, B: Emitted, S: Emitted, l: nat)
    requires HintsOf(X.code) == []
    ensures HintsOf(ForCode(I, X, B, S, l).code) == HintsOf(I.code) + HintsOf(B.code) + HintsOf(S.code)
  {
    hide HintsOf;
    var p := I.code + [Label(l + 1)];
    var q := p + X.code + B.code + [Label(l + 2)];
    NoneThere([Goto(l + 1), Label(l + 3)]);
    HintNext(I.code, Label(l + 1));
    HintsJoin(p, X.code);
    HintsJoin(p + X.code, B.code);
    HintNext(p + X.code + B.code, Label(l + 2));
    HintsJoin(q, S.code);
    HintsJoin(q + S.code, [Goto(l + 1), Label(l + 3)]);
  }

  lemma {:induction false} BranchHints(b: Branch, c: nat, l: nat, done: nat, out: nat, iter: nat)
    ensures HintsOf(BranchCode(b, c, l, done, out, iter).code) == DeclaredIn(b)
    decreases b, 1
  {
    hide HintsOf, ElseCode, ExprCode, TestCode;
    var first := b.others.NoElse?;
    var l', next := if first then l else l + 1, if first then done else l + 1;
    var X := TestCode(Some(b.cond), c, l', next);
    var B := StmtCode(b.body, X.cgt, X.lab, out, iter);
    TestHints(Some(b.cond), c, l', next);
    StmtHints(b.body, X.cgt, X.lab, out, iter);
    HintsJoin(X.code, B.code);
    match b.others
    case NoElse =>
    case Elif(b') =>
      BranchHints(b', B.cgt, B.lab, done, out, iter);
      ElseHints(X, B, BranchCode(b', B.cgt, B.lab, done, out, iter), done, l + 1);
    case ElseBody(body) =>
      StmtHints(body, B.cgt, B.lab, out, iter);
      ElseHints(X, B, StmtCode(body, B.cgt, B.lab, out, iter), done, l + 1);
  }

  lemma ElseHints(X: Emitted, B: Emitted, E: Emitted, done: nat, next: nat)
    requires HintsOf(X.code) == []
    ensures HintsOf(ElseCode(X, B, E, done, next).code) == HintsOf(B.code) + HintsOf(E.code)
  {
    hide HintsOf;
    NoneThere([Goto(done), Label(next)]);
    HintsJoin(X.code, B.code);
    HintsJoin(X.code + B.code, [Goto(done), Label(next)]);
    HintsJoin(X.code + B.code + [Goto(done), Label(next)], E.code);
  }

  /** A declaration starts with its hint, before the initial value. */
  lemma LetFirst(x: string, initial: Option<Expr>, c: nat, l: nat, out: nat, iter: nat)
    ensures var p := StmtCode(Let(x, initial), c, l, out, iter).code;
            p != [] && p[0] == Quad(HintLocal, AName(x, false), ANone, ANone)
  {
  }

  // ----- procedures and their optimized code -----

  lemma {:induction false} HintsKept(p: Code)
    ensures HintsOf(KeptOf(p)) == HintsOf(p)
  {
    hide HintsOf, Kept;
    if p != [] {
      HintsKept(p[1..]);
      HintNext(p[1..], p[0]);
      HintNext(KeptOf(p[1..]), p[0]);
      HintIsKept(p[0]);
      assert p == [p[0]] + p[1..];
      assert [] + KeptOf(p[1..]) == KeptOf(p[1..]);
    }
  }

  lemma HintIsKept(q: Quad)
    ensures IsLocalHint(q) ==> Kept(q)
  {
  }

  /** The generator is told of every local of a procedure once, in order, before and after all passes of the
      optimizer. */
  lemma ProcedureHints(ctx: Contexts, body: Stmt, l: nat)
    ensures HintsOf(ProcCode(body, l)) == Declared(body)
    ensures HintsOf(Passes(ctx, ProcCode(body, l))) == Declared(body)
  {
    hide HintsOf, Passes, KeptOf;
    StmtHints(body, 0, l, 0, 0);
    PassesEnd(ctx, ProcCode(body, l));
    HintsKept(ProcCode(body, l));
    HintsKept(Passes(ctx, ProcCode(body, l)));
  }
}
