/** Every label of emitted code is defined exactly once and every jump has a label to go to. */
module Labels {
  import opened Words
  import opened Ast
  import opened Quads
  import opened Emit

  /** How often a stretch of code defines label k. */
  function Times(c: Code, k: nat): nat
  {
    if c == [] then 0 else (if c[0] == Label(k) then 1 else 0) + Times(c[1..], k)
  }

  lemma {:induction false} CountConcat1(a: Code, b: Code, k: nat)
    ensures Times(a + b, k) == Times(a, k) + Times(b, k)
  {
    if a == [] {
      assert a + b == b;
    } else {
      assert (a + b)[1..] == a[1..] + b;
      CountConcat1(a[1..], b, k);
    }
  }

  lemma CountConcat(a: Code, b: Code)
    ensures forall k: nat :: Times(a + b, k) == Times(a, k) + Times(b, k)
  {
    forall k: nat {
      CountConcat1(a, b, k);
    }
  }

  lemma CountOne(q: Quad)
    ensures forall k: nat :: Times([q], k) == if q == Label(k) then 1 else 0
  {
  }

  lemma {:induction false} Counted(c: Code, k: nat)
    ensures Times(c, k) > 0 <==> Label(k) in c
  {
    if c != [] {
      assert c == [c[0]] + c[1..];
      Counted(c[1..], k);
    }
  }

  /** The code defines exactly the labels from lo + 1 to hi, each once. */
  ghost predicate Defines(c: Code, lo: nat, hi: nat)
  {
    lo <= hi && forall k: nat :: Times(c, k) == if lo < k <= hi then 1 else 0
  }

  lemma DefinesUnique(c: Code, lo: nat, hi: nat)
    requires Defines(c, lo, hi)
    ensures UniqueLabels(c)
    ensures forall k: nat :: lo < k <= hi ==> FindLabel(c, k, 0).Some?
  {
    forall i, j | 0 <= i < j < |c| && c[i].Label? && c[j].Label?
      ensures c[i].id != c[j].id
    {
      var k := c[i].id;
      assert c == c[..j] + c[j..];
      CountConcat1(c[..j], c[j..], k);
      Counted(c[..j], k);
      Counted(c[j..], k);
      assert c[..j][i] == Label(k) && c[j..][0] == c[j];
    }
    PairwiseUnique(c);
    forall k: nat | lo < k <= hi
      ensures FindLabel(c, k, 0).Some?
    {
      Counted(c, k);
    }
  }

  // ----- jumps -----

  predicate IsJump(q: Quad)
  {
    q.Quad? && (q.op == UJump || IsCondJump(q.op))
  }

  /** Every jump goes to a label further on in the same code, or to one of the others. */
  ghost predicate Flows(c: Code, others: set<nat>)
  {
    forall i :: 0 <= i < |c| && IsJump(c[i]) ==>
      c[i].res.ALabel? && (Label(c[i].res.l) in c[i..] || c[i].res.l in others)
  }

  /** The others of a first stretch may be found in the second. */
  lemma FlowsConcat(a: Code, others: set<nat>, b: Code, outer: set<nat>)
    requires Flows(a, others) && Flows(b, outer)
    requires forall t :: t in others ==> Label(t) in b || t in outer
    ensures Flows(a + b, outer)
  {
    var c := a + b;
    forall i | 0 <= i < |c| && IsJump(c[i])
      ensures c[i].res.ALabel? && (Label(c[i].res.l) in c[i..] || c[i].res.l in outer)
    {
      if i < |a| {
        assert c[i..] == a[i..] + b;
      } else {
        assert c[i..] == b[i - |a|..];
      }
    }
  }

  lemma FlowsQuad(q: Quad, others: set<nat>)
    requires q.Quad? && (IsJump(q) ==> q.res.ALabel? && q.res.l in others)
    ensures Flows([q], others)
  {
  }

  lemma CountQuad(c: Code, q: Quad)
    ensures q.Quad? ==> forall k: nat :: Times(c + [q], k) == Times(c, k)
    ensures q.Label? ==> forall k: nat :: Times(c + [q], k) == Times(c, k) + if k == q.id then 1 else 0
  {
    hide Times;
    CountConcat(c, [q]);
    CountOne(q);
  }

  // ----- expressions -----

  /** Code whose labels and jumps are its own. */
  ghost predicate Closed(E: Emitted, l: nat)
  {
    Defines(E.code, l, E.lab) && Flows(E.code, {})
  }

  lemma AppendClosed(E: Emitted, l: nat, q: Quad)
    requires Closed(E, l) && q.Quad? && !IsJump(q)
    ensures Closed(E.(code := E.code + [q]), l)
  {
    hide Times, Flows;
    CountQuad(E.code, q);
    FlowsQuad(q, {});
    FlowsConcat(E.code, {}, [q], {});
  }

  lemma BothClosed(A: Emitted, B: Emitted, l: nat)
    requires Closed(A, l) && Closed(B, A.lab)
    ensures Closed(B.(code := Both(A, B)), l)
  {
    hide Times, Flows;
    CountConcat(A.code, B.code);
    FlowsConcat(A.code, {}, B.code, {});
  }

  lemma SettleTail(r: Operand, v: Word, here: nat, next: nat)
    requires v <= 1 && here != next
    ensures var tail := Settle(r, v, here, next);
            Flows(tail, {}) && Label(here) in tail
            && forall k: nat :: Times(tail, k) == if k == here || k == next then 1 else 0
  {
    var tail := Settle(r, v, here, next);
    var a, b, d, e, f := tail[0], tail[1], tail[2], tail[3], tail[4];
    assert tail[1..][3] == Label(next);
    assert tail[2] == Label(here);
    assert forall k: nat :: Times(tail, k) == if k == here || k == next then 1 else 0 by {
      hide Times;
      CountQuad([], a);
      CountQuad([] + [a], b);
      CountQuad([] + [a] + [b], d);
      CountQuad([] + [a] + [b] + [d], e);
      CountQuad([] + [a] + [b] + [d] + [e], f);
      CountNone();
      assert tail == [] + [a] + [b] + [d] + [e] + [f];
    }
  }

  lemma CountNone()
    ensures forall k: nat :: Times([], k) == 0
  {
  }

  /** The body's only way out is to the first label of the tail. */
  lemma SettleClosed(body: Code, c: nat, l: nat, lab: nat, v: Word)
    requires v <= 1 && Defines(body, l + 2, lab) && Flows(body, {l + 1})
    ensures Closed(SettleAfter(body, c, l, lab, v), l)
  {
    hide Times, Flows;
    var tail := Settle(ATemp(c + 1), v, l + 1, l + 2);
    SettleTail(ATemp(c + 1), v, l + 1, l + 2);
    CountConcat(body, tail);
    FlowsConcat(body, {l + 1}, tail, {});
  }

  /** An operand followed by a jump that may leave. */
  lemma JumpAfter(A: Code, l: nat, q: Quad)
    requires Flows(A, {}) && q.Quad? && q.res == ALabel(l)
    ensures Flows(A + [q], {l}) && forall k: nat :: Times(A + [q], k) == Times(A, k)
  {
    hide Times, Flows;
    CountQuad(A, q);
    FlowsQuad(q, {l});
    FlowsConcat(A, {}, [q], {l});
  }

  lemma LogicClosed(isOr: bool, A: Emitted, B: Emitted, l: nat)
    requires Closed(A, l + 2) && Closed(B, A.lab)
    ensures Closed(LogicCode(isOr, A, B, l), l)
  {
    hide Times, Flows;
    var j1, j2 := LogicJump(isOr, l + 1, A.res), LogicJump(isOr, l + 1, B.res);
    JumpAfter(A.code, l + 1, j1);
    JumpAfter(B.code, l + 1, j2);
    var first, second := A.code + [j1], B.code + [j2];
    FlowsConcat(first, {l + 1}, second, {l + 1});
    CountConcat(first, second);
    assert first + second == A.code + [j1] + B.code + [j2];
    SettleClosed(A.code + [j1] + B.code + [j2], B.cgt, l, B.lab, if isOr then 0 else 1);
  }

  /** The second half of a ternary: from the label of its first alternative to its end. */
  lemma TernaryEnd(Y: Code, r: Operand, a: Operand, here: nat, next: nat)
    requires Flows(Y, {})
    ensures var c := [Label(here)] + (Y + [Q1(Copy, r, a), Label(next)]);
            && Flows(c, {}) && Label(here) in c && Label(next) in c
            && forall k: nat :: Times(c, k) == Times(Y, k) + (if k == here then 1 else 0) + if k == next then 1 else 0
  {
    var h, q, e := Label(here), Q1(Copy, r, a), Label(next);
    var tail := Y + [q, e];
    var c := [h] + tail;
    assert tail[|tail| - 1] == e && c[0] == h && c[|c| - 1] == e;
    assert Flows([q, e], {}) && Flows([h], {});
    hide Times, Flows;
    assert [q, e] == [] + [q] + [e];
    CountNone();
    CountQuad([], q);
    CountQuad([] + [q], e);
    CountOne(h);
    CountConcat(Y, [q, e]);
    CountConcat([h], tail);
    FlowsConcat(Y, {}, [q, e], {});
    FlowsConcat([h], {}, tail, {});
  }

  lemma TernaryClosed(X: Emitted, N: Emitted, Y: Emitted, l: nat)
    requires Closed(X, l + 2) && Closed(N, X.lab) && Closed(Y, N.lab)
    ensures Closed(TernaryCode(X, N, Y, l), l)
  {
    hide Times, Flows;
    var r := ATemp(X.cgt + 1);
    var q, g, j := Q1(Copy, r, N.res), Goto(l + 2), JumpTrue(l + 1, X.res);
    var end := [Label(l + 1)] + (Y.code + [Q1(Copy, r, Y.res), Label(l + 2)]);
    TernaryEnd(Y.code, r, Y.res, l + 1, l + 2);
    FlowsQuad(q, {});
    FlowsConcat(N.code, {}, [q], {});
    CountQuad(N.code, q);
    JumpAfter(N.code + [q], l + 2, g);
    var rest := N.code + [q] + [g] + end;
    FlowsConcat(N.code + [q] + [g], {l + 2}, end, {});
    CountConcat(N.code + [q] + [g], end);
    JumpAfter(X.code, l + 1, j);
    FlowsConcat(X.code + [j], {l + 1}, rest, {});
    CountConcat(X.code + [j], rest);
    FlatTernary(X.code, j, N.code, q, g, Label(l + 1), Y.code, Q1(Copy, r, Y.res), Label(l + 2));
  }

  lemma FlatTernary(x: Code, j: Quad, n: Code, q: Quad, g: Quad, h: Quad, y: Code, r: Quad, e: Quad)
    ensures x + [j] + (n + [q] + [g] + ([h] + (y + [r, e]))) == x + [j] + n + [q, g, h] + y + [r, e]
  {
  }

  lemma CallClosed(A: Emitted, F: Emitted, isVoid: bool, count: Word, l: nat)
    requires Closed(A, l) && Closed(F, A.lab)
    ensures Closed(CallCode(A, F, isVoid, count), l)
  {
    hide Times, Flows;
    var E := CallCode(A, F, isVoid, count);
    var hint, call := Q1(HintCall, E.res, ANone), Quad(if isVoid then PCall else FCall, E.res, F.res, AConst(count));
    BothClosed(A, F, l);
    AppendClosed(F.(code := Both(A, F)), l, call);
    FlowsQuad(hint, {});
    FlowsConcat([hint], {}, Both(A, F) + [call], {});
    CountOne(hint);
    CountConcat([hint], Both(A, F) + [call]);
    assert [hint] + (Both(A, F) + [call]) == E.code;
  }

  lemma {:induction false} ExprClosed(e: Expr, c: nat, l: nat)
    ensures Closed(ExprCode(e, c, l), l)
    decreases e, 1
  {
    hide Closed, Times, Flows, Defines;
    match e
    case Const(n) => OneQuad(CopyConst(ATemp(c + 1), ToWord(n)), c + 1, l);
    case Ident(x, isFn) => OneQuad(Q1(Copy, ATemp(c + 1), AName(x, isFn)), c + 1, l);
    case Not(a) =>
      ExprClosed(a, c, l + 2);
      NotClosed(ExprCode(a, c, l + 2), l);
    case Unary(k, a) =>
      ExprClosed(a, c, l);
      var A := ExprCode(a, c, l);
      AppendClosed(A, l, Q1(Un(UnOf(k)), A.res, A.res));
    case Cast(t, a) =>
      ExprClosed(a, c, l);
      FreshClosed(OpCast(t), ExprCode(a, c, l), l);
    case Ref(a) => PlaceClosed(a, c, l);
    case Deref(a) =>
      ExprClosed(a, c, l);
      FreshClosed(Copy, ExprCode(a, c, l), l);
      FreshClosed(OpDeref, FreshCode(Copy, ExprCode(a, c, l)), l);
    case Ternary(x, y, n) =>
      var X := ExprCode(x, c, l + 2);
      var N := ExprCode(n, X.cgt + 1, X.lab);
      ExprClosed(x, c, l + 2);
      ExprClosed(n, X.cgt + 1, X.lab);
      ExprClosed(y, N.cgt, N.lab);
      TernaryClosed(X, N, ExprCode(y, N.cgt, N.lab), l);
    case Call(f, args, isVoid) =>
      ArgsClosed(args, c, l);
      var A := ArgsCode(args, c, l);
      ExprClosed(f, A.cgt, A.lab);
      CallClosed(A, ExprCode(f, A.cgt, A.lab), isVoid, Count(args), l);
    case _ => InfixClosed(e, c, l);
  }

  /** Constructs with a left and a right operand. */
  lemma {:induction false} InfixClosed(e: Expr, c: nat, l: nat)
    requires e.Arith? || e.Relate? || e.Or? || e.And? || e.Assign? || e.Comma?
    ensures Closed(ExprCode(e, c, l), l)
    decreases e, 0
  {
    hide Closed, Times, Flows, Defines;
    var l' := if e.Relate? || e.Or? || e.And? then l + 2 else l;
    var A := if e.Assign? then PlaceCode(e.left, c, l) else ExprCode(e.left, c, l');
    var B := ExprCode(e.right, A.cgt, A.lab);
    if e.Assign? {
      PlaceClosed(e.left, c, l);
    } else {
      ExprClosed(e.left, c, l');
    }
    ExprClosed(e.right, A.cgt, A.lab);
    BothClosed(A, B, l');
    var P := B.(code := Both(A, B));
    match e
    case Arith(k, _, _) => ArithClosed(k, A, B, l);
    case Relate(k, _, _) => RelateClosed(k, A, B, l);
    case Assign(_, _) =>
      AppendClosed(P, l, Q1(DerefCopy, A.res, B.res));
      FreshClosed(Copy, P.(code := P.code + [Q1(DerefCopy, A.res, B.res)]), l);
    case Comma(_, _) => FreshClosed(Copy, P, l);
    case _ => LogicClosed(e.Or?, A, B, l);
  }

  lemma ArithClosed(k: ArithKind, A: Emitted, B: Emitted, l: nat)
    requires Closed(B.(code := Both(A, B)), l)
    ensures Closed(ArithCode(k, A, B), l)
  {
    hide Times, Flows;
    AppendClosed(B.(code := Both(A, B)), l, Quad(Alu(AluOf(k)), A.res, A.res, B.res));
  }

  lemma OneQuad(q: Quad, cgt: nat, l: nat)
    requires q.Quad? && !IsJump(q)
    ensures Closed(Emitted([q], ATemp(cgt), cgt, l), l)
  {
    FlowsQuad(q, {});
  }

  lemma FreshClosed(op: Op, A: Emitted, l: nat)
    requires Closed(A, l) && op != UJump && !IsCondJump(op)
    ensures Closed(FreshCode(op, A), l)
  {
    hide Times, Flows;
    AppendClosed(A, l, Q1(op, ATemp(A.cgt + 1), A.res));
  }

  lemma NotClosed(A: Emitted, l: nat)
    requires Closed(A, l + 2)
    ensures Closed(NotCode(A, l), l)
  {
    hide Times, Flows;
    JumpAfter(A.code, l + 1, JumpZero(l + 1, A.res));
    SettleClosed(A.code + [JumpZero(l + 1, A.res)], A.cgt, l, A.lab, 0);
  }

  lemma RelateClosed(k: RelKind, A: Emitted, B: Emitted, l: nat)
    requires Closed(B.(code := Both(A, B)), l + 2)
    ensures Closed(RelateCode(k, A, B, l), l)
  {
    hide Times, Flows;
    var q := Quad(CJump(JumpOf(k)), ALabel(l + 1), A.res, B.res);
    JumpAfter(Both(A, B), l + 1, q);
    SettleClosed(Both(A, B) + [q], B.cgt, l, B.lab, 0);
  }

  lemma {:induction false} PlaceClosed(e: Expr, c: nat, l: nat)
    ensures Closed(PlaceCode(e, c, l), l)
    decreases e, 2
  {
    match e
    case Ident(x, isFn) => OneQuad(Q1(OpRef, ATemp(c + 1), AName(x, isFn)), c + 1, l);
    case Deref(a) =>
      ExprClosed(a, c, l);
      FreshClosed(Copy, ExprCode(a, c, l), l);
    case Call(_, _, _) => ExprClosed(e, c, l);
    case _ =>
  }

  lemma {:induction false} ArgsClosed(args: ExprList, c: nat, l: nat)
    ensures Closed(ArgsCode(args, c, l), l)
    decreases args, 0
  {
    match args
    case ENil =>
    case ECons(e, tail) =>
      var A := ExprCode(e, c, l);
      var T := ArgsCode(tail, A.cgt, A.lab);
      ExprClosed(e, c, l);
      AppendClosed(A, l, Q1(Arg, ANone, A.res));
      ArgsClosed(tail, A.cgt, A.lab);
      BothClosed(A.(code := A.code + [Q1(Arg, ANone, A.res)]), T, l);
  }

  // ----- statements -----

  /** Jumps go to labels from lo + 1 to hi or to one of the others. */
  ghost predicate JumpsTo(c: Code, lo: nat, hi: nat, others: set<nat>)
  {
    forall q :: q in c && IsJump(q) ==> q.res.ALabel? && (lo < q.res.l <= hi || q.res.l in others)
  }

  /** A statement's code: its labels are the new ones and its jumps go to them or outside. */
  ghost predicate Bound(E: Emitted, l: nat, others: set<nat>)
  {
    Defines(E.code, l, E.lab) && JumpsTo(E.code, l, E.lab, others)
  }

  lemma ClosedBound(E: Emitted, l: nat, others: set<nat>)
    requires Closed(E, l)
    ensures Bound(E, l, others)
  {
    forall q | q in E.code && IsJump(q)
      ensures q.res.ALabel? && l < q.res.l <= E.lab
    {
      var i :| 0 <= i < |E.code| && E.code[i] == q;
      assert Label(q.res.l) in E.code[i..];
      Counted(E.code, q.res.l);
    }
  }

  lemma BoundAppend(E: Emitted, l: nat, q: Quad, others: set<nat>)
    requires Bound(E, l, others) && q.Quad? && (IsJump(q) ==> q.res.ALabel? && q.res.l in others)
    ensures Bound(E.(code := E.code + [q]), l, others)
  {
    hide Times;
    CountQuad(E.code, q);
  }

  lemma BoundBoth(A: Emitted, B: Emitted, l: nat, others: set<nat>)
    requires Bound(A, l, others) && Bound(B, A.lab, others)
    ensures Bound(B.(code := Both(A, B)), l, others)
  {
    hide Times;
    CountConcat(A.code, B.code);
  }

  lemma TestBound(test: Option<Expr>, c: nat, l: nat, out: nat, others: set<nat>)
    requires out in others
    ensures Bound(TestCode(test, c, l, out), l, others)
  {
    match test
    case None =>
    case Some(x) =>
      hide Times, Closed, ExprCode, JumpsTo;
      var X := ExprCode(x, c, l);
      ExprClosed(x, c, l);
      ClosedBound(X, l, others);
      BoundAppend(X, l, Q1(CJumpF, ALabel(out), X.res), others);
  }

  /** A loop gives its two labels to what is inside it. */
  lemma LoopBound(P: Emitted, Q: Emitted, l: nat, others: set<nat>)
    requires Bound(P, l + 2, {l + 1, l + 2}) && Bound(Q, P.lab, {l + 1, l + 2})
    ensures Bound(LoopCode(P, Q, l), l, others)
  {
    hide Times;
    var head, body := [Label(l + 1)], Both(P, Q);
    var c := head + body;
    BoundBoth(P, Q, l + 2, {l + 1, l + 2});
    CountOne(Label(l + 1));
    CountConcat(head, body);
    CountQuad(c, Goto(l + 1));
    CountQuad(c + [Goto(l + 1)], Label(l + 2));
    assert c + [Goto(l + 1)] + [Label(l + 2)] == LoopCode(P, Q, l).code;
  }

  lemma ForBound(I: Emitted, X: Emitted, B: Emitted, S: Emitted, l: nat, others: set<nat>)
    requires var own := {l + 1, l + 2, l + 3};
             Bound(I, l + 3, own) && Bound(X, I.lab, own) && Bound(B, X.lab, own) && Bound(S, B.lab, own)
    ensures Bound(ForCode(I, X, B, S, l), l, others)
  {
    hide Times;
    var first, mid := I.code + [Label(l + 1)], X.code + B.code;
    CountQuad(I.code, Label(l + 1));
    CountConcat(X.code, B.code);
    CountConcat(first, mid);
    CountQuad(first + mid, Label(l + 2));
    var most := first + mid + [Label(l + 2)];
    CountConcat(most, S.code);
    CountQuad(most + S.code, Goto(l + 1));
    CountQuad(most + S.code + [Goto(l + 1)], Label(l + 3));
    assert most + S.code + [Goto(l + 1)] + [Label(l + 3)] == ForCode(I, X, B, S, l).code;
  }

  lemma ElseBound(X: Emitted, B: Emitted, E: Emitted, done: nat, l: nat, others: set<nat>)
    requires done in others
    requires Bound(X, l + 1, others + {l + 1}) && Bound(B, X.lab, others) && Bound(E, B.lab, others)
    ensures Bound(ElseCode(X, B, E, done, l + 1), l, others)
  {
    hide Times;
    CountConcat(X.code, B.code);
    CountQuad(Both(X, B), Goto(done));
    CountQuad(Both(X, B) + [Goto(done)], Label(l + 1));
    var head := Both(X, B) + [Goto(done)] + [Label(l + 1)];
    CountConcat(head, E.code);
    assert head + E.code == ElseCode(X, B, E, done, l + 1).code;
  }

  lemma {:induction false} StmtBound(st: Stmt, c: nat, l: nat, out: nat, iter: nat, inLoop: bool, others: set<nat>)
    requires WellFormed(st, inLoop) && (inLoop ==> out in others && iter in others)
    ensures Bound(StmtCode(st, c, l, out, iter), l, others)
    decreases st, 1
  {
    hide Times, Closed, ExprCode, TestCode, JumpsTo, Defines;
    match st
    case Eval(e) =>
      ExprClosed(e, c, l);
      ClosedBound(ExprCode(e, c, l), l, others);
    case Seq(a, b) =>
      var A := StmtCode(a, c, l, out, iter);
      StmtBound(a, c, l, out, iter, inLoop, others);
      StmtBound(b, A.cgt, A.lab, out, iter, inLoop, others);
      BoundBoth(A, StmtCode(b, A.cgt, A.lab, out, iter), l, others);
    case If(branch) =>
      BranchBound(branch, c, l + 1, l + 1, out, iter, inLoop, others + {l + 1});
      IfBound(BranchCode(branch, c, l + 1, l + 1, out, iter), l, others);
    case While(x, body) =>
      var X := TestCode(Some(x), c, l + 2, l + 2);
      TestBound(Some(x), c, l + 2, l + 2, {l + 1, l + 2});
      StmtBound(body, X.cgt, X.lab, l + 2, l + 1, true, {l + 1, l + 2});
      LoopBound(X, StmtCode(body, X.cgt, X.lab, l + 2, l + 1), l, others);
    case Do(body, x) =>
      var B := StmtCode(body, c, l + 2, l + 2, l + 1);
      StmtBound(body, c, l + 2, l + 2, l + 1, true, {l + 1, l + 2});
      TestBound(Some(x), B.cgt, B.lab, l + 2, {l + 1, l + 2});
      LoopBound(B, TestCode(Some(x), B.cgt, B.lab, l + 2), l, others);
    case For(init, test, step, body) =>
      var own := {l + 1, l + 2, l + 3};
      var I := StmtCode(init, c, l + 3, l + 3, l + 2);
      var X := TestCode(test, I.cgt, I.lab, l + 3);
      var B := StmtCode(body, X.cgt, X.lab, l + 3, l + 2);
      StmtBound(init, c, l + 3, l + 3, l + 2, true, own);
      TestBound(test, I.cgt, I.lab, l + 3, own);
      StmtBound(body, X.cgt, X.lab, l + 3, l + 2, true, own);
      StmtBound(step, B.cgt, B.lab, l + 3, l + 2, true, own);
      ForBound(I, X, B, StmtCode(step, B.cgt, B.lab, l + 3, l + 2), l, others);
    case _ =>
      SmallBound(st, c, l, out, iter, inLoop, others);
  }

  /** Statements without statements inside. */
  lemma SmallBound(st: Stmt, c: nat, l: nat, out: nat, iter: nat, inLoop: bool, others: set<nat>)
    requires WellFormed(st, inLoop) && (inLoop ==> out in others && iter in others)
    requires st.Empty? || st.Let? || st.Break? || st.Continue? || st.Return?
    ensures Bound(StmtCode(st, c, l, out, iter), l, others)
  {
    hide ExprCode;
    if st.Let? && st.initial.Some? {
      var E := ExprCode(st.initial.value, c, l);
      ExprClosed(st.initial.value, c, l);
      ClosedBound(E, l, others);
      LetBound(st.name, E, l, others);
    } else if st.Return? && st.value.Some? {
      var E := ExprCode(st.value.value, c, l);
      ExprClosed(st.value.value, c, l);
      ClosedBound(E, l, others);
      BoundAppend(E, l, Q1(RetF, ANone, E.res), others);
    } else {
      CountNone();
      if !st.Empty? {
        CountOne(StmtCode(st, c, l, out, iter).code[0]);
      }
    }
  }

  lemma LetBound(x: string, E: Emitted, l: nat, others: set<nat>)
    requires Bound(E, l, others)
    ensures Bound(LetCode(x, E), l, others)
  {
    hide Times;
    var hint := Q1(HintLocal, AName(x, false), ANone);
    CountOne(hint);
    CountConcat([hint], E.code);
    CountQuad([hint] + E.code, Q1(Copy, AName(x, false), E.res));
  }

  lemma IfBound(B: Emitted, l: nat, others: set<nat>)
    requires Bound(B, l + 1, others + {l + 1})
    ensures Bound(B.(code := B.code + [Label(l + 1)]), l, others)
  {
    hide Times;
    CountQuad(B.code, Label(l + 1));
  }

  lemma {:induction false} BranchBound(b: Branch, c: nat, l: nat, done: nat, out: nat, iter: nat, inLoop: bool,
                                       others: set<nat>)
    requires WellFormedBranch(b, inLoop) && done in others && (inLoop ==> out in others && iter in others)
    ensures Bound(BranchCode(b, c, l, done, out, iter), l, others)
    decreases b, 1
  {
    hide Times, Closed, ExprCode, TestCode, StmtCode, JumpsTo, Defines;
    if b.others.NoElse? {
      var X := TestCode(Some(b.cond), c, l, done);
      TestBound(Some(b.cond), c, l, done, others);
      StmtBound(b.body, X.cgt, X.lab, out, iter, inLoop, others);
      BoundBoth(X, StmtCode(b.body, X.cgt, X.lab, out, iter), l, others);
    } else {
      var X := TestCode(Some(b.cond), c, l + 1, l + 1);
      var B := StmtCode(b.body, X.cgt, X.lab, out, iter);
      TestBound(Some(b.cond), c, l + 1, l + 1, others + {l + 1});
      StmtBound(b.body, X.cgt, X.lab, out, iter, inLoop, others);
      if b.others.Elif? {
        BranchBound(b.others.branch, B.cgt, B.lab, done, out, iter, inLoop, others);
        ElseBound(X, B, BranchCode(b.others.branch, B.cgt, B.lab, done, out, iter), done, l, others);
      } else {
        StmtBound(b.others.body, B.cgt, B.lab, out, iter, inLoop, others);
        ElseBound(X, B, StmtCode(b.others.body, B.cgt, B.lab, out, iter), done, l, others);
      }
    }
  }

  /** The code of a whole procedure: every label the counter handed out is defined exactly once,
      and every jump finds its label. */
  lemma ProcedureLabels(st: Stmt, c: nat, l: nat)
    requires WellFormed(st, false)
    ensures var E := StmtCode(st, c, l, 0, 0);
            && UniqueLabels(E.code)
            && (forall k: nat :: Label(k) in E.code <==> l < k <= E.lab)
            && (forall q :: q in E.code && IsJump(q) ==> q.res.ALabel? && FindLabel(E.code, q.res.l, 0).Some?)
  {
    var E := StmtCode(st, c, l, 0, 0);
    StmtBound(st, c, l, 0, 0, false, {});
    DefinesUnique(E.code, l, E.lab);
    forall k: nat
      ensures Label(k) in E.code <==> l < k <= E.lab
    {
      Counted(E.code, k);
    }
  }
}
