/** The translator of the syntax tree: it appends to a quad buffer and counts temporaries and labels. */
module Translator {
  import opened Words
  import opened Ast
  import opened Quads
  import opened Emit

  /** The operands of `&` and the left sides of `=` can be located; translation aborts otherwise. */
  predicate Translatable(e: Expr)
  {
    match e
    case Const(_) => true
    case Ident(_, _) => true
    case Not(a) => Translatable(a)
    case Unary(_, a) => Translatable(a)
    case Cast(_, a) => Translatable(a)
    case Ref(a) => Locatable(a) && Translatable(a)
    case Deref(a) => Translatable(a)
    case Assign(a, b) => Locatable(a) && Translatable(a) && Translatable(b)
    case Ternary(x, y, n) => Translatable(x) && Translatable(y) && Translatable(n)
    case Call(f, args, _) => Translatable(f) && AllTranslatable(args)
    case _ => Translatable(e.left) && Translatable(e.right)
  }

  predicate AllTranslatable(args: ExprList)
  {
    args.ENil? || (Translatable(args.head) && AllTranslatable(args.tail))
  }

  // ----- the result of the last quad -----

  /** The result operand of the last quad that is not a label. */
  function LastRes(c: Code): Option<Operand>
  {
    if c == [] then None
    else if c[|c| - 1].Quad? then Some(c[|c| - 1].res)
    else LastRes(c[..|c| - 1])
  }

  lemma LastResAppend(c: Code, q: Quad)
    ensures LastRes(c + [q]) == if q.Quad? then Some(q.res) else LastRes(c)
  {
    assert (c + [q])[..|c|] == c;
  }

  /** However much code there was before, the result found after an expression's code is its own. */
  lemma {:induction false} ExprRes(before: Code, e: Expr, c: nat, l: nat)
    requires Translatable(e)
    ensures LastRes(before + ExprCode(e, c, l).code) == Some(ExprCode(e, c, l).res)
    decreases e, 0
  {
    var E := ExprCode(e, c, l);
    if e.Ref? {
      PlaceRes(before, e.arg, c, l);
    } else {
      EndsWell(before, e, c, l);
    }
  }

  lemma {:induction false} PlaceRes(before: Code, e: Expr, c: nat, l: nat)
    requires Locatable(e) && Translatable(e)
    ensures LastRes(before + PlaceCode(e, c, l).code) == Some(PlaceCode(e, c, l).res)
    decreases e, 1
  {
    if e.Call? {
      ExprRes(before, e, c, l);
    } else {
      var code := PlaceCode(e, c, l).code;
      var n := |code| - 1;
      assert before + code == before + code[..n] + [code[n]];
      LastResAppend(before + code[..n], code[n]);
    }
  }

  /** The last quad that is not a label carries the result. */
  lemma EndsWell(before: Code, e: Expr, c: nat, l: nat)
    requires !e.Ref?
    ensures LastRes(before + ExprCode(e, c, l).code) == Some(ExprCode(e, c, l).res)
  {
    hide ExprCode;
    var E := ExprCode(e, c, l);
    var code, n := E.code, |E.code| - 1;
    LastShape(e, c, l);
    assert before + code == before + code[..n] + [code[n]];
    LastResAppend(before + code[..n], code[n]);
    if code[n].Label? {
      assert before + code[..n] == before + code[..n - 1] + [code[n - 1]];
      LastResAppend(before + code[..n - 1], code[n - 1]);
    }
  }

  lemma LastShape(e: Expr, c: nat, l: nat)
    requires !e.Ref?
    ensures var E := ExprCode(e, c, l);
            var n := |E.code| - 1;
            && n >= 0
            && (E.code[n].Quad? ==> E.code[n].res == E.res)
            && (E.code[n].Label? ==> n >= 1 && E.code[n - 1].Quad? && E.code[n - 1].res == E.res)
  {
  }

  lemma JoinTernary(base: Code, X: Emitted, N: Emitted, Y: Emitted, l: nat)
    ensures var E, r := TernaryCode(X, N, Y, l), ATemp(X.cgt + 1);
            && base + X.code + [JumpTrue(l + 1, X.res)]
               + (N.code + [Q1(Copy, r, N.res)] + [Goto(l + 2)] + [Label(l + 1)] + (Y.code + [Q1(Copy, r, Y.res)]))
               + [Label(l + 2)] == base + E.code
            && E.cgt == Y.cgt && E.lab == Y.lab
  {
  }

  /** The code of a branch is its own condition and body and then the rest of the chain. */
  lemma BranchParts(b: Branch, c: nat, l: nat, done: nat, out: nat, iter: nat)
    requires done <= l
    ensures var next := NextLabel(b, l, done);
            var B := HeadCode(b, c, l, done, out, iter);
            var R := RestCode(b.others, B.cgt, B.lab, done, next, out, iter);
            var E := BranchCode(b, c, l, done, out, iter);
            E.code == B.code + R.code && E.cgt == R.cgt && E.lab == R.lab
  {
    hide TestCode, ExprCode, StmtCode;
    var next := NextLabel(b, l, done);
    var X := TestCode(Some(b.cond), c, if b.others.NoElse? then l else l + 1, next);
    var B := StmtCode(b.body, X.cgt, X.lab, out, iter);
    var E := if b.others.Elif? then BranchCode(b.others.branch, B.cgt, B.lab, done, out, iter)
             else if b.others.ElseBody? then StmtCode(b.others.body, B.cgt, B.lab, out, iter) else X;
    JoinElse(X.code, B.code, Goto(done), Label(next), E.code);
  }

  /** Where a branch goes when its condition fails; a new label unless nothing follows it. */
  function NextLabel(b: Branch, l: nat, done: nat): nat
  {
    if b.others.NoElse? then done else l + 1
  }

  /** The condition and body of one branch of a chain. */
  function HeadCode(b: Branch, c: nat, l: nat, done: nat, out: nat, iter: nat): Emitted
  {
    ArmCode(b, c, if b.others.NoElse? then l else l + 1, done, NextLabel(b, l, done), out, iter)
  }

  function ArmCode(b: Branch, c: nat, l: nat, done: nat, next: nat, out: nat, iter: nat): (E: Emitted)
    ensures l <= E.lab
  {
    var X := TestCode(Some(b.cond), c, l, next);
    var B := StmtCode(b.body, X.cgt, X.lab, out, iter);
    B.(code := Both(X, B) + if done == next then [] else [Goto(done)])
  }

  /** What is left to emit after a branch whose condition leaves for `next`. */
  function RestCode(others: Else, c: nat, l: nat, done: nat, next: nat, out: nat, iter: nat): Emitted
  {
    match others
    case NoElse => Emitted([], ANone, c, l)
    case Elif(b) =>
      var E := BranchCode(b, c, l, done, out, iter);
      E.(code := [Label(next)] + E.code)
    case ElseBody(body) =>
      var E := StmtCode(body, c, l, out, iter);
      E.(code := [Label(next)] + E.code)
  }

  lemma JoinFor(base: Code, I: Emitted, X: Emitted, B: Emitted, S: Emitted, l: nat)
    ensures var E := ForCode(I, X, B, S, l);
            && base + (I.code + [Label(l + 1)] + X.code) + (B.code + [Label(l + 2)] + S.code) + [Goto(l + 1)] +
                [Label(l + 3)]
               == base + E.code
            && E.cgt == S.cgt && E.lab == S.lab
  {
  }

  lemma JoinElse(x: Code, b: Code, g: Quad, h: Quad, e: Code)
    ensures x + b + [g] + ([h] + e) == x + b + [g, h] + e
    ensures x + b + [] + [] == x + b
  {
  }

  // ----- the translator -----

  class Emitter {
    var quads: Code
    var cgtCnt: nat
    var labelCnt: nat
    var loopOut: nat
    var loopIter: nat

    constructor ()
      ensures quads == [] && cgtCnt == 0 && labelCnt == 0 && loopOut == 0 && loopIter == 0
    {
      quads, cgtCnt, labelCnt, loopOut, loopIter := [], 0, 0, 0, 0;
    }

    method MkCgt() returns (a: Operand)
      modifies this`cgtCnt
      ensures cgtCnt == old(cgtCnt) + 1 && a == ATemp(cgtCnt)
    {
      cgtCnt := cgtCnt + 1;
      a := ATemp(cgtCnt);
    }

    method MkLabel() returns (l: nat)
      modifies this`labelCnt
      ensures labelCnt == old(labelCnt) + 1 && l == labelCnt
    {
      labelCnt := labelCnt + 1;
      l := labelCnt;
    }

    method Add(q: Quad)
      modifies this`quads
      ensures quads == old(quads) + [q]
    {
      quads := quads + [q];
    }

    /** Scans back for the last quad that is not a label. */
    method QuadsRes() returns (r: Operand)
      requires LastRes(quads).Some?
      ensures Some(r) == LastRes(quads)
    {
      var offset := 1;
      assert quads[..|quads|] == quads;
      while offset <= |quads| && quads[|quads| - offset].Label?
        invariant 1 <= offset <= |quads| + 1
        invariant LastRes(quads) == LastRes(quads[..|quads| + 1 - offset])
      {
        assert quads[..|quads| + 1 - offset][..|quads| - offset] == quads[..|quads| - offset];
        offset := offset + 1;
      }
      r := quads[|quads| - offset].res;
    }

    /** The translator appended E's code and left the counters where E does. */
    twostate predicate Appended(E: Emitted)
      reads this
    {
      && quads == old(quads) + E.code
      && cgtCnt == E.cgt && labelCnt == E.lab
      && loopOut == old(loopOut) && loopIter == old(loopIter)
    }

    method ExprTo3a(e: Expr)
      requires Translatable(e)
      modifies this
      ensures Appended(ExprCode(e, old(cgtCnt), old(labelCnt)))
      ensures LastRes(quads) == Some(ExprCode(e, old(cgtCnt), old(labelCnt)).res)
      decreases e, 2
    {
      ExprRes(quads, e, cgtCnt, labelCnt);
      match e {
        case Const(n) =>
          var t := MkCgt();
          Add(CopyConst(t, ToWord(n)));
        case Ident(x, isFn) =>
          var t := MkCgt();
          Add(Q1(Copy, t, AName(x, isFn)));
        case Not(_) => NotTo3a(e);
        case Unary(_, _) => UnaryTo3a(e);
        case Cast(_, _) => UnaryTo3a(e);
        case Ref(a) => LvalTo3a(a);
        case Deref(_) => DerefTo3a(e);
        case Arith(_, _, _) => InfixTo3a(e);
        case Relate(_, _, _) => RelTo3a(e);
        case Or(_, _) => LogicTo3a(e);
        case And(_, _) => LogicTo3a(e);
        case Assign(_, _) => AssignTo3a(e);
        case Comma(_, _) => InfixTo3a(e);
        case Ternary(_, _, _) => TernaryTo3a(e);
        case Call(_, _, _) => CallTo3a(e);
      }
    }

    method LvalTo3a(e: Expr)
      requires Locatable(e) && Translatable(e)
      modifies this
      ensures Appended(PlaceCode(e, old(cgtCnt), old(labelCnt)))
      ensures LastRes(quads) == Some(PlaceCode(e, old(cgtCnt), old(labelCnt)).res)
      decreases e, 3
    {
      PlaceRes(quads, e, cgtCnt, labelCnt);
      match e {
        case Ident(x, isFn) =>
          var t := MkCgt();
          Add(Q1(OpRef, t, AName(x, isFn)));
        case Deref(a) =>
          ExprTo3a(a);
          var addr := QuadsRes();
          var t := MkCgt();
          Add(Q1(Copy, t, addr));
        case Call(_, _, _) => ExprTo3a(e);
      }
    }

    /** The tail shared by `!`, the relations, `||` and `&&`: v when it falls through, 1 - v at the label. */
    method SettleTo3a(res: Operand, v: Word, bTrue: nat, bNext: nat)
      requires v <= 1
      modifies this`quads
      ensures quads == old(quads) + Settle(res, v, bTrue, bNext)
    {
      Add(CopyConst(res, v));
      Add(Goto(bNext));
      Add(Label(bTrue));
      Add(CopyConst(res, 1 - v));
      Add(Label(bNext));
    }

    method NotTo3a(e: Expr)
      requires e.Not? && Translatable(e)
      modifies this
      ensures Appended(ExprCode(e, old(cgtCnt), old(labelCnt)))
      decreases e, 0
    {
      hide ExprCode, PlaceCode, ArgsCode, LastRes;
      CodeParts(e, cgtCnt, labelCnt);
      var bTrue := MkLabel();
      var bNext := MkLabel();
      ExprTo3a(e.arg);
      var res := MkCgt();
      var cond := QuadsRes();
      Add(JumpZero(bTrue, cond));
      SettleTo3a(res, 0, bTrue, bNext);
    }

    method UnaryTo3a(e: Expr)
      requires (e.Unary? || e.Cast?) && Translatable(e)
      modifies this
      ensures Appended(ExprCode(e, old(cgtCnt), old(labelCnt)))
      decreases e, 0
    {
      hide ExprCode, PlaceCode, ArgsCode, LastRes;
      CodeParts(e, cgtCnt, labelCnt);
      ExprTo3a(e.arg);
      var arg := QuadsRes();
      if e.Unary? {
        Add(Q1(Un(UnOf(e.op)), arg, arg));
      } else {
        var res := MkCgt();
        Add(Q1(OpCast(e.to), res, arg));
      }
    }

    method DerefTo3a(e: Expr)
      requires e.Deref? && Translatable(e)
      modifies this
      ensures Appended(ExprCode(e, old(cgtCnt), old(labelCnt)))
      decreases e, 0
    {
      hide ExprCode, PlaceCode, ArgsCode, LastRes;
      CodeParts(e, cgtCnt, labelCnt);
      ExprTo3a(e.arg);
      var addr := QuadsRes();
      var copy := MkCgt();
      Add(Q1(Copy, copy, addr));
      var res := MkCgt();
      Add(Q1(OpDeref, res, copy));
    }

    /** Arithmetic overwrites its first operand; a comma copies its second. */
    method InfixTo3a(e: Expr)
      requires (e.Arith? || e.Comma?) && Translatable(e)
      modifies this
      ensures Appended(ExprCode(e, old(cgtCnt), old(labelCnt)))
      decreases e, 0
    {
      hide ExprCode, PlaceCode, ArgsCode, LastRes;
      CodeParts(e, cgtCnt, labelCnt);
      ExprTo3a(e.left);
      var arg1 := QuadsRes();
      ExprTo3a(e.right);
      var arg2 := QuadsRes();
      if e.Arith? {
        Add(Quad(Alu(AluOf(e.kind)), arg1, arg1, arg2));
      } else {
        var res := MkCgt();
        Add(Q1(Copy, res, arg2));
      }
    }

    method RelTo3a(e: Expr)
      requires e.Relate? && Translatable(e)
      modifies this
      ensures Appended(ExprCode(e, old(cgtCnt), old(labelCnt)))
      decreases e, 0
    {
      hide ExprCode, PlaceCode, ArgsCode, LastRes;
      CodeParts(e, cgtCnt, labelCnt);
      var bTrue := MkLabel();
      var bNext := MkLabel();
      ExprTo3a(e.left);
      var laddr := QuadsRes();
      ExprTo3a(e.right);
      var raddr := QuadsRes();
      Add(Quad(CJump(JumpOf(e.rel)), ALabel(bTrue), laddr, raddr));
      var res := MkCgt();
      SettleTo3a(res, 0, bTrue, bNext);
    }

    /** An operand of `||` or `&&` and the jump by which it decides. */
    method OperandTo3a(e: Expr, isOr: bool, bTrue: nat)
      requires Translatable(e)
      modifies this
      ensures var A := ExprCode(e, old(cgtCnt), old(labelCnt));
              Appended(A.(code := A.code + [LogicJump(isOr, bTrue, A.res)]))
      decreases e, 3
    {
      ExprTo3a(e);
      var addr := QuadsRes();
      Add(LogicJump(isOr, bTrue, addr));
    }

    method LogicTo3a(e: Expr)
      requires (e.Or? || e.And?) && Translatable(e)
      modifies this
      ensures Appended(ExprCode(e, old(cgtCnt), old(labelCnt)))
      decreases e, 0
    {
      hide ExprCode, PlaceCode, ArgsCode, LastRes, Settle;
      CodeParts(e, cgtCnt, labelCnt);
      var bTrue := MkLabel();
      var bNext := MkLabel();
      OperandTo3a(e.left, e.Or?, bTrue);
      OperandTo3a(e.right, e.Or?, bTrue);
      var res := MkCgt();
      SettleTo3a(res, if e.Or? then 0 else 1, bTrue, bNext);
    }

    method AssignTo3a(e: Expr)
      requires e.Assign? && Translatable(e)
      modifies this
      ensures Appended(ExprCode(e, old(cgtCnt), old(labelCnt)))
      decreases e, 0
    {
      hide ExprCode, PlaceCode, ArgsCode, LastRes;
      CodeParts(e, cgtCnt, labelCnt);
      LvalTo3a(e.left);
      var addr := QuadsRes();
      ExprTo3a(e.right);
      var copy := QuadsRes();
      Add(Q1(DerefCopy, addr, copy));
      var res := MkCgt();
      Add(Q1(Copy, res, copy));
    }

    /** An alternative of a ternary, copied to the common result. */
    method AlternativeTo3a(e: Expr, res: Operand)
      requires Translatable(e)
      modifies this
      ensures var A := ExprCode(e, old(cgtCnt), old(labelCnt));
              Appended(A.(code := A.code + [Q1(Copy, res, A.res)]))
      decreases e, 3
    {
      ExprTo3a(e);
      var value := QuadsRes();
      Add(Q1(Copy, res, value));
    }

    /** Both alternatives; the second comes first and jumps over the other. */
    method AlternativesTo3a(e: Expr, res: Operand, bTrue: nat, bNext: nat)
      requires e.Ternary? && Translatable(e)
      modifies this
      ensures var N := ExprCode(e.no, old(cgtCnt), old(labelCnt));
              var Y := ExprCode(e.yes, N.cgt, N.lab);
              Appended(Y.(code := N.code + [Q1(Copy, res, N.res)] + [Goto(bNext)] + [Label(bTrue)]
                                  + (Y.code + [Q1(Copy, res, Y.res)])))
      decreases e, 0
    {
      hide ExprCode, LastRes;
      AlternativeTo3a(e.no, res);
      Add(Goto(bNext));
      Add(Label(bTrue));
      AlternativeTo3a(e.yes, res);
    }

    method TernaryTo3a(e: Expr)
      requires e.Ternary? && Translatable(e)
      modifies this
      ensures Appended(ExprCode(e, old(cgtCnt), old(labelCnt)))
      decreases e, 1
    {
      hide ExprCode, PlaceCode, ArgsCode, LastRes, TernaryCode;
      CodeParts(e, cgtCnt, labelCnt);
      var bTrue := MkLabel();
      var bNext := MkLabel();
      ExprTo3a(e.cond);
      var cond := QuadsRes();
      Add(JumpTrue(bTrue, cond));
      var res := MkCgt();
      AlternativesTo3a(e, res, bTrue, bNext);
      Add(Label(bNext));
      ghost var X := ExprCode(e.cond, old(cgtCnt), old(labelCnt) + 2);
      ghost var N := ExprCode(e.no, X.cgt + 1, X.lab);
      JoinTernary(old(quads), X, N, ExprCode(e.yes, N.cgt, N.lab), old(labelCnt));
    }

    /** The call's hint is emitted first and given its result operand at the end. */
    method CallTo3a(e: Expr)
      requires e.Call? && Translatable(e)
      modifies this
      ensures Appended(ExprCode(e, old(cgtCnt), old(labelCnt)))
      decreases e, 0
    {
      hide ExprCode, PlaceCode, ArgsCode, LastRes;
      CodeParts(e, cgtCnt, labelCnt);
      var idx := |quads|;
      Add(Q1(HintCall, ANone, ANone));
      ArgsTo3a(e.args);
      ExprTo3a(e.callee);
      var callee := QuadsRes();
      if e.isVoid {
        Add(Quad(PCall, ANone, callee, AConst(Count(e.args))));
      } else {
        var res := MkCgt();
        quads := quads[idx := quads[idx].(res := res)];
        Add(Quad(FCall, res, callee, AConst(Count(e.args))));
      }
    }

    method ArgsTo3a(args: ExprList)
      requires AllTranslatable(args)
      modifies this
      ensures Appended(ArgsCode(args, old(cgtCnt), old(labelCnt)))
      decreases args, 0
    {
      hide ExprCode, LastRes;
      var rest := args;
      ghost var E := ArgsCode(args, cgtCnt, labelCnt);
      while rest.ECons?
        invariant AllTranslatable(rest) && (rest == args || rest < args)
        invariant var T := ArgsCode(rest, cgtCnt, labelCnt);
                  quads + T.code == old(quads) + E.code && T.cgt == E.cgt && T.lab == E.lab
        invariant loopOut == old(loopOut) && loopIter == old(loopIter)
        decreases rest
      {
        ExprTo3a(rest.head);
        var arg := QuadsRes();
        Add(Q1(Arg, ANone, arg));
        rest := rest.tail;
      }
    }

    // ----- statements -----

    /** Sets the labels of a loop and returns the ones to restore afterwards. */
    method SetLoopBranches(out: nat, iter: nat) returns (savedOut: nat, savedIter: nat)
      requires out != 0 && iter != 0
      modifies this`loopOut, this`loopIter
      ensures loopOut == out && loopIter == iter
      ensures savedOut == old(loopOut) && savedIter == old(loopIter)
    {
      savedOut, savedIter := loopOut, loopIter;
      loopOut, loopIter := out, iter;
    }

    method RestoreLoopBranches(out: nat, iter: nat)
      modifies this`loopOut, this`loopIter
      ensures loopOut == out && loopIter == iter
    {
      loopOut, loopIter := out, iter;
    }

    method StmtTo3a(st: Stmt)
      requires StmtTranslatable(st) && WellFormed(st, loopOut != 0 && loopIter != 0)
      modifies this
      ensures Appended(StmtCode(st, old(cgtCnt), old(labelCnt), old(loopOut), old(loopIter)))
      decreases st, 2
    {
      match st {
        case Empty =>
        case Eval(e) => ExprTo3a(e);
        case Let(_, _) => LetTo3a(st);
        case Seq(_, _) => CompoundTo3a(st);
        case If(_) => IfTo3a(st);
        case While(_, _) => WhileTo3a(st);
        case Do(_, _) => DoTo3a(st);
        case For(_, _, _, _) => ForTo3a(st);
        case Break => Add(Goto(loopOut));
        case Continue => Add(Goto(loopIter));
        case Return(_) => ReturnTo3a(st);
      }
    }

    method LetTo3a(st: Stmt)
      requires st.Let? && StmtTranslatable(st)
      modifies this
      ensures Appended(StmtCode(st, old(cgtCnt), old(labelCnt), old(loopOut), old(loopIter)))
    {
      hide ExprCode, LastRes;
      Add(Q1(HintLocal, AName(st.name, false), ANone));
      if st.initial.Some? {
        ExprTo3a(st.initial.value);
        var resv := QuadsRes();
        Add(Q1(Copy, AName(st.name, false), resv));
      }
    }

    method ReturnTo3a(st: Stmt)
      requires st.Return? && StmtTranslatable(st)
      modifies this
      ensures Appended(StmtCode(st, old(cgtCnt), old(labelCnt), old(loopOut), old(loopIter)))
    {
      hide ExprCode, LastRes;
      if st.value.None? {
        Add(Q1(RetP, ANone, ANone));
      } else {
        ExprTo3a(st.value.value);
        var arg := QuadsRes();
        Add(Q1(RetF, ANone, arg));
      }
    }

    /** The statements of a compound, one after the other. */
    method CompoundTo3a(st: Stmt)
      requires st.Seq? && StmtTranslatable(st) && WellFormed(st, loopOut != 0 && loopIter != 0)
      modifies this
      ensures Appended(StmtCode(st, old(cgtCnt), old(labelCnt), old(loopOut), old(loopIter)))
      decreases st, 1
    {
      hide StmtCode;
      var rest := st;
      ghost var E := StmtCode(st, cgtCnt, labelCnt, loopOut, loopIter);
      while rest.Seq?
        invariant rest == st || rest < st
        invariant StmtTranslatable(rest) && WellFormed(rest, loopOut != 0 && loopIter != 0)
        invariant loopOut == old(loopOut) && loopIter == old(loopIter)
        invariant var T := StmtCode(rest, cgtCnt, labelCnt, loopOut, loopIter);
                  quads + T.code == old(quads) + E.code && T.cgt == E.cgt && T.lab == E.lab
        decreases rest
      {
        StmtParts(rest, cgtCnt, labelCnt, loopOut, loopIter);
        ghost var A := StmtCode(rest.first, cgtCnt, labelCnt, loopOut, loopIter);
        JoinThree(quads, A.code, StmtCode(rest.rest, A.cgt, A.lab, loopOut, loopIter).code);
        StmtTo3a(rest.first);
        rest := rest.rest;
      }
      StmtTo3a(rest);
    }

    /** A condition that leaves for a label when it fails. */
    method TestTo3a(test: Option<Expr>, out: nat)
      requires test.Some? ==> Translatable(test.value)
      modifies this
      ensures Appended(TestCode(test, old(cgtCnt), old(labelCnt), out))
    {
      hide ExprCode, LastRes;
      if test.Some? {
        ExprTo3a(test.value);
        var cond := QuadsRes();
        Add(Q1(CJumpF, ALabel(out), cond));
      }
    }

    method WhileTo3a(st: Stmt)
      requires st.While? && StmtTranslatable(st) && WellFormed(st, true)
      modifies this
      ensures Appended(StmtCode(st, old(cgtCnt), old(labelCnt), old(loopOut), old(loopIter)))
      decreases st, 1
    {
      hide StmtCode, TestCode, ExprCode;
      StmtParts(st, cgtCnt, labelCnt, loopOut, loopIter);
      var bIter := MkLabel();
      var bNext := MkLabel();
      var savedOut, savedIter := SetLoopBranches(bNext, bIter);
      Add(Label(bIter));
      TestTo3a(Some(st.cond), bNext);
      StmtTo3a(st.body);
      RestoreLoopBranches(savedOut, savedIter);
      Add(Goto(bIter));
      Add(Label(bNext));
    }

    method DoTo3a(st: Stmt)
      requires st.Do? && StmtTranslatable(st) && WellFormed(st, true)
      modifies this
      ensures Appended(StmtCode(st, old(cgtCnt), old(labelCnt), old(loopOut), old(loopIter)))
      decreases st, 1
    {
      hide StmtCode, TestCode, ExprCode;
      StmtParts(st, cgtCnt, labelCnt, loopOut, loopIter);
      var bIter := MkLabel();
      var bNext := MkLabel();
      var savedOut, savedIter := SetLoopBranches(bNext, bIter);
      Add(Label(bIter));
      StmtTo3a(st.body);
      TestTo3a(Some(st.cond), bNext);
      RestoreLoopBranches(savedOut, savedIter);
      Add(Goto(bIter));
      Add(Label(bNext));
    }

    /** The first part of a `for` loop and the test at the top of its rounds. */
    method HeaderTo3a(init: Stmt, test: Option<Expr>, bIter: nat, bNext: nat)
      requires StmtTranslatable(init) && Simple(init) && (test.Some? ==> Translatable(test.value))
      modifies this
      ensures var I := StmtCode(init, old(cgtCnt), old(labelCnt), old(loopOut), old(loopIter));
              var X := TestCode(test, I.cgt, I.lab, bNext);
              Appended(X.(code := I.code + [Label(bIter)] + X.code))
      decreases init, 3
    {
      hide StmtCode, TestCode, ExprCode;
      StmtTo3a(init);
      Add(Label(bIter));
      TestTo3a(test, bNext);
    }

    /** The body and the step of a `for` loop. */
    method RoundTo3a(st: Stmt, bStep: nat)
      requires st.For? && StmtTranslatable(st) && WellFormed(st, true) && loopOut != 0 && loopIter != 0
      modifies this
      ensures var B := StmtCode(st.body, old(cgtCnt), old(labelCnt), old(loopOut), old(loopIter));
              var S := StmtCode(st.step, B.cgt, B.lab, old(loopOut), old(loopIter));
              Appended(S.(code := B.code + [Label(bStep)] + S.code))
      decreases st, 0
    {
      hide StmtCode;
      StmtTo3a(st.body);
      Add(Label(bStep));
      StmtTo3a(st.step);
    }

    method ForTo3a(st: Stmt)
      requires st.For? && StmtTranslatable(st) && WellFormed(st, true)
      modifies this
      ensures Appended(StmtCode(st, old(cgtCnt), old(labelCnt), old(loopOut), old(loopIter)))
      decreases st, 1
    {
      hide StmtCode, TestCode, ExprCode, ForCode;
      StmtParts(st, cgtCnt, labelCnt, loopOut, loopIter);
      ghost var (I, X, B, S) := ForParts(st, cgtCnt, labelCnt);
      var bIter := MkLabel();
      var bStep := MkLabel();
      var bNext := MkLabel();
      var savedOut, savedIter := SetLoopBranches(bNext, bStep);
      HeaderTo3a(st.init, st.test, bIter, bNext);
      RoundTo3a(st, bStep);
      RestoreLoopBranches(savedOut, savedIter);
      Add(Goto(bIter));
      Add(Label(bNext));
      JoinFor(old(quads), I, X, B, S, old(labelCnt));
    }

    /** The condition and the body of one branch of a chain, which goes on at `bNext` if it fails. */
    method BranchTo3a(b: Branch, bTrue: nat, bNext: nat)
      requires Translatable(b.cond) && StmtTranslatable(b.body) && WellFormed(b.body, loopOut != 0 && loopIter != 0)
      modifies this
      ensures Appended(ArmCode(b, old(cgtCnt), old(labelCnt), bTrue, bNext, old(loopOut), old(loopIter)))
      decreases b, 0
    {
      hide TestCode, StmtCode, ExprCode;
      TestTo3a(Some(b.cond), bNext);
      StmtTo3a(b.body);
      if bTrue != bNext {
        Add(Goto(bTrue));
      }
    }

    /** A new label for what follows a branch, or the end of the whole `if`. */
    method NextTo3a(b: Branch, bTrue: nat) returns (bNext: nat)
      modifies this`labelCnt
      ensures bNext == NextLabel(b, old(labelCnt), bTrue)
      ensures labelCnt == if b.others.NoElse? then old(labelCnt) else old(labelCnt) + 1
    {
      bNext := bTrue;
      if !b.others.NoElse? {
        bNext := MkLabel();
      }
    }

    /** One branch; what is left of the chain goes on at the label returned. */
    method HeadTo3a(b: Branch, bTrue: nat) returns (bNext: nat)
      requires BranchTranslatable(b) && WellFormedBranch(b, loopOut != 0 && loopIter != 0) && bTrue <= labelCnt
      modifies this
      ensures var E := BranchCode(b, old(cgtCnt), old(labelCnt), bTrue, loopOut, loopIter);
              var R := RestCode(b.others, cgtCnt, labelCnt, bTrue, bNext, loopOut, loopIter);
              quads + R.code == old(quads) + E.code && R.cgt == E.cgt && R.lab == E.lab
      ensures loopOut == old(loopOut) && loopIter == old(loopIter) && bTrue <= labelCnt
      decreases b, 1
    {
      hide StmtCode, TestCode, ExprCode, BranchCode, ArmCode, RestCode;
      BranchParts(b, cgtCnt, labelCnt, bTrue, loopOut, loopIter);
      bNext := NextTo3a(b, bTrue);
      BranchTo3a(b, bTrue, bNext);
      JoinThree(old(quads), HeadCode(b, old(cgtCnt), old(labelCnt), bTrue, loopOut, loopIter).code,
                RestCode(b.others, cgtCnt, labelCnt, bTrue, bNext, loopOut, loopIter).code);
    }

    method IfTo3a(st: Stmt)
      requires st.If? && StmtTranslatable(st) && WellFormed(st, loopOut != 0 && loopIter != 0)
      modifies this
      ensures Appended(StmtCode(st, old(cgtCnt), old(labelCnt), old(loopOut), old(loopIter)))
      decreases st, 1
    {
      hide StmtCode, TestCode, ExprCode, BranchCode;
      StmtParts(st, cgtCnt, labelCnt, loopOut, loopIter);
      var bTrue := MkLabel();
      ghost var E := BranchCode(st.branch, cgtCnt, labelCnt, bTrue, loopOut, loopIter);
      var b := st.branch;
      var bNext := HeadTo3a(b, bTrue);
      while b.others.Elif?
        invariant b == st.branch || b < st.branch
        invariant BranchTranslatable(b) && WellFormedBranch(b, loopOut != 0 && loopIter != 0)
        invariant loopOut == old(loopOut) && loopIter == old(loopIter) && bTrue <= labelCnt
        invariant var T := RestCode(b.others, cgtCnt, labelCnt, bTrue, bNext, loopOut, loopIter);
                  quads + T.code == old(quads) + E.code && T.cgt == E.cgt && T.lab == E.lab
        decreases b
      {
        b := b.others.branch;
        JoinThree(quads, [Label(bNext)], BranchCode(b, cgtCnt, labelCnt, bTrue, loopOut, loopIter).code);
        Add(Label(bNext));
        bNext := HeadTo3a(b, bTrue);
      }
      if b.others.ElseBody? {
        JoinThree(quads, [Label(bNext)], StmtCode(b.others.body, cgtCnt, labelCnt, loopOut, loopIter).code);
        Add(Label(bNext));
        StmtTo3a(b.others.body);
      }
      assert quads == old(quads) + E.code;
      Add(Label(bTrue));
    }
  }

  predicate StmtTranslatable(st: Stmt)
  {
    match st
    case Eval(e) => Translatable(e)
    case Let(_, init) => init.Some? ==> Translatable(init.value)
    case Seq(a, b) => StmtTranslatable(a) && StmtTranslatable(b)
    case If(b) => BranchTranslatable(b)
    case While(x, body) => Translatable(x) && StmtTranslatable(body)
    case Do(body, x) => Translatable(x) && StmtTranslatable(body)
    case For(init, test, step, body) =>
      && (test.Some? ==> Translatable(test.value))
      && StmtTranslatable(init) && StmtTranslatable(step) && StmtTranslatable(body)
    case Return(v) => v.Some? ==> Translatable(v.value)
    case _ => true
  }

  predicate BranchTranslatable(b: Branch)
  {
    && Translatable(b.cond) && StmtTranslatable(b.body)
    && match b.others
       case NoElse => true
       case Elif(next) => BranchTranslatable(next)
       case ElseBody(body) => StmtTranslatable(body)
  }
}
