/** Running the code of a statement does what the statement means. */
module StmtSim {
  import opened Ast
  import opened Quads
  import opened Emit
  import opened ExprSim

  /** The machine returns from the procedure with v, leaving store s. */
  ghost predicate Ends(x: Ctx, i: nat, m: Mem, v: Val, s: Store)
  {
    exists n: nat :: Run(x.env, x.p, StateAt(x, i, m), n) == Halt(v, s)
  }

  lemma HaltNow(x: Ctx, i: nat, m: Mem, v: Val, s: Store)
    requires Step(x.env, x.p, StateAt(x, i, m)) == Halt(v, s)
    ensures Ends(x, i, m, v, s)
  {
    assert Run(x.env, x.p, StateAt(x, i, m), 1) == Halt(v, s);
  }

  lemma ThenEnds(x: Ctx, i: nat, m: Mem, j: nat, m1: Mem, v: Val, s: Store)
    requires Goes(x, i, m, j, m1) && Ends(x, j, m1, v, s)
    ensures Ends(x, i, m, v, s)
  {
    var a: nat :| Run(x.env, x.p, StateAt(x, i, m), a) == At(StateAt(x, j, m1));
    var b: nat :| Run(x.env, x.p, StateAt(x, j, m1), b) == Halt(v, s);
    RunAdd(x.env, x.p, StateAt(x, i, m), a, b);
  }

  /** Where a statement that ends with outcome o takes the machine: past its code, to one of the
      loop's labels, or out of the procedure. */
  ghost predicate Arrives(x: Ctx, i: nat, m: Mem, next: nat, out: nat, iter: nat, o: Outcome, m': Mem)
  {
    match o
    case Normal => Goes(x, i, m, next, m')
    case Broke => FindLabel(x.p, out, 0).Some? && Goes(x, i, m, FindLabel(x.p, out, 0).value, m')
    case Continued => FindLabel(x.p, iter, 0).Some? && Goes(x, i, m, FindLabel(x.p, iter, 0).value, m')
    case Returned(v) => Ends(x, i, m, v, m'.store)
  }

  lemma ThenArrives(x: Ctx, i: nat, m: Mem, j: nat, m1: Mem, next: nat, out: nat, iter: nat, o: Outcome, m': Mem)
    requires Goes(x, i, m, j, m1) && Arrives(x, j, m1, next, out, iter, o, m')
    ensures Arrives(x, i, m, next, out, iter, o, m')
  {
    hide Goes, Ends, FindLabel;
    match o
    case Normal => Then(x, i, m, j, m1, next, m');
    case Broke => Then(x, i, m, j, m1, FindLabel(x.p, out, 0).value, m');
    case Continued => Then(x, i, m, j, m1, FindLabel(x.p, iter, 0).value, m');
    case Returned(v) => ThenEnds(x, i, m, j, m1, v, m'.store);
  }

  /** The labels a statement may jump out to exist. */
  ghost predicate LoopLabels(p: Code, inLoop: bool, out: nat, iter: nat)
  {
    inLoop ==> FindLabel(p, out, 0).Some? && FindLabel(p, iter, 0).Some?
  }

  // ----- parts of statements -----

  /** A condition falls through when it holds and leaves for its label when it fails. */
  lemma TestRuns(x: Ctx, pos: nat, test: Option<Expr>, c: nat, l: nat, out: nat, k: nat, m: Mem) returns (m': Mem)
    requires UniqueLabels(x.p) && Within(x.p, pos, TestCode(test, c, l, out).code)
    requires Test(x.env, test, m.store).Some? && FindLabel(x.p, out, 0) == Some(k)
    ensures var (t, s) := Test(x.env, test, m.store).value;
            && Goes(x, pos, m, if t then pos + |TestCode(test, c, l, out).code| else k, m')
            && m'.store == s
  {
    hide Goes, Within, UniqueLabels, FindLabel, Agree, ExprCode, EvalExpr;
    match test
    case None =>
      m' := m;
      Stay(x, pos, m);
    case Some(e) =>
      var X := ExprCode(e, c, l);
      var jump := Q1(CJumpF, ALabel(out), X.res);
      LastQuad(x.p, pos, X.code, jump);
      m' := ExprRuns(x, pos, e, c, l, m);
      var v := EvalExpr(x.env, e, m.store).value.0;
      CondAfter(x, pos, m, pos + |X.code|, m', out, k, v == Num(0));
  }

  lemma LoopLayout(p: Code, pos: nat, P: Emitted, Q: Emitted, l: nat)
    requires UniqueLabels(p) && Within(p, pos, LoopCode(P, Q, l).code)
    ensures var i, j := pos + 1 + |P.code|, pos + 1 + |P.code| + |Q.code|;
            && Within(p, pos + 1, P.code) && Within(p, i, Q.code) && j + 2 <= |p|
            && p[pos] == Label(l + 1) && p[j] == Goto(l + 1) && p[j + 1] == Label(l + 2)
            && FindLabel(p, l + 1, 0) == Some(pos) && FindLabel(p, l + 2, 0) == Some(j + 1)
            && pos + |LoopCode(P, Q, l).code| == j + 2
  {
    hide Within, FindLabel, UniqueLabels;
    var head, tail := [Label(l + 1)], [Goto(l + 1), Label(l + 2)];
    var j := pos + 1 + |P.code| + |Q.code|;
    WithinSplit(p, pos, head + P.code + Q.code, tail);
    WithinSplit(p, pos, head + P.code, Q.code);
    WithinSplit(p, pos, head, P.code);
    WithinAt(p, pos, head, 0);
    WithinAt(p, j, tail, 0);
    WithinAt(p, j, tail, 1);
    LabelAt(p, pos, l + 1);
    LabelAt(p, j + 1, l + 2);
  }

  lemma ForLayout(p: Code, pos: nat, I: Emitted, X: Emitted, B: Emitted, S: Emitted, l: nat)
    requires UniqueLabels(p) && Within(p, pos, ForCode(I, X, B, S, l).code)
    ensures var a := pos + |I.code|;
            var b := a + 1 + |X.code|;
            var d := b + |B.code|;
            var e := d + 1 + |S.code|;
            && Within(p, pos, I.code) && Within(p, a + 1, X.code) && Within(p, b, B.code) && Within(p, d + 1, S.code)
            && e + 2 <= |p| && p[a] == Label(l + 1) && p[d] == Label(l + 2)
            && p[e] == Goto(l + 1) && p[e + 1] == Label(l + 3)
            && FindLabel(p, l + 1, 0) == Some(a) && FindLabel(p, l + 2, 0) == Some(d)
            && FindLabel(p, l + 3, 0) == Some(e + 1)
            && pos + |ForCode(I, X, B, S, l).code| == e + 2
  {
    hide Within, FindLabel, UniqueLabels;
    var h1, h2, tail := [Label(l + 1)], [Label(l + 2)], [Goto(l + 1), Label(l + 3)];
    var a := pos + |I.code|;
    var b := a + 1 + |X.code|;
    var d := b + |B.code|;
    var e := d + 1 + |S.code|;
    WithinSplit(p, pos, I.code + h1 + X.code + B.code + h2 + S.code, tail);
    SixParts(p, pos, I.code, h1, X.code, B.code, h2, S.code);
    WithinAt(p, a, h1, 0);
    WithinAt(p, d, h2, 0);
    WithinAt(p, e, tail, 0);
    WithinAt(p, e, tail, 1);
    LabelAt(p, a, l + 1);
    LabelAt(p, d, l + 2);
    LabelAt(p, e + 1, l + 3);
  }

  lemma ElseLayout(p: Code, pos: nat, X: Emitted, B: Emitted, E: Emitted, done: nat, next: nat)
    requires UniqueLabels(p) && Within(p, pos, ElseCode(X, B, E, done, next).code)
    ensures var j := pos + |X.code| + |B.code|;
            && Within(p, pos, X.code) && Within(p, pos + |X.code|, B.code) && Within(p, j + 2, E.code)
            && j + 2 <= |p| && p[j] == Goto(done) && p[j + 1] == Label(next)
            && FindLabel(p, next, 0) == Some(j + 1)
            && pos + |ElseCode(X, B, E, done, next).code| == j + 2 + |E.code|
  {
    hide Within, FindLabel, UniqueLabels;
    var mid := [Goto(done), Label(next)];
    var j := pos + |X.code| + |B.code|;
    WithinSplit(p, pos, X.code + B.code + mid, E.code);
    WithinSplit(p, pos, X.code + B.code, mid);
    WithinSplit(p, pos, X.code, B.code);
    WithinAt(p, j, mid, 0);
    WithinAt(p, j, mid, 1);
    LabelAt(p, j + 1, next);
  }

  // ----- every statement -----

  lemma {:induction false} StmtRuns(x: Ctx, pos: nat, st: Stmt, c: nat, l: nat, out: nat, iter: nat, inLoop: bool,
                                    m: Mem, fuel: nat) returns (m': Mem)
    requires UniqueLabels(x.p) && Within(x.p, pos, StmtCode(st, c, l, out, iter).code)
    requires WellFormed(st, inLoop) && LoopLabels(x.p, inLoop, out, iter)
    requires Exec(x.env, st, m.store, fuel).Some?
    ensures var (s, o) := Exec(x.env, st, m.store, fuel).value;
            && Arrives(x, pos, m, pos + |StmtCode(st, c, l, out, iter).code|, out, iter, o, m')
            && m'.store == s
    decreases fuel, st, 2
  {
    hide Goes, Within, UniqueLabels, FindLabel, Ends, ExprCode, EvalExpr;
    match st
    case Empty =>
      m' := m;
      Stay(x, pos, m);
    case Eval(e) =>
      m' := ExprRuns(x, pos, e, c, l, m);
    case Let(_, _) =>
      m' := LetRuns(x, pos, st, c, l, m, fuel);
    case Seq(a, b) =>
      m' := SeqRuns(x, pos, st, c, l, out, iter, inLoop, m, fuel);
    case If(_) =>
      m' := IfRuns(x, pos, st, c, l, out, iter, inLoop, m, fuel);
    case While(_, _) =>
      m' := WhileRuns(x, pos, st, c, l, out, iter, m, fuel);
    case Do(_, _) =>
      m' := DoRuns(x, pos, st, c, l, out, iter, m, fuel);
    case For(_, _, _, _) =>
      m' := ForRuns(x, pos, st, c, l, out, iter, m, fuel);
    case Break =>
      m' := m;
      WithinAt(x.p, pos, [Goto(out)], 0);
      Stay(x, pos, m);
      GotoAfter(x, pos, m, pos, m, out, FindLabel(x.p, out, 0).value);
    case Continue =>
      m' := m;
      WithinAt(x.p, pos, [Goto(iter)], 0);
      Stay(x, pos, m);
      GotoAfter(x, pos, m, pos, m, iter, FindLabel(x.p, iter, 0).value);
    case Return(_) =>
      m' := ReturnRuns(x, pos, st, c, l, m, fuel);
  }

  lemma SeqParts(env: Env, st: Stmt, c: nat, l: nat, out: nat, iter: nat, s: Store, fuel: nat)
    requires st.Seq?
    ensures var A := StmtCode(st.first, c, l, out, iter);
            var B := StmtCode(st.rest, A.cgt, A.lab, out, iter);
            StmtCode(st, c, l, out, iter) == B.(code := Both(A, B))
    ensures Exec(env, st, s, fuel).Some? ==>
              var A := Exec(env, st.first, s, fuel);
              && A.Some?
              && Exec(env, st, s, fuel) == if A.value.1.Normal? then Exec(env, st.rest, A.value.0, fuel) else A
  {
  }

  lemma {:induction false} SeqRuns(x: Ctx, pos: nat, st: Stmt, c: nat, l: nat, out: nat, iter: nat, inLoop: bool,
                                   m: Mem, fuel: nat) returns (m': Mem)
    requires st.Seq? && UniqueLabels(x.p) && Within(x.p, pos, StmtCode(st, c, l, out, iter).code)
    requires WellFormed(st, inLoop) && LoopLabels(x.p, inLoop, out, iter)
    requires Exec(x.env, st, m.store, fuel).Some?
    ensures var (s, o) := Exec(x.env, st, m.store, fuel).value;
            && Arrives(x, pos, m, pos + |StmtCode(st, c, l, out, iter).code|, out, iter, o, m')
            && m'.store == s
    decreases fuel, st, 1
  {
    hide Goes, Within, UniqueLabels, FindLabel, Ends, StmtCode, Exec;
    SeqParts(x.env, st, c, l, out, iter, m.store, fuel);
    var A := StmtCode(st.first, c, l, out, iter);
    var B := StmtCode(st.rest, A.cgt, A.lab, out, iter);
    WithinSplit(x.p, pos, A.code, B.code);
    m' := StmtRuns(x, pos, st.first, c, l, out, iter, inLoop, m, fuel);
    if Exec(x.env, st.first, m.store, fuel).value.1.Normal? {
      var m1, i := m', pos + |A.code|;
      m' := StmtRuns(x, i, st.rest, A.cgt, A.lab, out, iter, inLoop, m1, fuel);
      ThenArrives(x, pos, m, i, m1, i + |B.code|, out, iter, Exec(x.env, st, m.store, fuel).value.1, m');
    }
  }

  lemma {:induction false} IfRuns(x: Ctx, pos: nat, st: Stmt, c: nat, l: nat, out: nat, iter: nat, inLoop: bool,
                                  m: Mem, fuel: nat) returns (m': Mem)
    requires st.If? && UniqueLabels(x.p) && Within(x.p, pos, StmtCode(st, c, l, out, iter).code)
    requires WellFormed(st, inLoop) && LoopLabels(x.p, inLoop, out, iter)
    requires Exec(x.env, st, m.store, fuel).Some?
    ensures var (s, o) := Exec(x.env, st, m.store, fuel).value;
            && Arrives(x, pos, m, pos + |StmtCode(st, c, l, out, iter).code|, out, iter, o, m')
            && m'.store == s
    decreases fuel, st, 1
  {
    hide Goes, Within, UniqueLabels, FindLabel, Ends, BranchCode, ExecBranch;
    var B := BranchCode(st.branch, c, l + 1, l + 1, out, iter);
    LastQuad(x.p, pos, B.code, Label(l + 1));
    LabelAt(x.p, pos + |B.code|, l + 1);
    m' := BranchRuns(x, pos, st.branch, c, l + 1, l + 1, out, iter, inLoop, m, fuel);
    if Exec(x.env, st, m.store, fuel).value.1.Normal? {
      LabelAfter(x, pos, m, pos + |B.code|, m');
    }
  }

  lemma LetRuns(x: Ctx, pos: nat, st: Stmt, c: nat, l: nat, m: Mem, fuel: nat) returns (m': Mem)
    requires st.Let? && UniqueLabels(x.p) && Within(x.p, pos, StmtCode(st, c, l, 0, 0).code)
    requires Exec(x.env, st, m.store, fuel).Some?
    ensures Goes(x, pos, m, pos + |StmtCode(st, c, l, 0, 0).code|, m')
    ensures m'.store == Exec(x.env, st, m.store, fuel).value.0
  {
    hide Goes, Within, UniqueLabels, FindLabel, ExprCode, EvalExpr;
    var name := AName(st.name, false);
    var hint := Q1(HintLocal, name, ANone);
    Stay(x, pos, m);
    match st.initial
    case None =>
      WithinAt(x.p, pos, [hint], 0);
      StepAfter(x, pos, m, pos, m, pos + 1, m);
      m' := m;
    case Some(e) => m' := LetValueRuns(x, pos, st.name, e, c, l, m);
  }

  lemma LetValueRuns(x: Ctx, pos: nat, name: string, e: Expr, c: nat, l: nat, m: Mem) returns (m': Mem)
    requires UniqueLabels(x.p) && Within(x.p, pos, LetCode(name, ExprCode(e, c, l)).code)
    requires EvalExpr(x.env, e, m.store).Some?
    ensures Goes(x, pos, m, pos + |LetCode(name, ExprCode(e, c, l)).code|, m')
    ensures var (v, s1) := EvalExpr(x.env, e, m.store).value; m'.store == s1[name := v]
  {
    hide Goes, Within, UniqueLabels, FindLabel, ExprCode, EvalExpr;
    var E := ExprCode(e, c, l);
    var hint, put := Q1(HintLocal, AName(name, false), ANone), Q1(Copy, AName(name, false), E.res);
    assert LetCode(name, E).code == [hint] + (E.code + [put]);
    WithinSplit(x.p, pos, [hint], E.code + [put]);
    WithinAt(x.p, pos, [hint], 0);
    LastQuad(x.p, pos + 1, E.code, put);
    Stay(x, pos, m);
    StepAfter(x, pos, m, pos, m, pos + 1, m);
    var m1 := ExprRuns(x, pos + 1, e, c, l, m);
    Then(x, pos, m, pos + 1, m, pos + 1 + |E.code|, m1);
    m' := m1.(store := m1.store[name := EvalExpr(x.env, e, m.store).value.0]);
    StepAfter(x, pos, m, pos + 1 + |E.code|, m1, pos + 2 + |E.code|, m');
  }

  lemma ReturnRuns(x: Ctx, pos: nat, st: Stmt, c: nat, l: nat, m: Mem, fuel: nat) returns (m': Mem)
    requires st.Return? && UniqueLabels(x.p) && Within(x.p, pos, StmtCode(st, c, l, 0, 0).code)
    requires Exec(x.env, st, m.store, fuel).Some?
    ensures var (s, o) := Exec(x.env, st, m.store, fuel).value;
            o.Returned? && Ends(x, pos, m, o.value, s) && m'.store == s
  {
    hide Goes, Within, UniqueLabels, FindLabel, Ends, ExprCode, EvalExpr;
    match st.value
    case None =>
      WithinAt(x.p, pos, [Q1(RetP, ANone, ANone)], 0);
      HaltNow(x, pos, m, Void, m.store);
      m' := m;
    case Some(e) =>
      var E := ExprCode(e, c, l);
      LastQuad(x.p, pos, E.code, Q1(RetF, ANone, E.res));
      m' := ExprRuns(x, pos, e, c, l, m);
      var v := EvalExpr(x.env, e, m.store).value.0;
      HaltNow(x, pos + |E.code|, m', v, m'.store);
      ThenEnds(x, pos, m, pos + |E.code|, m', v, m'.store);
  }

  lemma {:induction false} BranchRuns(x: Ctx, pos: nat, b: Branch, c: nat, l: nat, done: nat, out: nat, iter: nat,
                                      inLoop: bool, m: Mem, fuel: nat) returns (m': Mem)
    requires UniqueLabels(x.p) && Within(x.p, pos, BranchCode(b, c, l, done, out, iter).code)
    requires WellFormedBranch(b, inLoop) && LoopLabels(x.p, inLoop, out, iter)
    requires FindLabel(x.p, done, 0) == Some(pos + |BranchCode(b, c, l, done, out, iter).code|)
    requires ExecBranch(x.env, b, m.store, fuel).Some?
    ensures var (s, o) := ExecBranch(x.env, b, m.store, fuel).value;
            && Arrives(x, pos, m, FindLabel(x.p, done, 0).value, out, iter, o, m')
            && m'.store == s
    decreases fuel, b, 1
  {
    hide Goes, Within, UniqueLabels, FindLabel, Ends, ExprCode, EvalExpr, Test, TestCode, StmtCode, Exec, WellFormed;
    var end := FindLabel(x.p, done, 0).value;
    var (s, o) := ExecBranch(x.env, b, m.store, fuel).value;
    var (t, _) := Test(x.env, Some(b.cond), m.store).value;
    if b.others.NoElse? {
      var X := TestCode(Some(b.cond), c, l, done);
      WithinSplit(x.p, pos, X.code, StmtCode(b.body, X.cgt, X.lab, out, iter).code);
      var m1 := TestRuns(x, pos, Some(b.cond), c, l, done, end, m);
      if t {
        m' := StmtRuns(x, pos + |X.code|, b.body, X.cgt, X.lab, out, iter, inLoop, m1, fuel);
        ThenArrives(x, pos, m, pos + |X.code|, m1, end, out, iter, o, m');
      } else {
        m' := m1;
      }
    } else {
      var X := TestCode(Some(b.cond), c, l + 1, l + 1);
      var B := StmtCode(b.body, X.cgt, X.lab, out, iter);
      var E := if b.others.Elif? then BranchCode(b.others.branch, B.cgt, B.lab, done, out, iter)
               else StmtCode(b.others.body, B.cgt, B.lab, out, iter);
      ElseLayout(x.p, pos, X, B, E, done, l + 1);
      var j := pos + |X.code| + |B.code|;
      var m1 := TestRuns(x, pos, Some(b.cond), c, l + 1, l + 1, j + 1, m);
      if t {
        m' := StmtRuns(x, pos + |X.code|, b.body, X.cgt, X.lab, out, iter, inLoop, m1, fuel);
        if o.Normal? {
          GotoAfter(x, pos + |X.code|, m1, j, m', done, end);
        }
        ThenArrives(x, pos, m, pos + |X.code|, m1, end, out, iter, o, m');
      } else {
        LabelAfter(x, pos, m, j + 1, m1);
        if b.others.Elif? {
          m' := BranchRuns(x, j + 2, b.others.branch, B.cgt, B.lab, done, out, iter, inLoop, m1, fuel);
        } else {
          m' := StmtRuns(x, j + 2, b.others.body, B.cgt, B.lab, out, iter, inLoop, m1, fuel);
        }
        ThenArrives(x, pos, m, j + 2, m1, end, out, iter, o, m');
      }
    }
  }

  lemma {:induction false} WhileRuns(x: Ctx, pos: nat, st: Stmt, c: nat, l: nat, out: nat, iter: nat,
                                     m: Mem, fuel: nat) returns (m': Mem)
    requires st.While? && UniqueLabels(x.p) && Within(x.p, pos, StmtCode(st, c, l, out, iter).code)
    requires WellFormed(st, true) && Exec(x.env, st, m.store, fuel).Some?
    ensures var (s, o) := Exec(x.env, st, m.store, fuel).value;
            && Arrives(x, pos, m, pos + |StmtCode(st, c, l, out, iter).code|, out, iter, o, m')
            && m'.store == s
    decreases fuel, st, 1
  {
    hide Goes, Within, UniqueLabels, FindLabel, Ends, ExprCode, EvalExpr, Test, TestCode;
    var X := TestCode(Some(st.cond), c, l + 2, l + 2);
    var B := StmtCode(st.body, X.cgt, X.lab, l + 2, l + 1);
    LoopLayout(x.p, pos, X, B, l);
    var i, j := pos + 1 + |X.code|, pos + 1 + |X.code| + |B.code|;
    Stay(x, pos, m);
    LabelAfter(x, pos, m, pos, m);
    var m1 := TestRuns(x, pos + 1, Some(st.cond), c, l + 2, l + 2, j + 1, m);
    var (t, s1) := Test(x.env, Some(st.cond), m.store).value;
    Then(x, pos, m, pos + 1, m, if t then i else j + 1, m1);
    if !t {
      m' := m1;
      LabelAfter(x, pos, m, j + 1, m1);
    } else {
      var m2 := StmtRuns(x, i, st.body, X.cgt, X.lab, l + 2, l + 1, true, m1, fuel);
      var o := Exec(x.env, st.body, s1, fuel).value.1;
      m' := RoundRuns(x, pos, st, c, l, out, iter, i, m1, m2, j, o, fuel);
      ThenArrives(x, pos, m, i, m1, j + 2, out, iter, Exec(x.env, st, m.store, fuel).value.1, m');
    }
  }

  lemma {:induction false} DoRuns(x: Ctx, pos: nat, st: Stmt, c: nat, l: nat, out: nat, iter: nat,
                                  m: Mem, fuel: nat) returns (m': Mem)
    requires st.Do? && UniqueLabels(x.p) && Within(x.p, pos, StmtCode(st, c, l, out, iter).code)
    requires WellFormed(st, true) && Exec(x.env, st, m.store, fuel).Some?
    ensures var (s, o) := Exec(x.env, st, m.store, fuel).value;
            && Arrives(x, pos, m, pos + |StmtCode(st, c, l, out, iter).code|, out, iter, o, m')
            && m'.store == s
    decreases fuel, st, 1
  {
    hide Goes, Within, UniqueLabels, FindLabel, Ends, ExprCode, EvalExpr, Test, TestCode;
    var B := StmtCode(st.body, c, l + 2, l + 2, l + 1);
    var X := TestCode(Some(st.cond), B.cgt, B.lab, l + 2);
    LoopLayout(x.p, pos, B, X, l);
    var i, j := pos + 1 + |B.code|, pos + 1 + |B.code| + |X.code|;
    Stay(x, pos, m);
    LabelAfter(x, pos, m, pos, m);
    var m1 := StmtRuns(x, pos + 1, st.body, c, l + 2, l + 2, l + 1, true, m, fuel);
    var (s1, o) := Exec(x.env, st.body, m.store, fuel).value;
    var end := Exec(x.env, st, m.store, fuel).value.1;
    if o.Normal? {
      Then(x, pos, m, pos + 1, m, i, m1);
      var m2 := TestRuns(x, i, Some(st.cond), B.cgt, B.lab, l + 2, j + 1, m1);
      if Test(x.env, Some(st.cond), s1).value.0 {
        m' := RoundRuns(x, pos, st, c, l, out, iter, i, m1, m2, j, Normal, fuel);
        ThenArrives(x, pos, m, i, m1, j + 2, out, iter, end, m');
      } else {
        m' := m2;
        Then(x, pos, m, i, m1, j + 1, m2);
        LabelAfter(x, pos, m, j + 1, m2);
      }
    } else {
      m' := RoundRuns(x, pos, st, c, l, out, iter, pos + 1, m, m1, j, o, fuel);
      ThenArrives(x, pos, m, pos + 1, m, j + 2, out, iter, end, m');
    }
  }

  /** Going round a `while` or `do` loop again or leaving it, from the point i inside it. */
  lemma {:induction false} RoundRuns(x: Ctx, pos: nat, st: Stmt, c: nat, l: nat, out: nat, iter: nat,
                                     i: nat, m: Mem, m1: Mem, j: nat, o: Outcome, fuel: nat) returns (m': Mem)
    requires (st.While? || st.Do?) && UniqueLabels(x.p) && Within(x.p, pos, StmtCode(st, c, l, out, iter).code)
    requires WellFormed(st, true) && NextRound(x.env, st, m1.store, o, fuel).Some?
    requires pos + |StmtCode(st, c, l, out, iter).code| == j + 2
    requires j + 2 <= |x.p| && x.p[j] == Goto(l + 1) && x.p[j + 1] == Label(l + 2)
    requires FindLabel(x.p, l + 1, 0) == Some(pos) && FindLabel(x.p, l + 2, 0) == Some(j + 1)
    requires Arrives(x, i, m, j, l + 2, l + 1, o, m1)
    ensures var (s, o') := NextRound(x.env, st, m1.store, o, fuel).value;
            && Arrives(x, i, m, j + 2, out, iter, o', m')
            && m'.store == s
    decreases fuel, st, 0
  {
    hide Goes, Within, UniqueLabels, FindLabel, Ends, StmtCode, WellFormed, Exec;
    if o.Broke? {
      m' := m1;
      LabelAfter(x, i, m, j + 1, m1);
    } else if o.Returned? {
      m' := m1;
    } else {
      if o.Normal? {
        GotoAfter(x, i, m, j, m1, l + 1, pos);
      }
      m' := StmtRuns(x, pos, st, c, l, out, iter, false, m1, fuel - 1) by { WellFormedLoop(st); }
      ThenArrives(x, i, m, pos, m1, j + 2, out, iter, Exec(x.env, st, m1.store, fuel - 1).value.1, m');
    }
  }

  lemma WellFormedLoop(st: Stmt)
    requires st.While? || st.Do? || st.For?
    ensures WellFormed(st, false) == WellFormed(st, true)
  {
  }

  lemma {:induction false} ForRuns(x: Ctx, pos: nat, st: Stmt, c: nat, l: nat, out: nat, iter: nat,
                                   m: Mem, fuel: nat) returns (m': Mem)
    requires st.For? && UniqueLabels(x.p) && Within(x.p, pos, StmtCode(st, c, l, out, iter).code)
    requires WellFormed(st, true) && Exec(x.env, st, m.store, fuel).Some?
    ensures var (s, o) := Exec(x.env, st, m.store, fuel).value;
            && Arrives(x, pos, m, pos + |StmtCode(st, c, l, out, iter).code|, out, iter, o, m')
            && m'.store == s
    decreases fuel, st, 1
  {
    hide Goes, Within, UniqueLabels, FindLabel, Ends, ExprCode, EvalExpr, TestCode, ExecFor, ForCode;
    var (I, X, B, S) := ForParts(st, c, l);
    ForLayout(x.p, pos, I, X, B, S, l);
    var a := pos + |I.code|;
    var m1 := StmtRuns(x, pos, st.init, c, l + 3, l + 3, l + 2, true, m, fuel) by { SimpleWellFormed(st.init); }
    SimpleNormal(x.env, st.init, m.store, fuel);
    m' := ForRounds(x, pos, st, c, l, m1, fuel);
    ThenArrives(x, pos, m, a, m1, pos + |StmtCode(st, c, l, out, iter).code|, out, iter,
                Exec(x.env, st, m.store, fuel).value.1, m');
  }

  /** The rounds of a `for` loop, from the label before its condition. */
  lemma {:induction false} ForRounds(x: Ctx, pos: nat, st: Stmt, c: nat, l: nat, m: Mem, fuel: nat) returns (m': Mem)
    requires st.For? && UniqueLabels(x.p)
    requires var (I, X, B, S) := ForParts(st, c, l); Within(x.p, pos, ForCode(I, X, B, S, l).code)
    requires WellFormed(st, true) && ExecFor(x.env, st, m.store, fuel).Some?
    ensures var (s, o) := ExecFor(x.env, st, m.store, fuel).value;
            var (I, X, B, S) := ForParts(st, c, l);
            && Arrives(x, pos + |I.code|, m, pos + |ForCode(I, X, B, S, l).code|, 0, 0, o, m')
            && (o.Normal? || o.Returned?)
            && m'.store == s
    decreases fuel, st, 0
  {
    hide Goes, Within, UniqueLabels, FindLabel, Ends, ExprCode, EvalExpr, StmtCode, TestCode, Test, Exec, ForCode;
    var (I, X, B, S) := ForParts(st, c, l);
    ForLayout(x.p, pos, I, X, B, S, l);
    var a := pos + |I.code|;
    var b := a + 1 + |X.code|;
    var d := b + |B.code|;
    var e := d + 1 + |S.code|;
    Stay(x, a, m);
    LabelAfter(x, a, m, a, m);
    var m1 := TestRuns(x, a + 1, st.test, I.cgt, I.lab, l + 3, e + 1, m);
    var (t, s1) := Test(x.env, st.test, m.store).value;
    Then(x, a, m, a + 1, m, if t then b else e + 1, m1);
    if !t {
      m' := m1;
      LabelAfter(x, a, m, e + 1, m1);
    } else {
      var m2 := StmtRuns(x, b, st.body, X.cgt, X.lab, l + 3, l + 2, true, m1, fuel);
      var (s2, o) := Exec(x.env, st.body, s1, fuel).value;
      ThenArrives(x, a, m, b, m1, d, l + 3, l + 2, o, m2);
      if o.Broke? {
        m' := m2;
        LabelAfter(x, a, m, e + 1, m2);
      } else if o.Returned? {
        m' := m2;
      } else {
        LabelAfter(x, a, m, d, m2);
        var m3 := StmtRuns(x, d + 1, st.step, B.cgt, B.lab, l + 3, l + 2, true, m2, fuel) by {
          SimpleWellFormed(st.step);
        }
        SimpleNormal(x.env, st.step, s2, fuel);
        Then(x, a, m, d + 1, m2, e, m3);
        GotoAfter(x, a, m, e, m3, l + 1, a);
        m' := ForRounds(x, pos, st, c, l, m3, fuel - 1);
        ThenArrives(x, a, m, a, m3, e + 2, 0, 0, ExecFor(x.env, st, m3.store, fuel - 1).value.1, m');
      }
    }
  }

  lemma SimpleWellFormed(st: Stmt)
    requires Simple(st)
    ensures WellFormed(st, true)
  {
  }

  lemma SimpleNormal(env: Env, st: Stmt, s: Store, fuel: nat)
    requires Simple(st) && Exec(env, st, s, fuel).Some?
    ensures Exec(env, st, s, fuel).value.1 == Normal
  {
  }
}
