/** In a procedure's code every jump goes where the same calls are open, and at the end none is. */
module CallBalance {
  import opened Ast
  import opened Quads
  import opened Emit
  import opened ExprSim
  import opened StmtSim
  import opened Labels
  import opened Procedure
  import opened Liveness
  import opened Calls
  import opened CallSim

  /** Whatever is opened between the two points is closed there too. */
  ghost predicate Same(busy: Busy, p: Code, i: nat, j: nat)
  {
    i <= j <= |p| && GenAt(busy, p, j) == GenAt(busy, p, i)
  }

  /** A quad that uses the result of the expression before it. */
  lemma UseLevel(busy: Busy, p: Code, pos: nat, e: Expr, c: nat, l: nat, q: Quad)
    requires UniqueLabels(p) && Within(p, pos, ExprCode(e, c, l).code + [q]) && Quiet(q)
    ensures var end := pos + |ExprCode(e, c, l).code|;
            Level(busy, p, pos, end) && p[end] == q && Same(busy, p, pos, end + 1)
  {
    hide Within, UniqueLabels, GenAt, ExprCode, JumpsLevel;
    var E := ExprCode(e, c, l);
    PrefixLevel(busy, p, pos, e, c, l, E.code + [q]);
    LastQuad(p, pos, E.code, q);
    QuietStep(busy, p, pos + |E.code|);
  }

  lemma UseStays(busy: Busy, p: Code, pos: nat, e: Expr, c: nat, l: nat, q: Quad)
    requires UniqueLabels(p) && Within(p, pos, ExprCode(e, c, l).code + [q]) && Quiet(q)
    requires Target(p, q).Some? ==> GenAt(busy, p, Target(p, q).value) == GenAt(busy, p, pos)
    ensures Level(busy, p, pos, pos + |ExprCode(e, c, l).code| + 1)
  {
    hide Within, UniqueLabels, GenAt, ExprCode, JumpsLevel, Target;
    var end := pos + |ExprCode(e, c, l).code|;
    UseLevel(busy, p, pos, e, c, l, q);
    QuietLevel(busy, p, end);
    LevelJoin(busy, p, pos, end, end + 1);
  }

  lemma TestSame(busy: Busy, p: Code, pos: nat, test: Option<Expr>, c: nat, l: nat, out: nat)
    requires UniqueLabels(p) && Within(p, pos, TestCode(test, c, l, out).code)
    ensures Same(busy, p, pos, pos + |TestCode(test, c, l, out).code|)
  {
    hide Within, UniqueLabels, GenAt, ExprCode, Level;
    if test.Some? {
      UseLevel(busy, p, pos, test.value, c, l, Q1(CJumpF, ALabel(out), ExprCode(test.value, c, l).res));
    } else {
      WithinBound(p, pos, []);
    }
  }

  lemma TestLevel(busy: Busy, p: Code, pos: nat, test: Option<Expr>, c: nat, l: nat, out: nat, k: nat)
    requires UniqueLabels(p) && Within(p, pos, TestCode(test, c, l, out).code)
    requires FindLabel(p, out, 0) == Some(k) && GenAt(busy, p, k) == GenAt(busy, p, pos)
    ensures Level(busy, p, pos, pos + |TestCode(test, c, l, out).code|)
  {
    hide Within, UniqueLabels, GenAt, ExprCode, Level, FindLabel;
    if test.Some? {
      UseStays(busy, p, pos, test.value, c, l, Q1(CJumpF, ALabel(out), ExprCode(test.value, c, l).res));
    } else {
      WithinBound(p, pos, []);
      Nowhere(busy, p, pos);
    }
  }

  // ----- first pass: every statement closes what it opens -----

  lemma {:induction false} StmtSame(busy: Busy, p: Code, pos: nat, st: Stmt, c: nat, l: nat, out: nat, iter: nat)
    requires UniqueLabels(p) && Within(p, pos, StmtCode(st, c, l, out, iter).code)
    ensures Same(busy, p, pos, pos + |StmtCode(st, c, l, out, iter).code|)
    decreases st, 1
  {
    hide Within, UniqueLabels, GenAt, StmtCode, ExprCode, BranchCode, TestCode, LoopCode, ForCode;
    StmtParts(st, c, l, out, iter);
    match st
    case Seq(a, b) =>
      var A := StmtCode(a, c, l, out, iter);
      WithinSplit(p, pos, A.code, StmtCode(b, A.cgt, A.lab, out, iter).code);
      StmtSame(busy, p, pos, a, c, l, out, iter);
      StmtSame(busy, p, pos + |A.code|, b, A.cgt, A.lab, out, iter);
    case If(branch) =>
      var B := BranchCode(branch, c, l + 1, l + 1, out, iter);
      LastQuad(p, pos, B.code, Label(l + 1));
      BranchSame(busy, p, pos, branch, c, l + 1, l + 1, out, iter);
      QuietStep(busy, p, pos + |B.code|);
    case While(x, body) =>
      var X := TestCode(Some(x), c, l + 2, l + 2);
      LoopLayout(p, pos, X, StmtCode(body, X.cgt, X.lab, l + 2, l + 1), l);
      TestSame(busy, p, pos + 1, Some(x), c, l + 2, l + 2);
      StmtSame(busy, p, pos + 1 + |X.code|, body, X.cgt, X.lab, l + 2, l + 1);
      LoopSame(busy, p, pos, pos + |StmtCode(st, c, l, out, iter).code| - 2);
    case Do(body, x) =>
      var B := StmtCode(body, c, l + 2, l + 2, l + 1);
      LoopLayout(p, pos, B, TestCode(Some(x), B.cgt, B.lab, l + 2), l);
      StmtSame(busy, p, pos + 1, body, c, l + 2, l + 2, l + 1);
      TestSame(busy, p, pos + 1 + |B.code|, Some(x), B.cgt, B.lab, l + 2);
      LoopSame(busy, p, pos, pos + |StmtCode(st, c, l, out, iter).code| - 2);
    case For(init, test, step, body) =>
      var (I, X, B, S) := ForParts(st, c, l);
      ForLayout(p, pos, I, X, B, S, l);
      var a := pos + |I.code|;
      var b := a + 1 + |X.code|;
      var d := b + |B.code|;
      StmtSame(busy, p, pos, init, c, l + 3, l + 3, l + 2);
      TestSame(busy, p, a + 1, test, I.cgt, I.lab, l + 3);
      StmtSame(busy, p, b, body, X.cgt, X.lab, l + 3, l + 2);
      QuietStep(busy, p, d);
      StmtSame(busy, p, d + 1, step, B.cgt, B.lab, l + 3, l + 2);
      LoopSame(busy, p, a, d + 1 + |S.code|);
    case _ => SmallSame(busy, p, pos, st, c, l, out, iter);
  }

  lemma LoopSame(busy: Busy, p: Code, head: nat, g: nat)
    requires head + 1 <= g && g + 2 <= |p| && Same(busy, p, head + 1, g)
    requires p[head].Label? && Quiet(p[g]) && p[g + 1].Label?
    ensures Same(busy, p, head, head + 1) && Same(busy, p, head, g) && Same(busy, p, head, g + 1)
            && Same(busy, p, head, g + 2)
  {
    hide GenAt;
    QuietStep(busy, p, head);
    QuietStep(busy, p, g);
    QuietStep(busy, p, g + 1);
  }

  lemma SmallSame(busy: Busy, p: Code, pos: nat, st: Stmt, c: nat, l: nat, out: nat, iter: nat)
    requires UniqueLabels(p) && Within(p, pos, StmtCode(st, c, l, out, iter).code)
    requires st.Empty? || st.Eval? || st.Let? || st.Break? || st.Continue? || st.Return?
    ensures Same(busy, p, pos, pos + |StmtCode(st, c, l, out, iter).code|)
  {
    hide Within, UniqueLabels, GenAt, ExprCode, JumpsLevel;
    if st.Empty? {
      WithinBound(p, pos, []);
    } else if st.Eval? {
      ExprLevel(busy, p, pos, st.expr, c, l);
      WithinBound(p, pos, ExprCode(st.expr, c, l).code);
    } else if st.Let? && st.initial.Some? {
      LetParts(p, pos, st.name, ExprCode(st.initial.value, c, l));
      QuietStep(busy, p, pos);
      UseLevel(busy, p, pos + 1, st.initial.value, c, l,
               Q1(Copy, AName(st.name, false), ExprCode(st.initial.value, c, l).res));
    } else if st.Return? && st.value.Some? {
      UseLevel(busy, p, pos, st.value.value, c, l, Q1(RetF, ANone, ExprCode(st.value.value, c, l).res));
    } else {
      WithinAt(p, pos, StmtCode(st, c, l, out, iter).code, 0);
      QuietStep(busy, p, pos);
    }
  }

  lemma LetParts(p: Code, pos: nat, x: string, E: Emitted)
    requires Within(p, pos, LetCode(x, E).code)
    ensures pos < |p| && p[pos] == Q1(HintLocal, AName(x, false), ANone)
    ensures Within(p, pos + 1, E.code + [Q1(Copy, AName(x, false), E.res)])
  {
    hide Within;
    var hint, put := Q1(HintLocal, AName(x, false), ANone), Q1(Copy, AName(x, false), E.res);
    assert LetCode(x, E).code == [hint] + (E.code + [put]);
    WithinSplit(p, pos, [hint], E.code + [put]);
    WithinAt(p, pos, [hint], 0);
  }

  lemma {:induction false} BranchSame(busy: Busy, p: Code, pos: nat, b: Branch, c: nat, l: nat, done: nat, out: nat,
                                      iter: nat)
    requires UniqueLabels(p) && Within(p, pos, BranchCode(b, c, l, done, out, iter).code)
    ensures Same(busy, p, pos, pos + |BranchCode(b, c, l, done, out, iter).code|)
    decreases b, 0
  {
    hide Within, UniqueLabels, GenAt, StmtCode, TestCode;
    var last := b.others.NoElse?;
    var X := if last then TestCode(Some(b.cond), c, l, done) else TestCode(Some(b.cond), c, l + 1, l + 1);
    var B := StmtCode(b.body, X.cgt, X.lab, out, iter);
    var a, j := pos + |X.code|, pos + |X.code| + |B.code|;
    if last {
      WithinSplit(p, pos, X.code, B.code);
      TestSame(busy, p, pos, Some(b.cond), c, l, done);
      StmtSame(busy, p, a, b.body, X.cgt, X.lab, out, iter);
    } else {
      var E := if b.others.Elif? then BranchCode(b.others.branch, B.cgt, B.lab, done, out, iter)
               else StmtCode(b.others.body, B.cgt, B.lab, out, iter);
      ElseLayout(p, pos, X, B, E, done, l + 1);
      TestSame(busy, p, pos, Some(b.cond), c, l + 1, l + 1);
      StmtSame(busy, p, a, b.body, X.cgt, X.lab, out, iter);
      QuietStep(busy, p, j);
      QuietStep(busy, p, j + 1);
      if b.others.Elif? {
        BranchSame(busy, p, j + 2, b.others.branch, B.cgt, B.lab, done, out, iter);
      } else {
        StmtSame(busy, p, j + 2, b.others.body, B.cgt, B.lab, out, iter);
      }
    }
  }

  // ----- second pass: jumps -----

  /** The targets of `break` and `continue` have the record of this point. */
  ghost predicate ExitsLevel(busy: Busy, p: Code, pos: nat, inLoop: bool, out: nat, iter: nat)
  {
    pos <= |p| && (inLoop ==> LabelLevel(busy, p, pos, out) && LabelLevel(busy, p, pos, iter))
  }

  ghost predicate LabelLevel(busy: Busy, p: Code, pos: nat, l: nat)
  {
    && pos <= |p|
    && FindLabel(p, l, 0).Some?
    && GenAt(busy, p, FindLabel(p, l, 0).value) == GenAt(busy, p, pos)
  }

  lemma {:induction false} StmtLevel(busy: Busy, p: Code, pos: nat, st: Stmt, c: nat, l: nat, out: nat, iter: nat,
                                     inLoop: bool)
    requires UniqueLabels(p) && Within(p, pos, StmtCode(st, c, l, out, iter).code)
    requires WellFormed(st, inLoop) && ExitsLevel(busy, p, pos, inLoop, out, iter)
    ensures Level(busy, p, pos, pos + |StmtCode(st, c, l, out, iter).code|)
    decreases st, 1
  {
    hide Within, UniqueLabels, GenAt, JumpsLevel, StmtCode, ExprCode, BranchCode, TestCode, FindLabel;
    StmtParts(st, c, l, out, iter);
    match st
    case Seq(a, b) =>
      var A := StmtCode(a, c, l, out, iter);
      var B := StmtCode(b, A.cgt, A.lab, out, iter);
      WithinSplit(p, pos, A.code, B.code);
      StmtLevel(busy, p, pos, a, c, l, out, iter, inLoop);
      StmtLevel(busy, p, pos + |A.code|, b, A.cgt, A.lab, out, iter, inLoop);
      LevelJoin(busy, p, pos, pos + |A.code|, pos + |A.code| + |B.code|);
    case If(branch) =>
      var B := BranchCode(branch, c, l + 1, l + 1, out, iter);
      var end := pos + |B.code|;
      LastQuad(p, pos, B.code, Label(l + 1));
      LabelAt(p, end, l + 1);
      BranchSame(busy, p, pos, branch, c, l + 1, l + 1, out, iter);
      BranchLevel(busy, p, pos, branch, c, l + 1, l + 1, out, iter, inLoop);
      QuietLevel(busy, p, end);
      LevelJoin(busy, p, pos, end, end + 1);
    case While(_, _) => WhileLevel(busy, p, pos, st, c, l, out, iter);
    case Do(_, _) => WhileLevel(busy, p, pos, st, c, l, out, iter);
    case For(_, _, _, _) => ForLevel(busy, p, pos, st, c, l, out, iter);
    case _ => SmallLevel(busy, p, pos, st, c, l, out, iter, inLoop);
  }

  lemma SmallLevel(busy: Busy, p: Code, pos: nat, st: Stmt, c: nat, l: nat, out: nat, iter: nat, inLoop: bool)
    requires UniqueLabels(p) && Within(p, pos, StmtCode(st, c, l, out, iter).code)
    requires WellFormed(st, inLoop) && ExitsLevel(busy, p, pos, inLoop, out, iter)
    requires st.Empty? || st.Eval? || st.Let? || st.Break? || st.Continue? || st.Return?
    ensures Level(busy, p, pos, pos + |StmtCode(st, c, l, out, iter).code|)
  {
    hide Within, UniqueLabels, GenAt, ExprCode, Level, FindLabel;
    if st.Empty? {
      Nowhere(busy, p, pos);
    } else if st.Eval? {
      ExprLevel(busy, p, pos, st.expr, c, l);
    } else if st.Let? && st.initial.Some? {
      var E := ExprCode(st.initial.value, c, l);
      LetParts(p, pos, st.name, E);
      QuietLevel(busy, p, pos);
      UseStays(busy, p, pos + 1, st.initial.value, c, l, Q1(Copy, AName(st.name, false), E.res));
      LevelJoin(busy, p, pos, pos + 1, pos + 2 + |E.code|);
    } else if st.Return? && st.value.Some? {
      UseStays(busy, p, pos, st.value.value, c, l, Q1(RetF, ANone, ExprCode(st.value.value, c, l).res));
    } else {
      WithinAt(p, pos, StmtCode(st, c, l, out, iter).code, 0);
      QuietLevel(busy, p, pos);
    }
  }

  lemma {:induction false} BranchLevel(busy: Busy, p: Code, pos: nat, b: Branch, c: nat, l: nat, done: nat, out: nat,
                                       iter: nat, inLoop: bool)
    requires UniqueLabels(p) && Within(p, pos, BranchCode(b, c, l, done, out, iter).code)
    requires WellFormedBranch(b, inLoop) && ExitsLevel(busy, p, pos, inLoop, out, iter)
             && LabelLevel(busy, p, pos, done)
    ensures Level(busy, p, pos, pos + |BranchCode(b, c, l, done, out, iter).code|)
    decreases b, 0
  {
    hide Within, UniqueLabels, GenAt, JumpsLevel, FindLabel, StmtCode, TestCode;
    var last := b.others.NoElse?;
    var end := FindLabel(p, done, 0).value;
    var X := if last then TestCode(Some(b.cond), c, l, done) else TestCode(Some(b.cond), c, l + 1, l + 1);
    var B := StmtCode(b.body, X.cgt, X.lab, out, iter);
    var a, j := pos + |X.code|, pos + |X.code| + |B.code|;
    if last {
      WithinSplit(p, pos, X.code, B.code);
      TestLevel(busy, p, pos, Some(b.cond), c, l, done, end);
      StmtLevel(busy, p, a, b.body, X.cgt, X.lab, out, iter, inLoop);
      LevelJoin(busy, p, pos, a, j);
    } else {
      var E := if b.others.Elif? then BranchCode(b.others.branch, B.cgt, B.lab, done, out, iter)
               else StmtCode(b.others.body, B.cgt, B.lab, out, iter);
      ElseLayout(p, pos, X, B, E, done, l + 1);
      TestSame(busy, p, pos, Some(b.cond), c, l + 1, l + 1);
      StmtLevel(busy, p, a, b.body, X.cgt, X.lab, out, iter, inLoop);
      QuietStep(busy, p, j);
      TestLevel(busy, p, pos, Some(b.cond), c, l + 1, l + 1, j + 1);
      QuietLevel(busy, p, j);
      QuietLevel(busy, p, j + 1);
      LevelJoin(busy, p, pos, a, j);
      LevelJoin(busy, p, pos, j, j + 1);
      LevelJoin(busy, p, pos, j + 1, j + 2);
      if b.others.Elif? {
        BranchLevel(busy, p, j + 2, b.others.branch, B.cgt, B.lab, done, out, iter, inLoop);
      } else {
        StmtLevel(busy, p, j + 2, b.others.body, B.cgt, B.lab, out, iter, inLoop);
      }
      LevelJoin(busy, p, pos, j + 2, j + 2 + |E.code|);
    }
  }

  lemma {:induction false} WhileLevel(busy: Busy, p: Code, pos: nat, st: Stmt, c: nat, l: nat, out: nat, iter: nat)
    requires st.While? || st.Do?
    requires UniqueLabels(p) && Within(p, pos, StmtCode(st, c, l, out, iter).code) && WellFormed(st, true)
    ensures Level(busy, p, pos, pos + |StmtCode(st, c, l, out, iter).code|)
    decreases st, 0
  {
    hide Within, UniqueLabels, GenAt, JumpsLevel, FindLabel, StmtCode, TestCode;
    StmtParts(st, c, l, out, iter);
    var P, Q;
    if st.While? {
      P := TestCode(Some(st.cond), c, l + 2, l + 2);
      Q := StmtCode(st.body, P.cgt, P.lab, l + 2, l + 1);
    } else {
      P := StmtCode(st.body, c, l + 2, l + 2, l + 1);
      Q := TestCode(Some(st.cond), P.cgt, P.lab, l + 2);
    }
    LoopLayout(p, pos, P, Q, l);
    var i, g := pos + 1 + |P.code|, pos + 1 + |P.code| + |Q.code|;
    if st.While? {
      TestSame(busy, p, pos + 1, Some(st.cond), c, l + 2, l + 2);
      StmtSame(busy, p, i, st.body, P.cgt, P.lab, l + 2, l + 1);
      LoopSame(busy, p, pos, g);
      TestLevel(busy, p, pos + 1, Some(st.cond), c, l + 2, l + 2, g + 1);
      StmtLevel(busy, p, i, st.body, P.cgt, P.lab, l + 2, l + 1, true);
    } else {
      StmtSame(busy, p, pos + 1, st.body, c, l + 2, l + 2, l + 1);
      TestSame(busy, p, i, Some(st.cond), P.cgt, P.lab, l + 2);
      LoopSame(busy, p, pos, g);
      StmtLevel(busy, p, pos + 1, st.body, c, l + 2, l + 2, l + 1, true);
      TestLevel(busy, p, i, Some(st.cond), P.cgt, P.lab, l + 2, g + 1);
    }
    LevelJoin(busy, p, pos + 1, i, g);
    LoopLevel(busy, p, pos, g, l + 1);
  }

  /** A loop whose inside is level: its label, its jump back and the label at its exit. */
  lemma LoopLevel(busy: Busy, p: Code, head: nat, g: nat, l: nat)
    requires head + 1 <= g && g + 2 <= |p| && Level(busy, p, head + 1, g)
    requires p[head].Label? && p[g] == Goto(l) && p[g + 1].Label? && FindLabel(p, l, 0) == Some(head)
    ensures Level(busy, p, head, g + 2)
  {
    hide GenAt, JumpsLevel, FindLabel;
    LoopSame(busy, p, head, g);
    QuietLevel(busy, p, head);
    QuietLevel(busy, p, g);
    QuietLevel(busy, p, g + 1);
    LevelJoin(busy, p, head, head + 1, g);
    LevelJoin(busy, p, head, g, g + 1);
    LevelJoin(busy, p, head, g + 1, g + 2);
  }

  lemma {:induction false} ForLevel(busy: Busy, p: Code, pos: nat, st: Stmt, c: nat, l: nat, out: nat, iter: nat)
    requires st.For?
    requires UniqueLabels(p) && Within(p, pos, StmtCode(st, c, l, out, iter).code) && WellFormed(st, true)
    ensures Level(busy, p, pos, pos + |StmtCode(st, c, l, out, iter).code|)
    decreases st, 0
  {
    hide Within, UniqueLabels, GenAt, JumpsLevel, FindLabel, StmtCode, TestCode, ForCode;
    StmtParts(st, c, l, out, iter);
    var (I, X, B, S) := ForParts(st, c, l);
    ForLayout(p, pos, I, X, B, S, l);
    var a := pos + |I.code|;
    var b := a + 1 + |X.code|;
    var d := b + |B.code|;
    var g := d + 1 + |S.code|;
    SimpleAnywhere(st.init);
    SimpleAnywhere(st.step);
    TestSame(busy, p, a + 1, st.test, I.cgt, I.lab, l + 3);
    StmtSame(busy, p, b, st.body, X.cgt, X.lab, l + 3, l + 2);
    QuietStep(busy, p, d);
    StmtSame(busy, p, d + 1, st.step, B.cgt, B.lab, l + 3, l + 2);
    LoopSame(busy, p, a, g);
    SmallLevel(busy, p, pos, st.init, c, l + 3, l + 3, l + 2, false);
    TestLevel(busy, p, a + 1, st.test, I.cgt, I.lab, l + 3, g + 1);
    StmtLevel(busy, p, b, st.body, X.cgt, X.lab, l + 3, l + 2, true);
    QuietLevel(busy, p, d);
    SmallLevel(busy, p, d + 1, st.step, B.cgt, B.lab, l + 3, l + 2, false);
    LevelJoin(busy, p, a + 1, b, d);
    LevelJoin(busy, p, a + 1, d, d + 1);
    LevelJoin(busy, p, a + 1, d + 1, g);
    LoopLevel(busy, p, a, g, l + 1);
    LevelJoin(busy, p, pos, a, g + 2);
  }

  // ----- whole procedures -----

  lemma {:induction false} RecordAccounted(busy: Busy, p: Code, i: nat)
    requires i <= |p|
    ensures Accounted(GenAt(busy, p, i))
  {
    if i > 0 {
      RecordAccounted(busy, p, i - 1);
      StepsAccounted(GenAt(busy, p, i - 1), busy(i - 1));
    }
  }

  /** Whatever registers are saved at each call: every jump of a procedure goes where the record is the
      same, and at the end of the code no call is open and nothing is on the stack. */
  lemma ProcedureLevel(busy: Busy, body: Stmt, l: nat)
    requires WellFormed(body, false)
    ensures var p := ProcCode(body, l);
            && JumpsLevel(busy, p, 0, |p|) && GenAt(busy, p, |p|) == Gen(0, [])
            && forall i: nat :: i <= |p| ==> Accounted(GenAt(busy, p, i))
  {
    hide StmtCode, UniqueLabels, Within, Accounted;
    var p := ProcCode(body, l);
    ProcedureLabels(body, 0, l);
    WithinWhole(p);
    StmtLevel(busy, p, 0, body, 0, l, 0, 0, false);
    forall i: nat | i <= |p|
      ensures Accounted(GenAt(busy, p, i))
    {
      RecordAccounted(busy, p, i);
    }
  }
}
