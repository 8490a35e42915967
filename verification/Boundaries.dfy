/** In a procedure's code no temporary is still to be read where a jump goes back to. */
module Boundaries {
  import opened Ast
  import opened Quads
  import opened Emit
  import opened ExprSim
  import opened StmtSim
  import opened Labels
  import opened Procedure
  import opened Liveness
  import opened Needs

  /** Nothing is still to be read here. */
  ghost predicate Still(p: Code, k: nat)
  {
    forall t: nat, n: nat :: !Live(p, k, t, n)
  }

  /** Jumps from this stretch go forward, or to a point where nothing is still to be read. */
  ghost predicate Steady(p: Code, i: nat, j: nat)
  {
    i <= j <= |p| && forall k: nat :: i <= k < j ==> ForwardOrStill(p, k)
  }

  ghost predicate ForwardOrStill(p: Code, k: nat)
    requires k < |p|
  {
    var to := Target(p, p[k]);
    to.Some? ==> k < to.value || Still(p, to.value)
  }

  lemma SteadyJoin(p: Code, i: nat, j: nat, k: nat)
    requires Steady(p, i, j) && Steady(p, j, k)
    ensures Steady(p, i, k)
  {
    hide ForwardOrStill;
  }

  lemma SteadyOne(p: Code, i: nat)
    requires i < |p| && ForwardOrStill(p, i)
    ensures Steady(p, i, i + 1)
  {
    hide ForwardOrStill;
  }

  /** Where a contained stretch starts nothing is live, if nothing is where it can leave. */
  lemma StillStart(p: Code, i: nat, j: nat, exits: set<nat>)
    requires Contained(p, i, j, exits) && Still(p, j) && forall e :: e in exits ==> Still(p, e)
    ensures Still(p, i)
  {
    hide Live;
    if i < j {
      StartEntry(p, i, j, {}, exits);
      forall t: nat, n: nat
        ensures !Live(p, i, t, n)
      {
        assert forall y :: y in exits + {j} ==> Still(p, y);
        assert !LeavesLive(p, t, n, exits + {j});
      }
    }
  }

  lemma StillQuad(p: Code, i: nat, exits: set<nat>)
    requires i < |p| && (forall t: nat :: !Reads(p[i], t)) && (Target(p, p[i]).Some? ==>
             Target(p, p[i]).value in exits + {i + 1})
    requires Still(p, i + 1) && forall e :: e in exits ==> Still(p, e)
    ensures Still(p, i)
  {
    hide Contained, Still, Target;
    Plain(p, i, exits);
    StillStart(p, i, i + 1, exits);
  }

  /** Jumps inside an expression go forward. */
  lemma ExprSteady(p: Code, pos: nat, e: Expr, c: nat, l: nat)
    requires UniqueLabels(p) && Within(p, pos, ExprCode(e, c, l).code)
    ensures Steady(p, pos, pos + |ExprCode(e, c, l).code|)
  {
    hide ExprCode, Still, UniqueLabels, Defines, Times, FindLabel;
    var E := ExprCode(e, c, l);
    ExprClosed(e, c, l);
    forall k: nat | pos <= k < pos + |E.code|
      ensures ForwardOrStill(p, k)
    {
      var i := k - pos;
      WithinAt(p, pos, E.code, i);
      if IsJump(p[k]) {
        var m: nat :| m < |E.code[i..]| && E.code[i..][m] == Label(E.code[i].res.l);
        WithinAt(p, pos, E.code, i + m);
        LabelAt(p, k + m, p[k].res.l);
      }
    }
  }

  /** An expression and the quad that uses its result. */
  lemma UseSteady(p: Code, pos: nat, e: Expr, c: nat, l: nat, q: Quad)
    requires var E := ExprCode(e, c, l);
             && UniqueLabels(p) && Within(p, pos, E.code + [q])
             && (Target(p, q).Some? ==> Target(p, q).value > pos + |E.code|)
    ensures Steady(p, pos, pos + |ExprCode(e, c, l).code| + 1)
  {
    hide ExprCode, Within, UniqueLabels, Still, Target;
    var E := ExprCode(e, c, l);
    LastQuad(p, pos, E.code, q);
    ExprSteady(p, pos, e, c, l);
    SteadyOne(p, pos + |E.code|);
    SteadyJoin(p, pos, pos + |E.code|, pos + |E.code| + 1);
  }

  lemma TestSteady(p: Code, pos: nat, test: Option<Expr>, c: nat, l: nat, out: nat, k: nat)
    requires UniqueLabels(p) && Within(p, pos, TestCode(test, c, l, out).code) && FindLabel(p, out, 0) == Some(k)
    requires pos + |TestCode(test, c, l, out).code| <= k
    ensures Steady(p, pos, pos + |TestCode(test, c, l, out).code|)
  {
    hide ExprCode, Within, UniqueLabels, FindLabel, Still;
    if test.None? {
      WithinBound(p, pos, []);
    } else {
      UseSteady(p, pos, test.value, c, l, Q1(CJumpF, ALabel(out), ExprCode(test.value, c, l).res));
    }
  }

  lemma {:induction false} StmtSteady(p: Code, pos: nat, st: Stmt, c: nat, l: nat, out: nat, iter: nat,
                                      inLoop: bool, exits: set<nat>)
    requires UniqueLabels(p) && Within(p, pos, StmtCode(st, c, l, out, iter).code)
    requires WellFormed(st, inLoop) && LoopExits(p, inLoop, out, iter, exits)
    requires Still(p, pos + |StmtCode(st, c, l, out, iter).code|) && forall e :: e in exits ==> Still(p, e)
    ensures Steady(p, pos, pos + |StmtCode(st, c, l, out, iter).code|) && Still(p, pos)
    decreases st, 1
  {
    hide Within, UniqueLabels, Contained, FindLabel, StmtCode, ExprCode, BranchCode, Still, Steady;
    StmtParts(st, c, l, out, iter);
    StmtContained(p, pos, st, c, l, out, iter, inLoop, exits);
    StillStart(p, pos, pos + |StmtCode(st, c, l, out, iter).code|, exits);
    match st
    case Seq(a, b) =>
      var A := StmtCode(a, c, l, out, iter);
      var B := StmtCode(b, A.cgt, A.lab, out, iter);
      WithinSplit(p, pos, A.code, B.code);
      StmtSteady(p, pos + |A.code|, b, A.cgt, A.lab, out, iter, inLoop, exits);
      StmtSteady(p, pos, a, c, l, out, iter, inLoop, exits);
      SteadyJoin(p, pos, pos + |A.code|, pos + |A.code| + |B.code|);
    case If(branch) =>
      var B := BranchCode(branch, c, l + 1, l + 1, out, iter);
      var end := pos + |B.code|;
      LastQuad(p, pos, B.code, Label(l + 1));
      LabelAt(p, end, l + 1);
      StillQuad(p, end, {});
      BranchSteady(p, pos, branch, c, l + 1, l + 1, out, iter, inLoop, exits);
      SteadyOne(p, end);
      SteadyJoin(p, pos, end, end + 1);
    case While(_, _) => WhileSteady(p, pos, st, c, l, out, iter);
    case Do(_, _) => WhileSteady(p, pos, st, c, l, out, iter);
    case For(_, _, _, _) => ForSteady(p, pos, st, c, l, out, iter);
    case _ => SmallSteady(p, pos, st, c, l, out, iter, inLoop, exits);
  }

  lemma SmallSteady(p: Code, pos: nat, st: Stmt, c: nat, l: nat, out: nat, iter: nat, inLoop: bool, exits: set<nat>)
    requires UniqueLabels(p) && Within(p, pos, StmtCode(st, c, l, out, iter).code)
    requires WellFormed(st, inLoop) && LoopExits(p, inLoop, out, iter, exits) && forall e :: e in exits ==> Still(p, e)
    requires st.Empty? || st.Eval? || st.Let? || st.Break? || st.Continue? || st.Return?
    ensures Steady(p, pos, pos + |StmtCode(st, c, l, out, iter).code|)
  {
    hide Within, UniqueLabels, FindLabel, ExprCode, Still;
    if st.Empty? {
      WithinBound(p, pos, []);
    } else if st.Eval? {
      ExprSteady(p, pos, st.expr, c, l);
    } else if st.Let? && st.initial.Some? {
      var E := ExprCode(st.initial.value, c, l);
      var hint, put := Q1(HintLocal, AName(st.name, false), ANone), Q1(Copy, AName(st.name, false), E.res);
      assert LetCode(st.name, E).code == [hint] + (E.code + [put]);
      WithinSplit(p, pos, [hint], E.code + [put]);
      WithinAt(p, pos, [hint], 0);
      SteadyOne(p, pos);
      UseSteady(p, pos + 1, st.initial.value, c, l, put);
      SteadyJoin(p, pos, pos + 1, pos + 2 + |E.code|);
    } else if st.Return? && st.value.Some? {
      UseSteady(p, pos, st.value.value, c, l, Q1(RetF, ANone, ExprCode(st.value.value, c, l).res));
    } else {
      WithinAt(p, pos, StmtCode(st, c, l, out, iter).code, 0);
      SteadyOne(p, pos);
    }
  }

  lemma {:induction false} BranchSteady(p: Code, pos: nat, b: Branch, c: nat, l: nat, done: nat, out: nat, iter: nat,
                                        inLoop: bool, exits: set<nat>)
    requires UniqueLabels(p) && Within(p, pos, BranchCode(b, c, l, done, out, iter).code)
    requires WellFormedBranch(b, inLoop) && LoopExits(p, inLoop, out, iter, exits)
    requires FindLabel(p, done, 0) == Some(pos + |BranchCode(b, c, l, done, out, iter).code|)
    requires Still(p, FindLabel(p, done, 0).value) && forall e :: e in exits ==> Still(p, e)
    ensures Steady(p, pos, pos + |BranchCode(b, c, l, done, out, iter).code|) && Still(p, pos)
    decreases b, 0
  {
    hide Within, UniqueLabels, Contained, FindLabel, StmtCode, TestCode, Still, Steady, WellFormed;
    BranchContained(p, pos, b, c, l, done, out, iter, inLoop, exits);
    var end := FindLabel(p, done, 0).value;
    StillStart(p, pos, end, exits);
    if b.others.NoElse? {
      var X := TestCode(Some(b.cond), c, l, done);
      var B := StmtCode(b.body, X.cgt, X.lab, out, iter);
      WithinSplit(p, pos, X.code, B.code);
      TestSteady(p, pos, Some(b.cond), c, l, done, end);
      StmtSteady(p, pos + |X.code|, b.body, X.cgt, X.lab, out, iter, inLoop, exits);
      SteadyJoin(p, pos, pos + |X.code|, end);
    } else {
      var X := TestCode(Some(b.cond), c, l + 1, l + 1);
      var B := StmtCode(b.body, X.cgt, X.lab, out, iter);
      var E := if b.others.Elif? then BranchCode(b.others.branch, B.cgt, B.lab, done, out, iter)
               else StmtCode(b.others.body, B.cgt, B.lab, out, iter);
      ElseLayout(p, pos, X, B, E, done, l + 1);
      var a, j := pos + |X.code|, pos + |X.code| + |B.code|;
      if b.others.Elif? {
        BranchSteady(p, j + 2, b.others.branch, B.cgt, B.lab, done, out, iter, inLoop, exits);
      } else {
        StmtSteady(p, j + 2, b.others.body, B.cgt, B.lab, out, iter, inLoop, exits);
      }
      AcrossElse(p, j, done, end);
      TestSteady(p, pos, Some(b.cond), c, l + 1, l + 1, j + 1);
      StmtSteady(p, a, b.body, X.cgt, X.lab, out, iter, inLoop, exits);
      SteadyJoin(p, pos, a, j);
      SteadyJoin(p, pos, j, j + 2);
      SteadyJoin(p, pos, j + 2, end);
    }
  }

  /** The jump over an alternative and the label where it starts. */
  lemma AcrossElse(p: Code, j: nat, done: nat, end: nat)
    requires j + 2 <= end <= |p| && p[j] == Goto(done) && p[j + 1].Label? && FindLabel(p, done, 0) == Some(end)
    requires Still(p, end) && Still(p, j + 2)
    ensures Steady(p, j, j + 2) && Still(p, j)
  {
    hide Still, FindLabel;
    StillQuad(p, j + 1, {});
    StillQuad(p, j, {end});
    SteadyOne(p, j);
    SteadyOne(p, j + 1);
    SteadyJoin(p, j, j + 1, j + 2);
  }

  /** The quads at the two ends of a loop. */
  lemma LoopEnds(p: Code, head: nat, g: nat, l: nat)
    requires head < g && g + 2 <= |p| && p[head].Label? && p[g] == Goto(l) && FindLabel(p, l, 0) == Some(head)
    requires p[g + 1].Label? && Still(p, g + 2) && Contained(p, head, g + 2, {})
    ensures Still(p, head) && Still(p, g) && Still(p, g + 1) && Steady(p, head, head + 1) && Steady(p, g, g + 2)
  {
    hide Still, FindLabel, Contained;
    StillStart(p, head, g + 2, {});
    StillQuad(p, g + 1, {});
    StillQuad(p, g, {head});
    SteadyOne(p, head);
    SteadyOne(p, g);
    SteadyOne(p, g + 1);
    SteadyJoin(p, g, g + 1, g + 2);
  }

  lemma {:induction false} WhileSteady(p: Code, pos: nat, st: Stmt, c: nat, l: nat, out: nat, iter: nat)
    requires st.While? || st.Do?
    requires UniqueLabels(p) && Within(p, pos, StmtCode(st, c, l, out, iter).code) && WellFormed(st, true)
    requires Still(p, pos + |StmtCode(st, c, l, out, iter).code|)
    ensures Steady(p, pos, pos + |StmtCode(st, c, l, out, iter).code|)
    decreases st, 0
  {
    hide Within, UniqueLabels, Contained, FindLabel, StmtCode, TestCode, Still, Steady;
    StmtParts(st, c, l, out, iter);
    var P, Q;
    if st.While? {
      P := TestCode(Some(st.cond), c, l + 2, l + 2);
      Q := StmtCode(st.body, P.cgt, P.lab, l + 2, l + 1);
    } else {
      P := StmtCode(st.body, c, l + 2, l + 2, l + 1);
      Q := TestCode(Some(st.cond), P.cgt, P.lab, l + 2);
    }
    LoopLayout(p, pos, P, Q, l);
    var i, g := pos + 1 + |P.code|, pos + 1 + |P.code| + |Q.code|;
    var own := {pos, g + 1};
    WhileContained(p, pos, st, c, l, out, iter, {});
    LoopEnds(p, pos, g, l + 1);
    if st.While? {
      TestSteady(p, pos + 1, Some(st.cond), c, l + 2, l + 2, g + 1);
      StmtSteady(p, i, st.body, P.cgt, P.lab, l + 2, l + 1, true, own);
    } else {
      TestContained(p, i, Some(st.cond), P.cgt, P.lab, l + 2, g + 1);
      StillStart(p, i, g, {g + 1});
      StmtSteady(p, pos + 1, st.body, c, l + 2, l + 2, l + 1, true, own);
      TestSteady(p, i, Some(st.cond), P.cgt, P.lab, l + 2, g + 1);
    }
    SteadyJoin(p, pos, pos + 1, i);
    SteadyJoin(p, pos, i, g);
    SteadyJoin(p, pos, g, g + 2);
  }

  lemma {:induction false} ForSteady(p: Code, pos: nat, st: Stmt, c: nat, l: nat, out: nat, iter: nat)
    requires st.For?
    requires UniqueLabels(p) && Within(p, pos, StmtCode(st, c, l, out, iter).code) && WellFormed(st, true)
    requires Still(p, pos + |StmtCode(st, c, l, out, iter).code|)
    ensures Steady(p, pos, pos + |StmtCode(st, c, l, out, iter).code|)
    decreases st, 0
  {
    hide Within, UniqueLabels, Contained, FindLabel, StmtCode, TestCode, ForCode, Still, Steady;
    StmtParts(st, c, l, out, iter);
    var (I, X, B, S) := ForParts(st, c, l);
    ForLayout(p, pos, I, X, B, S, l);
    var a := pos + |I.code|;
    var b := a + 1 + |X.code|;
    var d := b + |B.code|;
    var g := d + 1 + |S.code|;
    SimpleAnywhere(st.init);
    SimpleAnywhere(st.step);
    ForLoopContained(p, pos, st, c, l, out, iter, {});
    LoopEnds(p, a, g, l + 1);
    SmallContained(p, d + 1, st.step, B.cgt, B.lab, l + 3, l + 2, false, {});
    StillStart(p, d + 1, g, {});
    StillQuad(p, d, {});
    SmallSteady(p, pos, st.init, c, l + 3, l + 3, l + 2, false, {});
    TestSteady(p, a + 1, st.test, I.cgt, I.lab, l + 3, g + 1);
    StmtSteady(p, b, st.body, X.cgt, X.lab, l + 3, l + 2, true, {d, g + 1});
    SteadyOne(p, d);
    SmallSteady(p, d + 1, st.step, B.cgt, B.lab, l + 3, l + 2, false, {});
    SteadyJoin(p, pos, a, a + 1);
    SteadyJoin(p, pos, a + 1, b);
    SteadyJoin(p, pos, b, d);
    SteadyJoin(p, pos, d, d + 1);
    SteadyJoin(p, pos, d + 1, g);
    SteadyJoin(p, pos, g, g + 2);
  }

  // ----- whole procedures -----

  lemma NothingAfterEnd(p: Code)
    ensures Still(p, |p|)
  {
  }

  /** In the code of a procedure nothing is needed at the start or where a jump goes back to. */
  lemma ProcedureOrdered(body: Stmt, l: nat)
    requires WellFormed(body, false)
    ensures Ordered(ProcCode(body, l))
  {
    hide StmtCode, UniqueLabels, Within, Live, Target, Needed;
    var p := ProcCode(body, l);
    ProcedureLabels(body, 0, l);
    WithinWhole(p);
    NothingAfterEnd(p);
    StmtSteady(p, 0, body, 0, l, 0, 0, false, {});
    forall t: nat
      ensures !NeedAt(p, 0, t)
    {
      StillNeeds(p, 0, t);
    }
    forall j: nat, k: nat, t: nat | j < |p| && Target(p, p[j]) == Some(k) && NeedAt(p, k, t)
      ensures j < k
    {
      assert ForwardOrStill(p, j);
      if Still(p, k) {
        StillNeeds(p, k, t);
      }
    }
  }

  lemma StillNeeds(p: Code, k: nat, t: nat)
    requires Still(p, k)
    ensures !NeedAt(p, k, t)
  {
    hide Live, Needed;
    if NeedAt(p, k, t) {
      var n: nat :| Needed(p, k, t, n);
      NeededLive(p, k, t, n);
    }
  }
}
