/** Whole procedures: the code of a body, run from its first quad, does what the body means. */
module Procedure {
  import opened Ast
  import opened Quads
  import opened Emit
  import opened ExprSim
  import opened StmtSim
  import opened Labels

  /** The code of a procedure's body when `l` labels have been handed out before it. */
  function ProcCode(body: Stmt, l: nat): Code
  {
    StmtCode(body, 0, l, 0, 0).code
  }

  /** What a procedure whose body ends with this outcome gives back. */
  function Result(o: Outcome): Val
  {
    if o.Returned? then o.value else Void
  }

  /** A well-formed body never ends by `break` or `continue`. */
  lemma {:induction false} BodyOutcome(env: Env, st: Stmt, s: Store, fuel: nat)
    requires WellFormed(st, false) && Exec(env, st, s, fuel).Some?
    ensures var o := Exec(env, st, s, fuel).value.1; o.Normal? || o.Returned?
    decreases fuel, st, 2
  {
    hide EvalExpr, Test;
    match st
    case Seq(a, b) =>
      BodyOutcome(env, a, s, fuel);
      var (s1, o) := Exec(env, a, s, fuel).value;
      if o.Normal? {
        BodyOutcome(env, b, s1, fuel);
      }
    case If(branch) => BranchOutcome(env, branch, s, fuel);
    case While(_, _) => LoopOutcome(env, st, s, fuel);
    case Do(_, _) => LoopOutcome(env, st, s, fuel);
    case For(init, _, _, _) =>
      SimpleNormal(env, init, s, fuel);
      ForOutcome(env, st, Exec(env, init, s, fuel).value.0, fuel);
    case _ =>
  }

  lemma {:induction false} BranchOutcome(env: Env, b: Branch, s: Store, fuel: nat)
    requires WellFormedBranch(b, false) && ExecBranch(env, b, s, fuel).Some?
    ensures var o := ExecBranch(env, b, s, fuel).value.1; o.Normal? || o.Returned?
    decreases fuel, b, 1
  {
    hide EvalExpr, Test;
    var (t, s1) := Test(env, Some(b.cond), s).value;
    if t {
      BodyOutcome(env, b.body, s1, fuel);
    } else if b.others.Elif? {
      BranchOutcome(env, b.others.branch, s1, fuel);
    } else if b.others.ElseBody? {
      BodyOutcome(env, b.others.body, s1, fuel);
    }
  }

  lemma {:induction false} LoopOutcome(env: Env, st: Stmt, s: Store, fuel: nat)
    requires (st.While? || st.Do?) && Exec(env, st, s, fuel).Some?
    ensures var o := Exec(env, st, s, fuel).value.1; o.Normal? || o.Returned?
    decreases fuel, st, 1
  {
    hide EvalExpr, Test;
    if st.While? {
      var (t, s1) := Test(env, Some(st.cond), s).value;
      if t {
        var (s2, o) := Exec(env, st.body, s1, fuel).value;
        RoundOutcome(env, st, s2, o, fuel);
      }
    } else {
      var (s1, o) := Exec(env, st.body, s, fuel).value;
      if o.Normal? {
        var (t, s2) := Test(env, Some(st.cond), s1).value;
        if t {
          RoundOutcome(env, st, s2, Normal, fuel);
        }
      } else {
        RoundOutcome(env, st, s1, o, fuel);
      }
    }
  }

  lemma {:induction false} RoundOutcome(env: Env, st: Stmt, s: Store, o: Outcome, fuel: nat)
    requires (st.While? || st.Do?) && NextRound(env, st, s, o, fuel).Some?
    ensures var o' := NextRound(env, st, s, o, fuel).value.1; o'.Normal? || o'.Returned?
    decreases fuel, st, 0
  {
    hide Exec;
    if !o.Broke? && !o.Returned? {
      LoopOutcome(env, st, s, fuel - 1);
    }
  }

  lemma {:induction false} ForOutcome(env: Env, st: Stmt, s: Store, fuel: nat)
    requires st.For? && Simple(st.step) && ExecFor(env, st, s, fuel).Some?
    ensures var o := ExecFor(env, st, s, fuel).value.1; o.Normal? || o.Returned?
    decreases fuel, st, 0
  {
    hide EvalExpr, Test, Exec;
    var (t, s1) := Test(env, st.test, s).value;
    if t {
      var (s2, o) := Exec(env, st.body, s1, fuel).value;
      if !o.Broke? && !o.Returned? {
        SimpleNormal(env, st.step, s2, fuel);
        ForOutcome(env, st, Exec(env, st.step, s2, fuel).value.0, fuel - 1);
      }
    }
  }

  /** If a well-formed body ends, with whatever nesting of branches and loops, then its code,
      started at its first quad, returns with the same value and the same store. */
  lemma ProcedureRuns(env: Env, body: Stmt, l: nat, s: Store, fuel: nat, frames: seq<seq<Val>>)
    requires WellFormed(body, false) && Exec(env, body, s, fuel).Some?
    ensures var (s', o) := Exec(env, body, s, fuel).value;
            exists n: nat :: Run(env, ProcCode(body, l), State(0, map[], s, frames), n) == Halt(Result(o), s')
  {
    hide StmtCode, Exec, FindLabel, Goes, UniqueLabels;
    var p := ProcCode(body, l);
    var x, m := Ctx(env, p, frames), Mem(map[], s);
    var (s', o) := Exec(env, body, s, fuel).value;
    ProcedureLabels(body, 0, l);
    BodyOutcome(env, body, s, fuel);
    assert p[0..0 + |p|] == p;
    var m' := StmtRuns(x, 0, body, 0, l, 0, 0, false, m, fuel);
    if o.Normal? {
      HaltNow(x, |p|, m', Void, s');
      ThenEnds(x, 0, m, |p|, m', Void, s');
    }
    var n: nat :| Run(env, p, StateAt(x, 0, m), n) == Halt(Result(o), s');
  }
}
