/** From source to registers through the optimizer: emitted, optimized and allocated code does what the
    body means. */
module Pipeline {
  import opened Ast
  import opened Quads
  import opened Emit
  import opened Translator
  import opened Procedure
  import opened LiveRanges
  import opened Labels
  import opened Nests
  import opened CallHomes
  import opened RegAlloc
  import opened CallAlloc
  import opened RegMachine
  import opened CallMoves
  import opened Allocation
  import opened Boundaries
  import opened Needs
  import opened Optimizer
  import opened OptSim
  import opened OptOrder
  import opened OptHomes
  import opened OptClass
  import opened OptKeeps
  import opened MildSource
  import opened Pressure
  import opened CallTable
  import opened CallLabels

  /** The code a procedure is given before registers are. */
  function Optimized(ctx: Contexts, body: Stmt, l: nat): Code
  {
    Passes(ctx, ProcCode(body, l))
  }

  /** Whenever a body ends, so does its optimized code, with the same value and the same store. */
  lemma OptimizedRuns(env: Env, ctx: Contexts, body: Stmt, l: nat, s: Store, fuel: nat, frames: seq<seq<Val>>)
    requires WellFormed(body, false) && AllGood(ctx, ProcCode(body, l)) && Exec(env, body, s, fuel).Some?
    ensures var (s', o) := Exec(env, body, s, fuel).value;
            exists n: nat :: Run(env, Optimized(ctx, body, l), State(0, map[], s, frames), n) == Halt(Result(o), s')
  {
    hide ProcCode, Run, Exec, AllGood, Passes;
    var (s', o) := Exec(env, body, s, fuel).value;
    ProcedureRuns(env, body, l, s, fuel, frames);
    var n: nat :| Run(env, ProcCode(body, l), State(0, map[], s, frames), n) == Halt(Result(o), s');
    PassesPreserve(env, ctx, ProcCode(body, l), State(0, map[], s, frames), n, Result(o), s');
    var m: nat :| Run(env, Passes(ctx, ProcCode(body, l)), State(0, map[], s, frames), m) == Halt(Result(o), s');
    assert Run(env, Optimized(ctx, body, l), State(0, map[], s, frames), m) == Halt(Result(o), s');
  }

  lemma UniqueHere(body: Stmt, l: nat)
    requires WellFormed(body, false)
    ensures UniqueLabels(ProcCode(body, l))
  {
    hide StmtCode, UniqueLabels;
    ProcedureLabels(body, 0, l);
  }

  /** And so does what is left when temporaries have been given registers and slots, arguments pass in registers,
      and calls save what they must: with the ranges of the optimized code, in which a temporary may be read on
      paths where nothing ever set it. */
  lemma CompiledRuns(env: Env, junk: Junk, ctx: Contexts, body: Stmt, l: nat, pl: Plan, s: Store, fuel: nat,
                     cells: Temps, time: nat)
    requires WellFormed(body, false) && AllGood(ctx, ProcCode(body, l)) && Exec(env, body, s, fuel).Some?
    requires Accepted(pl, Optimized(ctx, body, l))
    ensures var (s', o) := Exec(env, body, s, fuel).value;
            exists n: nat :: RRun(env, junk, CompiledT(pl, Optimized(ctx, body, l)), RState(0, cells, s, [], time), n) ==
                             RHalt(Result(o), s')
  {
    hide ProcCode, Accepted, Run, RRun, Exec, Ordered, Framed, AllGood, Passes, CompiledT, UniqueLabels, SimStatus;
    var p, q := ProcCode(body, l), Optimized(ctx, body, l);
    var (s', o) := Exec(env, body, s, fuel).value;
    OptimizedRuns(env, ctx, body, l, s, fuel, []);
    ProcedureOrdered(body, l);
    PassesOrdered(ctx, p);
    UniqueHere(body, l);
    var home, _ := ProcedureFramed(body, l);
    PassesFramed(ctx, p, home);
    var s0 := State(0, map[], s, []);
    var n: nat :| Run(env, q, s0, n) == Halt(Result(o), s');
    AllocatedAlike(env, junk, pl, q, home, s0, cells, time, n);
    HaltsAlike(pl, q, home, RRun(env, junk, CompiledT(pl, q), RState(0, cells, s, [], time), n), Result(o), s');
  }

  /** For a whole class of bodies nothing has to be assumed of the passes: those whose code uses temporaries once,
      keeps assignments out of expressions, keeps constants out of delicate operators, and where there are casts
      keeps the numbers of variables apart from those of temporaries. */
  lemma TameRuns(env: Env, junk: Junk, ctx: Contexts, tr: Traits, body: Stmt, l: nat, pl: Plan, s: Store, fuel: nat,
                 cells: Temps, time: nat)
    requires WellFormed(body, false) && Tame(ctx, tr, ProcCode(body, l)) && Exec(env, body, s, fuel).Some?
    requires Accepted(pl, Optimized(ctx, body, l))
    ensures var (s', o) := Exec(env, body, s, fuel).value;
            exists n: nat :: RRun(env, junk, CompiledT(pl, Optimized(ctx, body, l)), RState(0, cells, s, [], time), n) ==
                             RHalt(Result(o), s')
  {
    hide ProcCode, Accepted, RRun, Exec, Ordered, AllGood, Passes, CompiledT, Tame;
    ProcedureOrdered(body, l);
    DocileAllGood(ctx, tr, ProcCode(body, l));
    CompiledRuns(env, junk, ctx, body, l, pl, s, fuel, cells, time);
  }

  /** The same for a class of sources: whatever is nested how, without casts, signs, complements and dereferences,
      with assignments to variables as statements, and with delicate operators on at most one constant. */
  lemma MildRuns(env: Env, junk: Junk, ctx: Contexts, body: Stmt, l: nat, pl: Plan, s: Store, fuel: nat, cells: Temps,
                 time: nat)
    requires WellFormed(body, false) && MildStmt(body) && Exec(env, body, s, fuel).Some?
    requires Accepted(pl, Optimized(ctx, body, l))
    ensures var (s', o) := Exec(env, body, s, fuel).value;
            exists n: nat :: RRun(env, junk, CompiledT(pl, Optimized(ctx, body, l)), RState(0, cells, s, [], time), n) ==
                             RHalt(Result(o), s')
  {
    hide ProcCode, Accepted, RRun, Exec, AllGood, Passes, CompiledT;
    MildAllGood(ctx, body, l);
    CompiledRuns(env, junk, ctx, body, l, pl, s, fuel, cells, time);
  }

  /** A procedure with few temporaries at a time, calls in first arguments only, names known before they are used in
      calls, and few labels. */
  ghost predicate Modest(pl: Plan, q: Code)
  {
    && (forall home: Homes :: Framed(q, home) ==> RoomySetting(pl, q, home))
    && CallsFirst(q) && Stocked(pl) && pl.table.cap >= 2 && NamesFirst(pl, q) && FewLabels(pl, q)
  }

  /** For such procedures nothing has to be assumed of the generator's pass either. */
  lemma ModestRuns(env: Env, junk: Junk, ctx: Contexts, body: Stmt, l: nat, pl: Plan, s: Store, fuel: nat, cells: Temps,
                   time: nat)
    requires WellFormed(body, false) && MildStmt(body) && Exec(env, body, s, fuel).Some?
    requires Modest(pl, Optimized(ctx, body, l))
    ensures var (s', o) := Exec(env, body, s, fuel).value;
            exists n: nat :: RRun(env, junk, CompiledT(pl, Optimized(ctx, body, l)), RState(0, cells, s, [], time), n) ==
                             RHalt(Result(o), s')
  {
    hide ProcCode, Accepted, RRun, Exec, AllGood, Passes, CompiledT, Framed, Spotted, UniqueLabels, RoomySetting, Stocked,
         NamesFirst, FewLabels, CallsFirst;
    var p, q := ProcCode(body, l), Optimized(ctx, body, l);
    MildAllGood(ctx, body, l);
    UniqueHere(body, l);
    var home, spot := ProcedureFramed(body, l);
    PassesFramed(ctx, p, home);
    PassesSpotted(ctx, p, spot);
    RoomyAccepted(pl, q, home, spot);
    MildRuns(env, junk, ctx, body, l, pl, s, fuel, cells, time);
  }

  /** A procedure: temporaries are counted from the start, labels go on from the procedure before; then the
      quads are taken out, optimized if asked for, and their ranges are made. */
  method GenProc(e: Emitter, o: PeepholeOptimizer, body: Stmt, optimize: bool) returns (code: Code, r: ProcRanges)
    requires e.quads == [] && e.loopOut == 0 && e.loopIter == 0
    requires StmtTranslatable(body) && WellFormed(body, false)
    requires optimize ==> Optimized(o.ctx, body, e.labelCnt) != [] || ProcCode(body, e.labelCnt) == []
    modifies e, o
    ensures code == if optimize then Optimized(o.ctx, body, old(e.labelCnt)) else ProcCode(body, old(e.labelCnt))
    ensures fresh(r) && RangesOf(code, r.cgt)
    ensures e.quads == [] && e.loopOut == 0 && e.loopIter == 0 && e.labelCnt >= old(e.labelCnt)
  {
    hide StmtCode, KeptOf, Passes, Spans;
    e.cgtCnt := 0;
    e.StmtTo3a(body);
    code := e.quads;
    assert code == ProcCode(body, old(e.labelCnt));
    e.quads := [];
    if optimize {
      var reduced, passes;
      code, reduced, passes := o.Optimize(code);
    }
    r := new ProcRanges();
    r.MakeForProc(code);
    forall t: nat
      ensures Spans(code, |code|, TempKey(t), RangeOf(r.cgt, t))
    {
      assert r.Of(TempKey(t)) == RangeOf(r.cgt, t);
    }
  }
}
