/** The allocated code of `return f(a, g(b), h(c));` returns what h has left in the first argument's register. */
module ArgFaultRun {
  import opened Words
  import opened Ast
  import opened Quads
  import opened Emit
  import opened Liveness
  import opened Procedure
  import opened LiveRanges
  import opened Nests
  import opened CallHomes
  import opened RegAlloc
  import opened Frames
  import opened CallAlloc
  import opened CallTable
  import opened CallLabels
  import opened RegMachine
  import opened CallMoves
  import opened Allocation
  import opened ArgFault
  import HashMap
  import LabelFault

  // ----- the run -----

  /** Every function returns its first argument. */
  function FirstArgument(): Env
  {
    (f, args, store) => Some((if args == [] then Void else args[0], store))
  }

  /** No registers are taken for single quads. */
  ghost predicate Simple(m: Asm)
  {
    m.code == NestedCells() && forall i: nat :: m.spoils(i) == [] && m.keeps(i) == []
  }

  lemma Unspoiled(m: Asm, junk: Junk, s: RState, cells: Temps)
    requires Simple(m)
    ensures Scratched(m, junk, s, cells) == cells
  {
    assert Spoil(cells, [], junk, s.time) == cells;
    assert Snapshot(s.cells, []) == map[];
    assert Restore(cells, map[]) == cells;
  }

  lemma CellAt(i: nat)
    requires i < 18
    ensures |NestedCells()| == 18
    ensures i == 0 ==> NestedCells()[i] == OpenQuad(0)
    ensures i == 1 ==> NestedCells()[i] == LoadVar(1, "a")
    ensures i == 2 ==> NestedCells()[i] == PassOn(1)
    ensures i == 3 ==> NestedCells()[i] == OpenQuad(1)
    ensures i == 4 ==> NestedCells()[i] == LoadVar(0, "b")
    ensures i == 5 ==> NestedCells()[i] == PassOn(0)
    ensures i == 6 ==> NestedCells()[i] == LoadFn(0, "g")
    ensures i == 7 ==> NestedCells()[i] == CallQuad(1, 0, 1)
    ensures i == 8 ==> NestedCells()[i] == PassOn(1)
    ensures i == 9 ==> NestedCells()[i] == OpenQuad(1)
    ensures i == 10 ==> NestedCells()[i] == LoadVar(0, "c")
    ensures i == 11 ==> NestedCells()[i] == PassOn(0)
    ensures i == 12 ==> NestedCells()[i] == LoadFn(0, "h")
    ensures i == 13 ==> NestedCells()[i] == CallQuad(1, 0, 1)
    ensures i == 14 ==> NestedCells()[i] == PassOn(1)
    ensures i == 15 ==> NestedCells()[i] == LoadFn(1, "f")
    ensures i == 16 ==> NestedCells()[i] == CallQuad(0, 1, 3)
    ensures i == 17 ==> NestedCells()[i] == Q1(RetF, ANone, ATemp(0))
  {
  }

  lemma LoadGoes(env: Env, junk: Junk, m: Asm, s: RState, t: nat, x: string, isFn: bool)
    requires Simple(m) && s.pc < |m.code| && m.code[s.pc] == Q1(Copy, ATemp(t), AName(x, isFn))
    ensures RStep(env, junk, m, s) ==
            RAt(RState(s.pc + 1, s.cells[t := ReadName(s.store, x, isFn)], s.store, s.frames, s.time + 1))
  {
    hide NestedCells, Scratched;
    Unspoiled(m, junk, s, s.cells[t := ReadName(s.store, x, isFn)]);
  }

  lemma PassGoes(env: Env, junk: Junk, m: Asm, s: RState, t: nat)
    requires s.pc < |m.code| && m.code[s.pc] == PassOn(t) && s.frames != []
    requires s.frames[|s.frames| - 1].inRegs < 3
    ensures var n, k := |s.frames| - 1, s.frames[|s.frames| - 1].inRegs;
            RStep(env, junk, m, s) ==
            RAt(s.(pc := s.pc + 1, cells := s.cells[Param(k) := Get(s.cells, t)], frames := s.frames[n := s.frames[n].(inRegs := k + 1)]))
  {
    hide Step, Param;
  }

  /** The cells when a call has returned. */
  function Back(cells: Temps, junk: Junk, time: nat, r: nat, v: Val, saved: Temps): Temps
  {
    Restore(Spoil(cells, SAVE_ORDER, junk, time)[r := v], saved)
  }

  lemma CloseGoes(junk: Junk, m: Asm, s: RState, r: nat, g: nat, n: Word, f: string)
    requires s.pc < |m.code| && m.code[s.pc] == CallQuad(r, g, n) && s.frames != [] && Get(s.cells, g) == Fn(f)
    requires var top := s.frames[|s.frames| - 1]; top.inRegs > 0 && top.rest == []
    ensures var top := s.frames[|s.frames| - 1];
            RStep(FirstArgument(), junk, m, s) ==
            RAt(RState(s.pc + 1, Back(s.cells, junk, s.time, r, Get(s.cells, Param(0)), top.saved), s.store, Front(s.frames), s.time + 1))
  {
    hide Step, Param, Spoil, Restore, CalleeReg;
    var top := s.frames[|s.frames| - 1];
    ArgsFound(s.cells, top.inRegs, 0);
    assert RegArgs(s.cells, top.inRegs) + top.rest == RegArgs(s.cells, top.inRegs);
  }

  lemma BackCells(cells: Temps, junk: Junk, time: nat, r: nat, v: Val, saved: Temps, n: nat)
    requires n < |SAVE_ORDER|
    ensures Get(Back(cells, junk, time, r, v, saved), n) ==
            if n in saved then Get(saved, n) else if n == r then v else junk(time, n)
  {
    hide Spoil, Restore, Numbers;
    AllNumbers(n);
  }

  lemma OneStep(env: Env, junk: Junk, m: Asm, s: RState, s1: RState, n: nat)
    requires n > 0 && RStep(env, junk, m, s) == RAt(s1)
    ensures RRun(env, junk, m, s, n) == RRun(env, junk, m, s1, n - 1)
  {
  }

  /** An inner call with one argument: its result is there, and the register of a, rdi, holds what was saved of it,
      or whatever the callee has left in it. */
  lemma InnerCall(junk: Junk, m: Asm, s: RState, n: nat, f: string, x: string) returns (s': RState)
    requires Simple(m) && ((s.pc == 3 && f == "g" && x == "b") || (s.pc == 9 && f == "h" && x == "c"))
    requires n >= 5 && |s.frames| == 1 && RBX !in m.saves(s.pc)
    ensures RRun(FirstArgument(), junk, m, s, n) == RRun(FirstArgument(), junk, m, s', n - 5)
    ensures s'.pc == s.pc + 5 && s'.store == s.store && s'.frames == s.frames && s'.time == s.time + 3
    ensures Get(s'.cells, 1) == ReadName(s.store, x, false)
    ensures Get(s'.cells, 5) == if RDI in m.saves(s.pc) then Get(s.cells, 5) else junk(s.time + 2, 5)
  {
    hide RRun, RStep, Simple, NestedCells, Snapshot, Back;
    assert m.code == NestedCells() by { SimpleCode(m); }
    var env, saved, i, v := FirstArgument(), Snapshot(s.cells, m.saves(s.pc)), s.pc, ReadName(s.store, x, false);
    CellAt(i);
    OpensFrame(env, junk, m, s);
    var s1 := s.(pc := i + 1, frames := s.frames + [RFrame(saved, 0, [])]);
    OneStep(env, junk, m, s, s1, n);
    CellAt(i + 1);
    LoadGoes(env, junk, m, s1, 0, x, false);
    var s2 := s1.(pc := i + 2, cells := s1.cells[0 := v], time := s.time + 1);
    OneStep(env, junk, m, s1, s2, n - 1);
    CellAt(i + 2);
    PassGoes(env, junk, m, s2, 0);
    var s3 := s2.(pc := i + 3, cells := s2.cells[Param(0) := v], frames := s.frames + [RFrame(saved, 1, [])]);
    assert s3.frames == s2.frames[1 := s2.frames[1].(inRegs := 1)];
    OneStep(env, junk, m, s2, s3, n - 2);
    CellAt(i + 3);
    LoadGoes(env, junk, m, s3, 0, f, true);
    var s4 := s3.(pc := i + 4, cells := s3.cells[0 := Fn(f)], time := s.time + 2);
    OneStep(env, junk, m, s3, s4, n - 3);
    CellAt(i + 4);
    assert Param(0) == 5;
    CloseGoes(junk, m, s4, 1, 0, 1, f);
    s' := RState(i + 5, Back(s4.cells, junk, s4.time, 1, v, saved), s.store, s.frames, s.time + 3);
    assert Front(s4.frames) == s.frames;
    OneStep(env, junk, m, s4, s', n - 4);
    BackCells(s4.cells, junk, s4.time, 1, v, saved, 1);
    BackCells(s4.cells, junk, s4.time, 1, v, saved, 5);
    SavedCells(s.cells, m.saves(i));
  }

  lemma SimpleCode(m: Asm)
    requires Simple(m)
    ensures m.code == NestedCells()
  {
    hide NestedCells;
  }

  lemma SavedCells(cells: Temps, saved: seq<Reg>)
    ensures (1 in Snapshot(cells, saved) <==> RBX in saved) && (5 in Snapshot(cells, saved) <==> RDI in saved)
    ensures (0 in Snapshot(cells, saved) <==> RAX in saved) && (4 in Snapshot(cells, saved) <==> RSI in saved)
    ensures RDI in saved ==> Get(Snapshot(cells, saved), 5) == Get(cells, 5)
    ensures RSI in saved ==> Get(Snapshot(cells, saved), 4) == Get(cells, 4)
  {
    hide Numbers;
    InNumbers(RAX, saved);
    InNumbers(RBX, saved);
    InNumbers(RDI, saved);
    InNumbers(RSI, saved);
  }

  /** Up to the first inner call. */
  lemma RunStart(junk: Junk, m: Asm, cells: Temps, store: Store) returns (s: RState)
    requires Simple(m)
    ensures RRun(FirstArgument(), junk, m, RState(0, cells, store, [], 0), 18) == RRun(FirstArgument(), junk, m, s, 15)
    ensures s.pc == 3 && s.store == store && s.frames == [RFrame(Snapshot(cells, m.saves(0)), 1, [])] && s.time == 1
  {
    hide RRun, RStep, Simple, NestedCells, Snapshot;
    assert m.code == NestedCells() by { SimpleCode(m); }
    var env, saved, s0 := FirstArgument(), Snapshot(cells, m.saves(0)), RState(0, cells, store, [], 0);
    CellAt(0);
    OpensFrame(env, junk, m, s0);
    var s1 := s0.(pc := 1, frames := [RFrame(saved, 0, [])]);
    OneStep(env, junk, m, s0, s1, 18);
    CellAt(1);
    LoadGoes(env, junk, m, s1, 1, "a", false);
    var s2 := s1.(pc := 2, cells := cells[1 := ReadName(store, "a", false)], time := 1);
    OneStep(env, junk, m, s1, s2, 17);
    CellAt(2);
    PassGoes(env, junk, m, s2, 1);
    s := s2.(pc := 3, cells := s2.cells[Param(0) := ReadName(store, "a", false)], frames := [RFrame(saved, 1, [])]);
    OneStep(env, junk, m, s2, s, 16);
  }

  /** One more argument of f. */
  lemma RunArg(junk: Junk, m: Asm, s: RState, saved: Temps, k: nat, n: nat) returns (s': RState)
    requires Simple(m) && s.pc in {8, 14} && s.frames == [RFrame(saved, k, [])] && k in {1, 2} && n > 0
    ensures RRun(FirstArgument(), junk, m, s, n) == RRun(FirstArgument(), junk, m, s', n - 1)
    ensures s'.pc == s.pc + 1 && s'.store == s.store && s'.frames == [RFrame(saved, k + 1, [])] && s'.time == s.time
    ensures Get(s'.cells, 5) == Get(s.cells, 5)
  {
    hide RRun, RStep, Simple, NestedCells;
    assert m.code == NestedCells() by { SimpleCode(m); }
    CellAt(s.pc);
    PassGoes(FirstArgument(), junk, m, s, 1);
    s' := s.(pc := s.pc + 1, cells := s.cells[Param(k) := Get(s.cells, 1)], frames := [RFrame(saved, k + 1, [])]);
    assert s'.frames == s.frames[0 := s.frames[0].(inRegs := k + 1)];
    OneStep(FirstArgument(), junk, m, s, s', n);
    assert Param(1) == 4 && Param(2) == 3;
  }

  /** From the call of f to the end. */
  lemma RunEnd(junk: Junk, m: Asm, s: RState, saved: Temps)
    requires Simple(m) && s.pc == 15 && s.frames == [RFrame(saved, 3, [])] && 0 !in saved
    ensures RRun(FirstArgument(), junk, m, s, 3) == RHalt(Get(s.cells, 5), s.store)
  {
    hide RRun, RStep, Simple, NestedCells, Back;
    assert m.code == NestedCells() by { SimpleCode(m); }
    var env := FirstArgument();
    CellAt(15);
    LoadGoes(env, junk, m, s, 1, "f", true);
    var s1 := s.(pc := 16, cells := s.cells[1 := Fn("f")], time := s.time + 1);
    OneStep(env, junk, m, s, s1, 3);
    CellAt(16);
    assert Param(0) == 5;
    CloseGoes(junk, m, s1, 0, 1, 3, "f");
    var s2 := RState(17, Back(s1.cells, junk, s1.time, 0, Get(s.cells, 5), saved), s.store, [], s1.time + 1);
    OneStep(env, junk, m, s1, s2, 2);
    BackCells(s1.cells, junk, s1.time, 0, Get(s.cells, 5), saved, 0);
    CellAt(17);
    Returns(env, junk, m, s2, 0);
  }

  /** The whole procedure returns what f finds in the register of its first argument: what h has left there. */
  lemma NestedRuns(junk: Junk, m: Asm, cells: Temps, store: Store)
    requires Simple(m) && RAX !in m.saves(0) && RBX !in m.saves(3) && RDI !in m.saves(9) && RBX !in m.saves(9)
    ensures RRun(FirstArgument(), junk, m, RState(0, cells, store, [], 0), 18) == RHalt(junk(6, RegNumber(RDI)), store)
  {
    hide RRun, Simple, Snapshot;
    var s3 := RunStart(junk, m, cells, store);
    var saved := Snapshot(cells, m.saves(0));
    var s8 := InnerCall(junk, m, s3, 15, "g", "b");
    var s9 := RunArg(junk, m, s8, saved, 1, 10);
    var s14 := InnerCall(junk, m, s9, 9, "h", "c");
    var s15 := RunArg(junk, m, s14, saved, 2, 4);
    SavedCells(cells, m.saves(0));
    RunEnd(junk, m, s15, saved);
  }

  lemma Returns(env: Env, junk: Junk, m: Asm, s: RState, t: nat)
    requires s.pc < |m.code| && m.code[s.pc] == Q1(RetF, ANone, ATemp(t))
    ensures RRun(env, junk, m, s, 1) == RHalt(Get(s.cells, t), s.store)
  {
  }

  // ----- the procedure as the generator is given it -----

  /** The temporaries a quad mentions. */
  lemma NestedMentions(i: nat, t: nat)
    requires i < 18
    ensures |NestedCode()| == 18
    ensures Hits(NestedCode()[i], TempKey(t)) <==>
            (t == 1 && i in {1, 2}) || (t == 2 && i in {4, 5}) || (t == 3 && i in {6, 7}) || (t == 4 && i in {3, 7, 8})
            || (t == 5 && i in {10, 11}) || (t == 6 && i in {12, 13}) || (t == 7 && i in {9, 13, 14}) || (t == 8 && i in {15, 16})
            || (t == 9 && i in {0, 16, 17})
  {
    hide NestedCode;
    NestedQuad(i);
    assert i in {0, 1, 2, 3, 4, 5} || i in {6, 7, 8, 9, 10, 11} || i in {12, 13, 14, 15, 16, 17};
  }

  lemma NestedRanges()
    ensures RangesOf(NestedCode(), Ranges())
  {
    hide NestedCode, Ranges, Hits;
    RangesAre();
    NestedQuad(0);
    forall t: nat
      ensures Spans(NestedCode(), 18, TempKey(t), RangeOf(Ranges(), t))
    {
      forall i: nat | i < 18
        ensures Hits(NestedCode()[i], TempKey(t)) <==>
            (t == 1 && i in {1, 2}) || (t == 2 && i in {4, 5}) || (t == 3 && i in {6, 7}) || (t == 4 && i in {3, 7, 8})
            || (t == 5 && i in {10, 11}) || (t == 6 && i in {12, 13}) || (t == 7 && i in {9, 13, 14}) || (t == 8 && i in {15, 16})
            || (t == 9 && i in {0, 16, 17})
      {
        NestedMentions(i, t);
      }
    }
  }

  lemma NestedStocked()
    ensures var pl := NestedPlan();
            && Stocked(pl) && pl.table.cap == 128 && pl.start.locs == map[] && pl.asks == TempAsks(NestedCode())
            && pl.ranges == Ranges() && forall i: nat :: pl.scratch(i) == []
  {
    hide NestedCode, Ranges;
    HashMap.EmptyEntries<string, Loc>(128);
  }

  /** Nine labels are few. */
  lemma NestedFew()
    ensures FewLabels(NestedPlan(), NestedCode())
  {
    hide NestedPlan, NestedCode, CgAt, TempLabel, Ranges, LabelFault.TempSet, Stocked;
    var pl, p := NestedPlan(), NestedCode();
    NestedStocked();
    NestedRanges();
    Scheduled(p);
    LabelsKnown(pl, p, |p|);
    LabelFault.TempSetSize(9);
    var locs := CgAt(pl, p, |p|).alloc.locs;
    forall x | x in locs
      ensures x in LabelFault.TempSet(9)
    {
      assert KnownLabel(pl, x, |p|);
      var j: nat :| j < |p| && AskedAt(pl, j, x);
      var a := AskerOf(pl, p, j, x);
      OnlyTemps(p, j, a);
      NestedTemp(j, a.t);
    }
    SubsetSize(locs.Keys, LabelFault.TempSet(9));
  }

  lemma OnlyTemps(p: Code, j: nat, a: Addr)
    requires a in TempAsks(p)(j)
    ensures j < |p| && a.Cgt?
  {
  }

  lemma NestedTemp(j: nat, t: nat)
    requires j < |NestedCode()| && Mentions(NestedCode()[j], ATemp(t))
    ensures 1 <= t <= 9
  {
    hide NestedCode;
    NestedQuad(0);
    NestedMentions(j, t);
  }

  lemma NestedFound()
    ensures Asks(NestedCode(), NestedPlan().asks) && Stocked(NestedPlan()) && NothingCut(NestedPlan(), NestedCode())
  {
    hide NestedPlan, NestedCode, Framed, Spotted, Stocked, NothingCut, FewLabels, TempLabel, ProcCode, Ranges, RangesOf, Asks;
    var pl, p := NestedPlan(), NestedCode();
    NestedIs();
    NestedStocked();
    NestedRanges();
    Scheduled(p);
    var home, spot := ProcedureFramed(NestedBody(), 0);
    NestedFew();
    assert NamesFirst(pl, p) by { NoNames(pl, p); }
    FewLabelsFind(pl, p, home, spot);
  }

  lemma NoNames(pl: Plan, p: Code)
    requires pl.asks == TempAsks(p)
    ensures NamesFirst(pl, p)
  {
    hide NestAt;
    forall i: nat, a | i < |p| && a in pl.asks(i)
      ensures a.Cgt?
    {
      OnlyTemps(p, i, a);
    }
  }

  /** `return f(a, g(b), h(c));`, where every function returns its first argument: it means the value of a. The
      generator saves rdi, in which a is passed, where it opens the call of g, and does not where it opens that of h;
      and whatever h leaves in rdi is what the allocated code returns. */
  lemma NestedGoesWrong(junk: Junk, cells: Temps, store: Store, fuel: nat)
    ensures Exec(FirstArgument(), NestedBody(), store, fuel) == Some((store, Returned(ReadName(store, "a", false))))
    ensures var p, pl := ProcCode(NestedBody(), 0), NestedPlan();
            && |p| == 18 && RangesOf(p, pl.ranges) && Asks(p, pl.asks) && Stocked(pl) && NothingCut(pl, p)
            && RDI in SavedT(pl, p, 3) && RDI !in SavedT(pl, p, 9)
            && RRun(FirstArgument(), junk, CompiledT(pl, p), RState(0, cells, store, [], 0), 18) ==
               RHalt(junk(6, RegNumber(RDI)), store)
  {
    hide NestedCode, NestedPlan, ProcCode, RangesOf, Asks, Stocked, NothingCut, SavedT, SavedAt, RRun, Compiled, CompiledT, Ranges,
         NestedCells, Exec, SameAsm;
    var p, pl := NestedCode(), NestedPlan();
    NestedIs();
    NestedStocked();
    NestedRanges();
    NestedFound();
    PassSeen();
    SavedIs(3);
    SavedIs(9);
    CodeFound(pl, p);
    assert Simple(Compiled(pl, p)) && forall i: nat :: i < 18 ==> Compiled(pl, p).saves(i) == Saved(i) by { CompiledSimple(); }
    NestedRuns(junk, Compiled(pl, p), cells, store);
    SameRuns(FirstArgument(), junk, CompiledT(pl, p), Compiled(pl, p), RState(0, cells, store, [], 0), 18);
    NestedMeans(store, fuel);
  }

  lemma SavedIs(i: nat)
    requires i < 18
    ensures |NestedCode()| == 18 && SavedT(NestedPlan(), NestedCode(), i) == Saved(i)
  {
    hide NestedCode, NestedPlan, SavedAt, SavedT, Asks, Stocked, NothingCut, Loaded, LoadedT;
    NestedQuad(0);
    NestedFound();
    PassFinds(NestedPlan(), NestedCode(), i);
  }

  lemma CompiledSimple()
    ensures |NestedCode()| == 18 && Compiled(NestedPlan(), NestedCode()).code == NestedCells()
    ensures Simple(Compiled(NestedPlan(), NestedCode()))
    ensures forall i: nat :: i < 18 ==> Compiled(NestedPlan(), NestedCode()).saves(i) == Saved(i)
  {
    hide NestedCode, NestedPlan, SavedAt, Loaded, NestedCells, Stocked;
    PassSeen();
    NestedStocked();
    forall i: nat
      ensures Compiled(NestedPlan(), NestedCode()).spoils(i) == [] && Compiled(NestedPlan(), NestedCode()).keeps(i) == []
    {
    }
  }

  lemma NestedMeans(store: Store, fuel: nat)
    ensures Exec(FirstArgument(), NestedBody(), store, fuel) == Some((store, Returned(ReadName(store, "a", false))))
  {
    var env := FirstArgument();
    InnerMeans("g", "b", store);
    InnerMeans("h", "c", store);
    var b, c, a := ReadName(store, "b", false), ReadName(store, "c", false), ReadName(store, "a", false);
    assert EvalArgs(env, ECons(CallOf("h", OneArg("c")), ENil), store) == Some(([c] + [], store));
    assert EvalArgs(env, ECons(CallOf("g", OneArg("b")), ECons(CallOf("h", OneArg("c")), ENil)), store) == Some(([b] + ([c] + []), store));
    assert EvalArgs(env, Nested().args, store) == Some(([a] + ([b] + ([c] + [])), store));
  }

  lemma InnerMeans(f: string, x: string, store: Store)
    ensures EvalExpr(FirstArgument(), CallOf(f, OneArg(x)), store) == Some((ReadName(store, x, false), store))
  {
    var env, v := FirstArgument(), ReadName(store, x, false);
    assert EvalArgs(env, ENil, store) == Some(([], store));
    assert EvalArgs(env, OneArg(x), store) == Some(([v] + [], store));
  }
}
