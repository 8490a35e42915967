/** Register allocation preserves meaning, calls included: the generator's loop and what its code does. */
module Allocation {
  import opened Words
  import opened Ast
  import opened Quads
  import opened Liveness
  import opened Boundaries
  import opened Needs
  import opened Nests
  import opened CallHomes
  import opened Procedure
  import opened RegAlloc
  import opened Frames
  import opened Calls
  import opened CallSim
  import opened CallRuns
  import opened CallAlloc
  import opened CallPlaces
  import opened CallTable
  import opened CallLabels
  import opened Holding
  import opened Renaming
  import opened RegMachine
  import opened CallMoves
  import opened CallSteps
  import opened Pressure
  import HashMap

  // ----- the allocated code -----

  /** What the generator makes of the code: operands where its hash map finds them when their quad is generated. */
  function CompiledT(pl: Plan, p: Code): Asm
  {
    Asm(seq(|p|, i requires 0 <= i < |p| => MoveQuad(t => PlaceNo(LocOfT(pl.hash, LoadedT(pl, p, i), t)), p[i])),
        (i: nat) => if i < |p| then SavedT(pl, p, i) else [],
        (i: nat) => if i < |p| then Chosen(LoadedT(pl, p, i).stacks, pl.scratch(i), i, false) else [],
        (i: nat) => if i < |p| then Chosen(LoadedT(pl, p, i).stacks, pl.scratch(i), i, true) else [])
  }

  /** What is asked of the generator's pass over some code, all of which can be checked while it is made: the
      procedure is as given; temporaries stay out of the registers of arguments; arguments are temporaries in
      registers, as the generator asserts; a register taken for one quad is neither one that an open call has saved
      and that is free again, nor that of the quad's result, nor that of an argument already passed unless it is in
      use; a call opened among the arguments of another saves those already passed; and writing an argument's new
      place into the hash map of locations cuts off no label that is asked for again. */
  ghost predicate Accepted(pl: Plan, p: Code)
  {
    && Given(pl, p) && Apiece(pl, p) && ScratchFree(pl, p) && Loyal(pl, p) && ArgsInRegs(pl, p)
    && Stocked(pl) && NothingCut(pl, p)
  }

  ghost predicate ArgsInRegs(pl: Plan, p: Code)
  {
    forall i: nat :: i < |p| && IsArg(p[i]) ==> p[i].arg1.ATemp? && RegOf(Loaded(pl, p, i), p[i].arg1).Some?
  }

  lemma AcceptedSetting(pl: Plan, p: Code, home: Homes)
    requires Accepted(pl, p) && Framed(p, home) && Ordered(p)
    ensures Setting(pl, p, home)
  {
    hide Given, Apiece, ScratchFree, Loyal, Framed, Ordered, Stocked, NothingCut, Loaded;
  }

  lemma AcceptedFits(pl: Plan, p: Code, home: Homes)
    requires Accepted(pl, p) && Framed(p, home)
    ensures Fits(pl, p, home) && Stocked(pl) && NothingCut(pl, p) && Asks(p, pl.asks)
  {
    hide Apiece, ScratchFree, Loyal, Framed, Stocked, NothingCut, Loaded, RangesOf, GoodAsk, CgAt, Ready;
  }

  /** With an accepted pass the hash map finds every operand where it has been put. */
  lemma CodeFound(pl: Plan, p: Code)
    requires Stocked(pl) && Asks(p, pl.asks) && NothingCut(pl, p)
    ensures SameAsm(CompiledT(pl, p), Compiled(pl, p))
  {
    hide Stocked, Asks, NothingCut, Loaded, LoadedT, SavedAt, SavedT, LocOf, LocOfT, MoveQuad, PlaceNo, Mentions, Chosen;
    forall i: nat | i < |p|
      ensures CompiledT(pl, p).code[i] == Compiled(pl, p).code[i]
      ensures CompiledT(pl, p).saves(i) == Compiled(pl, p).saves(i) && CompiledT(pl, p).spoils(i) == Compiled(pl, p).spoils(i)
      ensures CompiledT(pl, p).keeps(i) == Compiled(pl, p).keeps(i)
    {
      PassFinds(pl, p, i);
      SameMove(t => PlaceNo(LocOfT(pl.hash, LoadedT(pl, p, i), t)), t => PlaceNo(LocOf(Loaded(pl, p, i), t)), p[i]);
    }
  }

  /** From its first mention to its last, every quad that mentions a temporary finds the same place for it. */
  lemma FoundInOnePlace(pl: Plan, p: Code, home: Homes, i: nat, t: nat)
    requires Accepted(pl, p) && Framed(p, home) && i < |p| && Mentions(p[i], ATemp(t))
    ensures PlaceOf(pl, p, t).Some? && LocOfT(pl.hash, LoadedT(pl, p, i), t) == PlaceOf(pl, p, t)
  {
    hide Accepted, Fits, Framed, Stocked, Asks, NothingCut, Loaded, LoadedT, LocOf, LocOfT, PlaceOf, HomeAt;
    AcceptedFits(pl, p, home);
    RangeHere(pl, p, home, i, t);
    OnePlace(pl, p, home, t, i);
    PassFinds(pl, p, i);
  }

  /** And so does every quad that asks for a variable. */
  lemma NamesInOnePlace(pl: Plan, p: Code, home: Homes, i: nat, a: Addr, j: nat, b: Addr)
    requires Accepted(pl, p) && Framed(p, home) && i <= j < |p| && a in pl.asks(i) && b in pl.asks(j)
    requires a.Var? && b.Var? && a.name == b.name
    ensures HashMap.GetT(pl.hash, LoadedT(pl, p, i).table, a.name).Some?
    ensures HashMap.GetT(pl.hash, LoadedT(pl, p, j).table, a.name) == HashMap.GetT(pl.hash, LoadedT(pl, p, i).table, a.name)
  {
    hide Accepted, Framed, Stocked, NothingCut, Loaded, LoadedT, HashMap.GetT, Asks, Fits;
    AcceptedFits(pl, p, home);
    NameFound(pl, p, i, a);
    NameFound(pl, p, j, b);
    NameStays(pl, p, i, j, a);
  }

  lemma NameFound(pl: Plan, p: Code, i: nat, a: Addr)
    requires Stocked(pl) && Asks(p, pl.asks) && NothingCut(pl, p) && i < |p| && a in pl.asks(i) && a.Var?
    ensures a.name in Loaded(pl, p, i).locs
    ensures HashMap.GetT(pl.hash, LoadedT(pl, p, i).table, a.name) == Some(Loaded(pl, p, i).locs[a.name])
  {
    hide Stocked, Asks, NothingCut, CgAt, LoadedT, HashMap.GetT, StoreAll, Mentions, LocOf, LocOfT;
    PassFinds(pl, p, i);
    AllStored(pl.ranges, CgAt(pl, p, i).alloc, pl.asks(i));
    assert LabelOf(a) == a.name;
  }

  /** What the pass knows of a variable never changes. */
  lemma {:induction false} NameStays(pl: Plan, p: Code, i: nat, j: nat, a: Addr)
    requires Asks(p, pl.asks) && i <= j < |p| && a.Var? && a in pl.asks(i) && a.name in Loaded(pl, p, i).locs
    ensures a.name in Loaded(pl, p, j).locs && Loaded(pl, p, j).locs[a.name] == Loaded(pl, p, i).locs[a.name]
    decreases j
  {
    hide CgAt, Loaded, GoodAsk;
    if i < j {
      NameStays(pl, p, i, j - 1, a);
      NextName(pl, p, j - 1, a.name) by { assert GoodAsk(p[i], a); PlainAsk(p[i], a); }
    }
  }

  lemma PlainAsk(q: Quad, a: Addr)
    requires GoodAsk(q, a) && a.Var?
    ensures PlainName(a.name)
  {
  }

  lemma NextName(pl: Plan, p: Code, j: nat, x: string)
    requires j + 1 < |p| && x in Loaded(pl, p, j).locs && PlainName(x)
    ensures x in Loaded(pl, p, j + 1).locs && Loaded(pl, p, j + 1).locs[x] == Loaded(pl, p, j).locs[x]
  {
    hide CgAt, StoreAll, TempLabel, MarkAll, Close, Brackets, Reserve;
    NextRecord(pl, p, j);
    AllStored(pl.ranges, CgAt(pl, p, j + 1).alloc, pl.asks(j + 1));
  }

  // ----- the places that are found -----

  /** Where the table finds a temporary when it is first mentioned. */
  function FoundPlace(pl: Plan, p: Code, t: nat): Option<Loc>
  {
    if t in pl.ranges && pl.ranges[t].starts < |p| then LocOfT(pl.hash, LoadedT(pl, p, pl.ranges[t].starts), t) else None
  }

  lemma FoundIsPlace(pl: Plan, p: Code, home: Homes, t: nat)
    requires Accepted(pl, p) && Framed(p, home)
    ensures FoundPlace(pl, p, t) == PlaceOf(pl, p, t)
  {
    hide Accepted, Framed, LoadedT, Loaded, LocOf, LocOfT, NothingCut, Stocked, Fits, GoodAsk;
    AcceptedFits(pl, p, home);
    if t in pl.ranges && pl.ranges[t].starts < |p| {
      assert RangesOf(p, pl.ranges) by { FitsRanges(pl, p, home); }
      FirstThere(p, pl.ranges, t);
      PassFinds(pl, p, pl.ranges[t].starts);
    }
  }

  lemma FitsRanges(pl: Plan, p: Code, home: Homes)
    requires Fits(pl, p, home)
    ensures RangesOf(p, pl.ranges)
  {
    FitsParts(pl, p, home);
    GivenReady(pl, p);
  }

  /** At every quad, inside any nest of calls: every temporary between its first and last mention has been found a
      place, in the frame or in a register no argument is passed in; temporaries of the same call are in different
      registers; and whatever else the table finds, all slots it finds are apart and within reach. */
  lemma PlacesSound(pl: Plan, p: Code, home: Homes, i: nat)
    requires Accepted(pl, p) && Framed(p, home) && i < |p|
    ensures LoadedT(pl, p, i).lStack <= 0x8000
    ensures forall t: nat :: Spanned(pl, i, t) ==>
                               && FoundPlace(pl, p, t).Some? && OwnPlace(FoundPlace(pl, p, t).value)
                               && (FoundPlace(pl, p, t).value.InReg? ==> Spare(FoundPlace(pl, p, t).value.reg))
    ensures forall t: nat, u: nat :: Together(pl, home, i, t, u) ==> Different(FoundPlace(pl, p, t), FoundPlace(pl, p, u))
    ensures forall x, y :: x != y && FoundAt(pl, p, i, x).Some? && FoundAt(pl, p, i, y).Some? ==>
                             Apart(FoundAt(pl, p, i, x).value, FoundAt(pl, p, i, y).value)
  {
    hide Accepted, Framed, LoadedT, Loaded, LocOf, NothingCut, Stocked, Fits, FoundPlace, PlaceOf, Asks, HashMap.GetT, Apart;
    AcceptedFits(pl, p, home);
    AllocationSound(pl, p, home, i);
    PassFinds(pl, p, i);
    forall t: nat
      ensures FoundPlace(pl, p, t) == PlaceOf(pl, p, t)
      ensures Spanned(pl, i, t) ==> PlacedAt(pl, p, i, t)
    {
      FoundIsPlace(pl, p, home, t);
    }
  }

  /** What the table finds under a label when the operands of a quad have been stored. */
  function FoundAt(pl: Plan, p: Code, i: nat, x: string): Option<Loc>
    requires i < |p|
  {
    HashMap.GetT(pl.hash, LoadedT(pl, p, i).table, x)
  }

  /** Where a call is opened every register with a temporary that is mentioned later is saved, unless the temporary is
      the call's result; and the result's register is not. */
  lemma SavedSound(pl: Plan, p: Code, home: Homes, i: nat, t: nat)
    requires Accepted(pl, p) && Framed(p, home) && i < |p| && IsHint(p[i]) && t in pl.ranges
    requires pl.ranges[t].starts <= i < pl.ranges[t].ends
    ensures FoundPlace(pl, p, t).Some?
    ensures FoundPlace(pl, p, t).value.InReg? && home(t) == OpenAt(p, i) && p[i].res != ATemp(t) ==>
              FoundPlace(pl, p, t).value.reg in SavedT(pl, p, i)
    ensures FoundPlace(pl, p, t).value.InReg? && p[i].res == ATemp(t) ==> FoundPlace(pl, p, t).value.reg !in SavedT(pl, p, i)
  {
    hide Accepted, Framed, LoadedT, Loaded, NothingCut, Stocked, Fits, FoundPlace, PlaceOf, Asks, SavedT, SavedAt, NestAt;
    AcceptedFits(pl, p, home);
    SavedWhereNeeded(pl, p, home, i, t);
    PassFinds(pl, p, i);
    FoundIsPlace(pl, p, home, t);
  }

  // ----- meaning is kept -----

  /** The allocated code runs in step with the quads: for any number of steps, from any cells, whatever callees
      leave in registers, calls in arguments included. */
  lemma AllocatedAlike(env: Env, junk: Junk, pl: Plan, p: Code, home: Homes, s: State, cells: Temps, time: nat, n: nat)
    requires Accepted(pl, p) && Framed(p, home) && Ordered(p) && s.pc == 0 && s.frames == []
    ensures SimStatus(pl, p, home, Run(env, p, s, n), RRun(env, junk, CompiledT(pl, p), RState(0, cells, s.store, [], time), n))
  {
    hide Accepted, Setting, Sim, Framed, Ordered, SameAsm, Asks, Stocked, NothingCut, CompiledT, Compiled, Fits;
    AcceptedSetting(pl, p, home);
    AcceptedFits(pl, p, home);
    CodeFound(pl, p);
    StartSim(pl, p, home, s, cells, time);
    RunsAlike(env, junk, pl, p, home, s, RState(0, cells, s.store, [], time), n);
    SameRuns(env, junk, CompiledT(pl, p), Compiled(pl, p), RState(0, cells, s.store, [], time), n);
  }

  lemma HaltsAlike(pl: Plan, p: Code, home: Homes, b: RStatus, v: Val, store: Store)
    requires SimStatus(pl, p, home, Halt(v, store), b)
    ensures b == RHalt(v, store)
  {
  }

  /** From source to registers: the allocated code of a body that ends returns what the body returns. */
  lemma AllocatedRuns(env: Env, junk: Junk, body: Stmt, l: nat, pl: Plan, s: Store, fuel: nat, cells: Temps, time: nat)
    requires WellFormed(body, false) && Accepted(pl, ProcCode(body, l)) && Exec(env, body, s, fuel).Some?
    ensures var (s', o) := Exec(env, body, s, fuel).value;
            exists n: nat :: RRun(env, junk, CompiledT(pl, ProcCode(body, l)), RState(0, cells, s, [], time), n) ==
                             RHalt(Result(o), s')
  {
    hide ProcCode, Accepted, Run, RRun, Exec, Ordered, Framed, CompiledT, SimStatus;
    var p := ProcCode(body, l);
    var (s', o) := Exec(env, body, s, fuel).value;
    ProcedureRuns(env, body, l, s, fuel, []);
    ProcedureOrdered(body, l);
    var home, _ := ProcedureFramed(body, l);
    var s0 := State(0, map[], s, []);
    var n: nat :| Run(env, p, s0, n) == Halt(Result(o), s');
    AllocatedAlike(env, junk, pl, p, home, s0, cells, time, n);
    HaltsAlike(pl, p, home, RRun(env, junk, CompiledT(pl, p), RState(0, cells, s, [], time), n), Result(o), s');
  }

  /** The registers the pass finds in use are those CallRuns is about: over any run of a procedure's code the
      stack and the saved registers are given back, and they are saved exactly when in use and not the result's. */
  lemma SavedRegistersBalance(pl: Plan, body: Stmt, l: nat, base: seq<Word>, run: seq<Point>, k: nat)
    requires WellFormed(body, false) && CallRuns.RunOf(SavedByT(pl, ProcCode(body, l)), body, l, base, run) && k < |run|
    ensures var p := ProcCode(body, l);
            && run[k].pc <= |p|
            && 8 * |run[k].cpu.stack| == 8 * |base| + CgAtT(pl, p, run[k].pc).gen.alloc
            && (k + 1 < |run| ==> run[k].pc < |p| && GivesBack(SavedByT(pl, p), p, run[k], run[k + 1]))
            && (run[k].pc < |p| && IsHint(p[run[k].pc]) ==>
                  var S := LoadedT(pl, p, run[k].pc);
                  forall r :: r in SavedByT(pl, p)(run[k].pc) <==>
                              InUse(S.stacks, r, run[k].pc) && RegOfT(pl.hash, S, p[run[k].pc].res) != Some(r))
  {
    hide ProcCode, GivesBack, GenAt, CgAtT, LoadedT, InUse, BusyRegs, CallRuns.RunOf, RegOfT;
    var p := ProcCode(body, l);
    CallsBalance(SavedByT(pl, p), body, l, base, run, k);
    RecordOfT(pl, p, run[k].pc);
    if run[k].pc < |p| && IsHint(p[run[k].pc]) {
      var S := LoadedT(pl, p, run[k].pc);
      forall r
        ensures r in BusyRegs(S.stacks, run[k].pc, RegOfT(pl.hash, S, p[run[k].pc].res)) <==>
                InUse(S.stacks, r, run[k].pc) && RegOfT(pl.hash, S, p[run[k].pc].res) != Some(r)
      {
        SavedRegs(S.stacks, run[k].pc, RegOfT(pl.hash, S, p[run[k].pc].res), r);
      }
    }
  }

  // ----- when the pass is accepted, and what goes wrong when it is not -----

  /** No call is opened after an argument of the call around it has been passed: calls stand in first arguments. */
  ghost predicate CallsFirst(p: Code)
  {
    forall i: nat :: i < |p| && IsHint(p[i]) ==> ArgsAt(p, i) == [] || ArgsAt(p, i)[|ArgsAt(p, i)| - 1] == 0
  }

  /** With at most as many temporaries at a time as there are registers no argument is passed in, eight without those
      a quad takes for itself; calls in first arguments only; registers taken outside of calls, around the result;
      names known before they are used in calls; and fewer labels than make the hash map grow: the pass meets all that
      is asked of it. */
  lemma RoomyAccepted(pl: Plan, p: Code, home: Homes, spot: Spots)
    requires RoomySetting(pl, p, home) && CallsFirst(p)
    requires Stocked(pl) && pl.table.cap >= 2 && Spotted(p, spot) && NamesFirst(pl, p) && FewLabels(pl, p)
    ensures Accepted(pl, p)
  {
    hide Given, Framed, Roomy, Loaded, CgAt, NestAt, SavedAt, Stocked, Spotted, NamesFirst, FewLabels, NothingCut, RoomySetting,
         ScratchOk, RegOf;
    assert Given(pl, p) && Framed(p, home) by { RoomyParts(pl, p, home); }
    RoomyApiece(pl, p, home);
    forall i: nat | i < |p|
      ensures LoyalAt(pl, p, i) && ScratchOk(pl, p, i)
      ensures IsArg(p[i]) ==> p[i].arg1.ATemp? && RegOf(Loaded(pl, p, i), p[i].arg1).Some?
    {
      RoomyQuad(pl, p, home, i);
    }
    assert Filing(pl, p, home, spot) by { GivenFiling(pl, p, home, spot); }
    FewLabelsFind(pl, p, home, spot);
  }

  lemma RoomyParts(pl: Plan, p: Code, home: Homes)
    requires RoomySetting(pl, p, home)
    ensures Given(pl, p) && Framed(p, home)
  {
  }

  lemma GivenFiling(pl: Plan, p: Code, home: Homes, spot: Spots)
    requires Given(pl, p) && Framed(p, home) && Spotted(p, spot) && NamesFirst(pl, p) && Stocked(pl) && pl.table.cap >= 2
    ensures Filing(pl, p, home, spot)
  {
    hide Framed, Spotted, NamesFirst, Stocked, CgAt, LocOf, SlotsApart;
    GivenReady(pl, p);
  }

  /** A call made while an argument of the call around it is in a register: the argument has the value v
      afterwards, whatever the callee leaves in registers, if and only if the call has saved v for it. */
  lemma ArgSurvivesExactly(env: Env, res: Operand, g: Val, s: RState, h: nat, j: nat, v: Val)
    requires g.Fn? && h + 2 == |s.frames| && j < s.frames[h].inRegs && j < |PARAM_ORDER|
    requires var f := s.frames[h + 1]; env(g.name, RegArgs(s.cells, f.inRegs) + f.rest, s.store).Some?
    requires res.ATemp? ==> res.t != Param(j)
    ensures (forall junk: Junk :: ArgOnReturn(env, junk, res, g, s, h, j) == Some(v)) <==>
            Param(j) in s.frames[h + 1].saved && Get(s.frames[h + 1].saved, Param(j)) == v
  {
    hide ArgOnReturn, Param;
    var f := s.frames[h + 1];
    forall junk: Junk
      ensures ArgOnReturn(env, junk, res, g, s, h, j) ==
              Some(if Param(j) in f.saved then Get(f.saved, Param(j)) else junk(s.time, Param(j)))
    {
      OnReturn(env, junk, res, g, s, h, j);
    }
    var other := if v == Void then Num(0) else Void;
    var junk: Junk := (time, n) => other;
    assert ArgOnReturn(env, junk, res, g, s, h, j) != Some(v) || Param(j) in f.saved;
  }

  lemma OnReturn(env: Env, junk: Junk, res: Operand, g: Val, s: RState, h: nat, j: nat)
    requires g.Fn? && h + 2 == |s.frames| && j < s.frames[h].inRegs && j < |PARAM_ORDER|
    requires var f := s.frames[h + 1]; env(g.name, RegArgs(s.cells, f.inRegs) + f.rest, s.store).Some?
    requires res.ATemp? ==> res.t != Param(j)
    ensures var f := s.frames[h + 1];
            ArgOnReturn(env, junk, res, g, s, h, j) ==
            Some(if Param(j) in f.saved then Get(f.saved, Param(j)) else junk(s.time, Param(j)))
  {
    hide Spoil, Restore, RegArgs, SetTemp, Param;
    var f := s.frames[h + 1];
    var (v, store) := env(g.name, RegArgs(s.cells, f.inRegs) + f.rest, s.store).value;
    AllNumbers(Param(j));
    ParamNumber(j);
    CellOnReturn(s.cells, f.saved, res, v, junk, s.time, Param(j));
    assert Front(s.frames)[h] == s.frames[h];
  }

  lemma CellOnReturn(cells: Temps, saved: Temps, res: Operand, v: Val, junk: Junk, time: nat, n: nat)
    requires n in Numbers(SAVE_ORDER) && (res.ATemp? ==> res.t != n)
    ensures Get(Restore(SetTemp(res, v, Spoil(cells, SAVE_ORDER, junk, time)), saved), n) ==
            if n in saved then Get(saved, n) else junk(time, n)
  {
    hide Numbers;
  }

  lemma ParamNumber(j: nat)
    requires j < |PARAM_ORDER|
    ensures !IsSlot(Param(j))
  {
  }

  /** The argument as the call around it finds it when the inner call has returned. */
  function ArgOnReturn(env: Env, junk: Junk, res: Operand, g: Val, s: RState, h: nat, j: nat): Option<Val>
  {
    match RCall(env, junk, res, g, s)
    case RAt(t) => if h < |t.frames| then Some(ArgView(t, h, j)) else None
    case _ => None
  }

  /** The call opened by a hint stays open. */
  ghost predicate StaysOpen(env: Env, junk: Junk, m: Asm, s: RState, n: nat, h: nat)
    decreases n
  {
    |s.frames| >= h + 2
    && (n > 0 ==> match RStep(env, junk, m, s)
        case RAt(s1) => StaysOpen(env, junk, m, s1, n - 1, h)
        case _ => false)
  }

  lemma StepKeepsSaved(env: Env, junk: Junk, m: Asm, s: RState, h: nat)
    requires |s.frames| >= h + 2 && RStep(env, junk, m, s).RAt? && |RStep(env, junk, m, s).s.frames| >= h + 2
    ensures var s1 := RStep(env, junk, m, s).s; s1.frames[h + 1].saved == s.frames[h + 1].saved && s1.frames[h] == s.frames[h]
  {
    hide Step, Spoil, Restore, RegArgs, SetTemp, Scratched, Snapshot, Read;
  }

  lemma {:induction false} SavedWhileOpen(env: Env, junk: Junk, m: Asm, s: RState, n: nat, h: nat)
    requires StaysOpen(env, junk, m, s, n, h)
    ensures RRun(env, junk, m, s, n).RAt?
    ensures var s' := RRun(env, junk, m, s, n).s;
            |s'.frames| >= h + 2 && s'.frames[h + 1].saved == s.frames[h + 1].saved && s'.frames[h] == s.frames[h]
    decreases n
  {
    hide RStep;
    if n > 0 {
      StepKeepsSaved(env, junk, m, s, h);
      SavedWhileOpen(env, junk, m, RStep(env, junk, m, s).s, n - 1, h);
    }
  }

  /** An argument is in its register when a call among the arguments that follow is opened; whatever that call's own
      arguments do, and calls inside them: when it has returned the argument is what it was, whatever the callee left
      in registers, if and only if the generator saved the register where it opened the call. */
  lemma ArgKeptExactly(env: Env, junk: Junk, m: Asm, s: RState, n: nat, j: nat, res: Operand, g: Val)
    requires s.pc < |m.code| && IsHint(m.code[s.pc]) && s.frames != [] && j < |PARAM_ORDER|
    requires var h := |s.frames| - 1;
             && j < s.frames[h].inRegs && RStep(env, junk, m, s).RAt? && StaysOpen(env, junk, m, RStep(env, junk, m, s).s, n, h)
    requires RRun(env, junk, m, RStep(env, junk, m, s).s, n).RAt?
    requires var h, s' := |s.frames| - 1, RRun(env, junk, m, RStep(env, junk, m, s).s, n).s;
             && |s'.frames| == h + 2 && g.Fn? && (res.ATemp? ==> res.t != Param(j))
             && var f := s'.frames[h + 1]; env(g.name, RegArgs(s'.cells, f.inRegs) + f.rest, s'.store).Some?
    ensures var h, s' := |s.frames| - 1, RRun(env, junk, m, RStep(env, junk, m, s).s, n).s;
            (forall any: Junk :: ArgOnReturn(env, any, res, g, s', h, j) == Some(Get(s.cells, Param(j)))) <==>
            PARAM_ORDER[j] in m.saves(s.pc)
  {
    hide StaysOpen, RRun, ArgOnReturn, RegArgs, Param;
    var h, s1 := |s.frames| - 1, RStep(env, junk, m, s).s;
    var s' := RRun(env, junk, m, s1, n).s;
    assert s1.frames == s.frames + [RFrame(Snapshot(s.cells, m.saves(s.pc)), 0, [])] by { OpensFrame(env, junk, m, s); }
    SavedWhileOpen(env, junk, m, s1, n, h);
    ArgSurvivesExactly(env, res, g, s', h, j, Get(s.cells, Param(j)));
    assert Param(j) == RegNumber(PARAM_ORDER[j]) by { ParamIs(j); }
    InNumbers(PARAM_ORDER[j], m.saves(s.pc));
  }

  lemma OpensFrame(env: Env, junk: Junk, m: Asm, s: RState)
    requires s.pc < |m.code| && IsHint(m.code[s.pc])
    ensures RStep(env, junk, m, s) ==
            RAt(s.(pc := s.pc + 1, frames := s.frames + [RFrame(Snapshot(s.cells, m.saves(s.pc)), 0, [])]))
  {
    hide Step, Spoil, Restore, Snapshot, Read;
  }

  lemma ParamIs(j: nat)
    requires j < |PARAM_ORDER|
    ensures Param(j) == RegNumber(PARAM_ORDER[j])
  {
  }

  // ----- the generator's loop -----

  method StoreEach(a: Allocator, addrs: seq<Addr>)
    requires a.Valid() && forall x :: x in addrs && x.Cgt? ==> x.held == []
    modifies a, a.locs
    ensures a.Valid() && a.State() == StoreAllT(a.locs.hash, a.ranges, old(a.State()), addrs)
  {
    hide StoredT;
    assert addrs[..0] == [];
    for i := 0 to |addrs|
      invariant a.Valid() && a.State() == StoreAllT(a.locs.hash, a.ranges, old(a.State()), addrs[..i])
    {
      assert Front(addrs[..i + 1]) == addrs[..i];
      var _ := a.Store(addrs[i]);
    }
    assert addrs[..|addrs|] == addrs;
  }

  /** Registers taken for the length of a quad. */
  method TakeEach(a: Allocator, regs: seq<Reg>, pos: nat)
    modifies a`stacks
    ensures a.stacks == ReserveAll(old(a.stacks), regs, pos)
  {
    assert regs[..0] == [];
    for i := 0 to |regs|
      invariant a.stacks == ReserveAll(old(a.stacks), regs[..i], pos)
    {
      assert Front(regs[..i + 1]) == regs[..i];
      var _ := a.ReserveReg(regs[i], pos);
    }
    assert regs[..|regs|] == regs;
  }

  /** And given back, the last one first. */
  method GiveEach(a: Allocator, regs: seq<Reg>)
    modifies a`stacks
    ensures a.stacks == DropBack(old(a.stacks), regs)
  {
    hide Drop;
    var i := |regs|;
    assert regs[..i] == regs;
    while i > 0
      invariant 0 <= i <= |regs| && DropBack(a.stacks, regs[..i]) == DropBack(old(a.stacks), regs)
    {
      i := i - 1;
      assert Front(regs[..i + 1]) == regs[..i];
      a.PopReg(regs[i]);
    }
  }

  /** What is asked for while one quad is generated: most operands first, some while it holds registers. */
  ghost predicate QuadAsked(pl: Plan, q: Quad, i: nat, early: seq<Addr>, late: seq<Addr>, scratch: seq<Reg>)
  {
    && pl.asks(i) == early + HoldAll(late, scratch) && pl.scratch(i) == scratch && Distinct(scratch)
    && (forall a :: a in early && a.Cgt? ==> a.held == []) && (forall a :: a in late ==> Meets(pl.ranges, a, i))
    && (!Inside(q) ==> late == [])
  }

  /** One quad: operands are stored, registers taken, the remaining operands stored and the registers given back; and
      what its kind asks for is done to the registers and to the record. */
  method GenQuad(a: Allocator, g: CallGenerator, ghost pl: Plan, q: Quad, i: nat, early: seq<Addr>, late: seq<Addr>,
                 scratch: seq<Reg>)
    requires Accounted(g.State()) && a.Valid() && pl.hash == a.locs.hash && pl.ranges == a.ranges
    requires QuadAsked(pl, q, i, early, late, scratch)
    modifies a, a.locs, g
    ensures Accounted(g.State()) && a.Valid()
    ensures var S, G := StoreAllT(pl.hash, pl.ranges, old(a.State()), pl.asks(i)), old(g.State());
            var saved := if IsHint(q) then BusyRegs(S.stacks, i, RegOfT(pl.hash, S, q.res)) else [];
            a.State() == AfterT(pl, q, i, S, G, saved) && g.State() == Effect(saved, q, G)
  {
    hide Accounted, BusyRegs, StoreAllT, Brackets, CallText, Pushes, DropAll, ReserveAll, DropBack, HashMap.PutT, HashMap.GetT,
         TempLabel, Placed, MarkAll;
    ghost var S0 := a.State();
    StoreEach(a, early);
    ghost var S1 := a.State();
    StoreJoin(pl.hash, pl.ranges, S0, early, HoldAll(late, scratch));
    if Inside(q) {
      TakeEach(a, scratch, i);
      AllHeld(pl.hash, pl.ranges, S1, scratch, i, late);
      StoreEach(a, late);
      ghost var S := StoreAllT(pl.hash, pl.ranges, S1, HoldAll(late, scratch));
      HeldBrackets(S.stacks, scratch, i);
      GiveEach(a, scratch);
    } else {
      ghost var S, G := a.State(), g.State();
      assert early + HoldAll(late, scratch) == early;
      StepsAccounted(G, if IsHint(q) then BusyRegs(S.stacks, i, RegOfT(pl.hash, S, q.res)) else []);
      if IsHint(q) {
        var res: Option<Reg> := None;
        if q.res.ATemp? {
          var has := a.locs.Has(TempLabel(q.res.t));
          if has {
            var loc := a.locs.Get(TempLabel(q.res.t));
            res := if loc.InReg? then Some(loc.reg) else None;
          }
        }
        var pushed := a.SaveBusy(i, res);
        g.OpDeclCall(pushed);
      } else if IsArg(q) {
        if g.callStates != [] {
          var c := g.callStates[|g.callStates| - 1];
          if q.arg1.ATemp? {
            var _ := a.StoreParam(TempLabel(q.arg1.t), Calls.Passed(c), i, 0);
          }
          g.OpArg();
        }
      } else if IsCall(q) {
        if g.callStates != [] {
          var c := g.callStates[|g.callStates| - 1];
          a.CloseRegs(ArgRegs(c), c.pushed);
          g.OpCall();
        }
      }
    }
  }

  /** All quads of a procedure in turn: the allocator and the record end as the one pass says. */
  method GenQuads(a: Allocator, g: CallGenerator, ghost pl: Plan, p: Code, early: nat -> seq<Addr>, late: nat -> seq<Addr>,
                  scratch: nat -> seq<Reg>)
    requires g.State() == Gen(0, []) && a.Valid() && pl.hash == a.locs.hash && pl.ranges == a.ranges
    requires a.State() == AllocT(pl.start.stacks, pl.table, pl.start.lStack)
    requires forall i: nat :: i < |p| ==> QuadAsked(pl, p[i], i, early(i), late(i), scratch(i))
    modifies a, a.locs, g
    ensures a.Valid() && a.State() == CgAtT(pl, p, |p|).alloc && g.State() == CgAtT(pl, p, |p|).gen
  {
    hide Accounted, AfterT, Effect, StoreAllT, SavedT, QuadAsked;
    assert Accounted(Gen(0, [])) by { NothingAccounted(); }
    for i := 0 to |p|
      invariant Accounted(g.State()) && a.Valid()
      invariant a.State() == CgAtT(pl, p, i).alloc && g.State() == CgAtT(pl, p, i).gen
    {
      GenQuad(a, g, pl, p[i], i, early(i), late(i), scratch(i));
      SavedIs(pl, p, i);
    }
  }

  lemma NothingAccounted()
    ensures Accounted(Gen(0, []))
  {
  }

  lemma SavedIs(pl: Plan, p: Code, i: nat)
    requires i < |p|
    ensures var S := LoadedT(pl, p, i);
            SavedT(pl, p, i) == if IsHint(p[i]) then BusyRegs(S.stacks, i, RegOfT(pl.hash, S, p[i].res)) else []
  {
    hide LoadedT, BusyRegs;
  }
}
