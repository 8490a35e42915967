/** Allocated code does what the quads do: the relation between their states, and quads that do not concern calls. */
module CallMoves {
  import opened Ast
  import opened Quads
  import opened Liveness
  import opened Needs
  import opened LiveRanges
  import opened Nests
  import opened RegAlloc
  import opened Frames
  import opened Calls
  import opened CallSim
  import opened CallAlloc
  import opened CallPlaces
  import opened Renaming
  import opened RegMachine

  // ----- the allocated code -----

  ghost function Cells(pl: Plan, p: Code): Places
  {
    (t: nat) => PlaceNo(PlaceOf(pl, p, t))
  }

  /** Those of the registers that are in use, or those that are not. */
  function Chosen(k: Stacks, regs: seq<Reg>, pos: nat, inUse: bool): (r: seq<Reg>)
    ensures forall q :: q in r <==> q in regs && InUse(k, q, pos) == inUse
  {
    if regs == [] then []
    else if InUse(k, regs[0], pos) == inUse then [regs[0]] + Chosen(k, regs[1..], pos, inUse)
    else Chosen(k, regs[1..], pos, inUse)
  }

  /** What the generator makes of the code: operands where they are when their quad is generated. */
  function Compiled(pl: Plan, p: Code): Asm
  {
    Asm(seq(|p|, i requires 0 <= i < |p| => MoveQuad(t => PlaceNo(LocOf(Loaded(pl, p, i), t)), p[i])),
        (i: nat) => if i < |p| then SavedAt(pl, p, i) else [],
        (i: nat) => if i < |p| then Chosen(Loaded(pl, p, i).stacks, pl.scratch(i), i, false) else [],
        (i: nat) => if i < |p| then Chosen(Loaded(pl, p, i).stacks, pl.scratch(i), i, true) else [])
  }

  /** The argument registers that hold arguments of the innermost open call. */
  predicate HoldsArg(p: Code, i: nat, r: Reg)
    requires i <= |p|
  {
    ArgsAt(p, i) != [] && exists j :: 0 <= j < |PARAM_ORDER| && j < ArgsAt(p, i)[|ArgsAt(p, i)| - 1] && PARAM_ORDER[j] == r
  }

  /** Arguments already in registers are saved by a call opened among those that follow, and a quad takes neither
      the register of such an argument, unless it is in use, nor that of its own result. */
  ghost predicate LoyalAt(pl: Plan, p: Code, i: nat)
    requires i < |p|
  {
    && (IsHint(p[i]) ==> forall r :: HoldsArg(p, i, r) ==> r in SavedAt(pl, p, i))
    && (Inside(p[i]) ==>
          forall r :: r in pl.scratch(i) ==>
                        RegOf(Loaded(pl, p, i), p[i].res) != Some(r) && (HoldsArg(p, i, r) ==> InUse(Loaded(pl, p, i).stacks, r, i)))
  }

  ghost predicate Loyal(pl: Plan, p: Code)
  {
    forall i: nat :: i < |p| ==> LoyalAt(pl, p, i)
  }

  lemma SameMove(f: Places, g: Places, q: Quad)
    requires forall t: nat :: Mentions(q, ATemp(t)) ==> f(t) == g(t)
    ensures MoveQuad(f, q) == MoveQuad(g, q)
  {
    if q.Quad? {
      assert forall t: nat :: q.res == ATemp(t) ==> Mentions(q, ATemp(t));
      assert forall t: nat :: q.arg1 == ATemp(t) ==> Mentions(q, ATemp(t));
      assert forall t: nat :: q.arg2 == ATemp(t) ==> Mentions(q, ATemp(t));
    }
  }

  lemma RangeHere(pl: Plan, p: Code, home: Homes, i: nat, t: nat)
    requires Fits(pl, p, home) && i < |p| && Mentions(p[i], ATemp(t))
    ensures t in pl.ranges && pl.ranges[t].starts <= i <= pl.ranges[t].ends < |p| && home(t) == HomeAt(p, i, t)
  {
    hide Framed, Given, HomeAt;
    FitsParts(pl, p, home);
    GivenReady(pl, p);
    MentionRange(p, pl.ranges, i, t);
    HomeHere(p, home, i, t);
  }

  /** A temporary has the same cell in every quad. */
  lemma CodeMoved(pl: Plan, p: Code, home: Homes)
    requires Fits(pl, p, home)
    ensures Compiled(pl, p).code == Move(Cells(pl, p), p)
  {
    hide Fits, Loaded, PlaceOf, MoveQuad, LocOf, PlaceNo;
    forall i: nat | i < |p|
      ensures Compiled(pl, p).code[i] == MoveQuad(Cells(pl, p), p[i])
    {
      forall t: nat | Mentions(p[i], ATemp(t))
        ensures LocOf(Loaded(pl, p, i), t) == PlaceOf(pl, p, t)
      {
        RangeHere(pl, p, home, i, t);
        OnePlace(pl, p, home, t, i);
      }
      SameMove(t => PlaceNo(LocOf(Loaded(pl, p, i), t)), Cells(pl, p), p[i]);
    }
  }

  // ----- places -----

  ghost predicate Spanned(pl: Plan, i: nat, t: nat)
  {
    t in pl.ranges && pl.ranges[t].starts <= i <= pl.ranges[t].ends
  }

  lemma CellKind(pl: Plan, p: Code, home: Homes, i: nat, t: nat)
    requires Fits(pl, p, home) && i < |p| && Spanned(pl, i, t)
    ensures PlacedAt(pl, p, i, t)
    ensures IsSlot(Cells(pl, p)(t)) <==> PlaceOf(pl, p, t).value.OnStack?
    ensures forall j :: 0 <= j < |PARAM_ORDER| ==> Cells(pl, p)(t) != Param(j)
  {
    hide Fits, Loaded, PlaceOf, LocOf, SlotsApart;
    AllocationSound(pl, p, home, i);
    assert PlacedAt(pl, p, i, t);
    var loc := PlaceOf(pl, p, t).value;
    forall j | 0 <= j < |PARAM_ORDER|
      ensures Cells(pl, p)(t) != Param(j)
    {
      if loc.InReg? && RegNumber(loc.reg) == RegNumber(PARAM_ORDER[j]) {
        NumberUnique(loc.reg, PARAM_ORDER[j]);
      }
    }
  }

  /** Two temporaries between their first and last mention that live in the same call, or of which one is in the
      frame, have different cells. */
  lemma CellsApart(pl: Plan, p: Code, home: Homes, i: nat, t: nat, u: nat)
    requires Fits(pl, p, home) && i < |p| && t != u && Spanned(pl, i, t) && Spanned(pl, i, u)
    requires home(t) == home(u) || IsSlot(Cells(pl, p)(t)) || IsSlot(Cells(pl, p)(u))
    ensures Cells(pl, p)(t) != Cells(pl, p)(u)
  {
    hide Fits, Loaded, PlaceOf, SlotsApart, TempLabel;
    AllocationSound(pl, p, home, i);
    CellKind(pl, p, home, i, t);
    CellKind(pl, p, home, i, u);
    var a, b := PlaceOf(pl, p, t).value, PlaceOf(pl, p, u).value;
    if a.OnStack? && b.OnStack? {
      DifferentLabels(t, u);
      SlotsOf(Loaded(pl, p, i), TempLabel(t), TempLabel(u));
    } else if a.InReg? && b.InReg? {
      assert Together(pl, home, i, t, u);
      if RegNumber(a.reg) == RegNumber(b.reg) {
        NumberUnique(a.reg, b.reg);
      }
    }
  }

  lemma SlotsOf(S: Alloc, x: string, y: string)
    requires SlotsApart(S) && S.lStack <= 0x8000 && x in S.locs && y in S.locs && x != y
    requires S.locs[x].OnStack? && S.locs[y].OnStack? && S.locs[x].size > 0 && S.locs[y].size > 0
    ensures PlaceNo(Some(S.locs[x])) != PlaceNo(Some(S.locs[y]))
  {
    assert Apart(S.locs[x], S.locs[y]);
  }

  /** What is needed where control can come lies between its mentions, in calls that are open. */
  lemma NeededHere(pl: Plan, p: Code, home: Homes, pc: nat, t: nat)
    requires Fits(pl, p, home) && Ordered(p) && Reach(p, pc) && NeedAt(p, pc, t)
    ensures pc < |p| && t in pl.ranges && pl.ranges[t].starts < pc <= pl.ranges[t].ends && home(t) <= OpenAt(p, pc)
  {
    hide Ordered, Reach, NeedAt, NestAt, Housed;
    FitsParts(pl, p, home);
    GivenReady(pl, p);
    assert Spans(p, |p|, TempKey(t), RangeOf(pl.ranges, t));
    RangesCover(p, pc, t, RangeOf(pl.ranges, t));
    AliveHome(pl, p, home, t, pc);
  }

  // ----- the record at a point -----

  lemma RecordSize(pl: Plan, p: Code, home: Homes, i: nat)
    requires Fits(pl, p, home) && i <= |p|
    ensures |Record(pl, p, i)| == |OpenAt(p, i)| == |ArgsAt(p, i)|
  {
    hide Fits, CgAt, NestAt, Loaded, Shaped, KeptAll, RegsApart, Known;
    PassAlways(pl, p, home, i);
    NestSizes(p, i);
  }

  lemma NewestOpening(q: Quad, n: Nest, a: nat)
    requires a < |Enter(q, n).open|
    ensures Enter(q, n).open[a].k == n.count || (a < |n.open| && n.open[a] == Enter(q, n).open[a])
  {
  }

  lemma EffectKeeps(saved: seq<Reg>, q: Quad, g: Gen, a: nat)
    requires a < |g.calls| && a < |Effect(saved, q, g).calls|
    ensures Effect(saved, q, g).calls[a].pushed == g.calls[a].pushed
  {
  }

  /** The same call has the same registers saved wherever it is open. */
  lemma {:induction false} SavedStays(pl: Plan, p: Code, home: Homes, i: nat, j: nat, a: nat)
    requires Fits(pl, p, home) && i <= j <= |p| && a < |OpenAt(p, i)| && a < |OpenAt(p, j)|
    requires OpenAt(p, i)[a] == OpenAt(p, j)[a]
    requires a < |Record(pl, p, i)| && a < |Record(pl, p, j)|
    ensures Record(pl, p, i)[a].pushed == Record(pl, p, j)[a].pushed
    decreases j
  {
    hide Fits, CgAt, Enter, Loaded, Effect, SavedAt;
    if i < j {
      OpenOlder(p, i);
      CountGrows(p, i, j - 1);
      NewestOpening(p[j - 1], NestAt(p, j - 1), a);
      RecordSize(pl, p, home, j - 1);
      SavedStays(pl, p, home, i, j - 1, a);
      NextRecord(pl, p, j - 1);
      EffectKeeps(SavedAt(pl, p, j - 1), p[j - 1], CgAt(pl, p, j - 1).gen, a);
    }
  }

  lemma SameSaved(pl: Plan, p: Code, home: Homes, i: nat, j: nat, a: nat)
    requires Fits(pl, p, home) && SameCalls(p, i, j) && a < |OpenAt(p, i)|
    ensures a < |Record(pl, p, i)| && a < |Record(pl, p, j)| && Record(pl, p, i)[a].pushed == Record(pl, p, j)[a].pushed
  {
    hide Fits, CgAt, NestAt;
    RecordSize(pl, p, home, i);
    RecordSize(pl, p, home, j);
    if i <= j {
      SavedStays(pl, p, home, i, j, a);
    } else {
      SavedStays(pl, p, home, j, i, a);
    }
  }

  // ----- the relation -----

  /** Where a temporary is while calls are open: in its cell, or with what a call opened since has saved. */
  function TempView(f: Places, home: Homes, s: RState, t: nat): Val
  {
    if !IsSlot(f(t)) && |home(t)| < |s.frames| then Get(s.frames[|home(t)|].saved, f(t)) else Get(s.cells, f(t))
  }

  /** Where argument j of call h is: on the stack, in its register, or with what the next call has saved. */
  function ArgView(s: RState, h: nat, j: nat): Val
    requires h < |s.frames|
  {
    var f := s.frames[h];
    if j < f.inRegs && j < |PARAM_ORDER| then
      Get(if h + 1 < |s.frames| then s.frames[h + 1].saved else s.cells, Param(j))
    else if 0 <= j - f.inRegs < |f.rest| then f.rest[j - f.inRegs]
    else Void
  }

  ghost predicate FrameAlike(pl: Plan, p: Code, pc: nat, args: seq<Val>, s: RState, h: nat)
    requires pc <= |p|
  {
    && h < |s.frames| && h < |Record(pl, p, pc)| && h < |ArgsAt(p, pc)|
    && s.frames[h].saved.Keys == Numbers(Record(pl, p, pc)[h].pushed)
    && |args| == ArgsAt(p, pc)[h] == s.frames[h].inRegs + |s.frames[h].rest|
    && s.frames[h].inRegs == (if |args| < |PARAM_ORDER| then |args| else |PARAM_ORDER|)
    && (h + 1 < |s.frames| ==> ArgsSaved(s.frames[h], s.frames[h + 1]))
    && forall j :: 0 <= j < |args| ==> args[j] == ArgView(s, h, j)
  }

  /** The arguments in registers have been saved by the call opened next. */
  ghost predicate ArgsSaved(f: RFrame, next: RFrame)
  {
    forall j :: 0 <= j < |PARAM_ORDER| && j < f.inRegs ==> Param(j) in next.saved
  }

  /** Where argument j is, if it came in a register. */
  function ParamView(s: RState, h: nat, j: nat): Val
    requires h < |s.frames| && j < |PARAM_ORDER|
  {
    Get(if h + 1 < |s.frames| then s.frames[h + 1].saved else s.cells, Param(j))
  }

  /** A call whose arguments and saved registers are as before. */
  lemma FrameCarry(pl: Plan, p: Code, pc: nat, next: nat, args: seq<Val>, s: RState, s': RState, h: nat)
    requires pc <= |p| && next <= |p| && FrameAlike(pl, p, pc, args, s, h)
    requires h < |s'.frames| && s'.frames[h] == s.frames[h] && h < |Record(pl, p, next)| && h < |ArgsAt(p, next)|
    requires Record(pl, p, next)[h].pushed == Record(pl, p, pc)[h].pushed && ArgsAt(p, next)[h] == ArgsAt(p, pc)[h]
    requires h + 1 < |s'.frames| ==> ArgsSaved(s'.frames[h], s'.frames[h + 1])
    requires forall j: nat :: j < |PARAM_ORDER| && j < s.frames[h].inRegs ==> ParamView(s', h, j) == ParamView(s, h, j)
    ensures FrameAlike(pl, p, next, args, s', h)
  {
    hide Record, NestAt, ArgsSaved;
    forall j: nat | j < |args|
      ensures ArgView(s', h, j) == ArgView(s, h, j)
    {
      if j < |PARAM_ORDER| && j < s.frames[h].inRegs {
        assert ParamView(s', h, j) == ParamView(s, h, j);
      }
    }
  }

  ghost predicate FramesAlike(pl: Plan, p: Code, s: State, s': RState)
    requires s.pc <= |p|
  {
    && |s.frames| == |s'.frames| == |OpenAt(p, s.pc)|
    && forall h :: 0 <= h < |s.frames| ==> FrameAlike(pl, p, s.pc, s.frames[h], s', h)
  }

  ghost predicate TempsAlike(pl: Plan, p: Code, home: Homes, s: State, s': RState)
  {
    forall t: nat :: NeedAt(p, s.pc, t) ==> Get(s.temps, t) == TempView(Cells(pl, p), home, s', t)
  }

  ghost predicate Sim(pl: Plan, p: Code, home: Homes, s: State, s': RState)
  {
    && s.pc == s'.pc <= |p| && s.store == s'.store && Reach(p, s.pc)
    && FramesAlike(pl, p, s, s') && TempsAlike(pl, p, home, s, s')
  }

  ghost predicate SimStatus(pl: Plan, p: Code, home: Homes, a: Status, b: RStatus)
  {
    match a
    case At(s) => b.RAt? && Sim(pl, p, home, s, b.s)
    case Halt(v, store) => b == RHalt(v, store)
    case Stuck => b == RStuck
  }

  // ----- steps of the quad machine -----

  lemma StepGoes(env: Env, p: Code, s: State)
    requires Step(env, p, s).At?
    ensures Leads(p, s.pc, Step(env, p, s).s.pc)
    ensures forall x: nat :: !Writes(p[s.pc], x) ==> Get(Step(env, p, s).s.temps, x) == Get(s.temps, x)
  {
    hide AluVal, UnVal, CastVal, Read, Condition, FindLabel;
  }

  lemma FramesAside(env: Env, p: Code, s: State, frames: seq<seq<Val>>)
    requires s.pc < |p| && Inside(p[s.pc])
    ensures Step(env, p, s.(frames := frames)) ==
            match Step(env, p, s) { case At(t) => At(t.(frames := frames)) case end => end }
    ensures Step(env, p, s).At? ==> Step(env, p, s).s.frames == s.frames
  {
    hide AluVal, UnVal, CastVal, Read, Condition, FindLabel;
  }

  lemma SameInside(p: Code, pc: nat, next: nat)
    requires pc < |p| && (p[pc].Label? || Inside(p[pc])) && Leads(p, pc, next) && Orderly(p, pc)
    ensures SameCalls(p, next, pc)
  {
    hide NestAt, Target, LastMention;
    InsideNest(p, pc);
  }

  // ----- quads that do not concern calls -----

  /** What such a quad can look at: temporaries of the innermost open call, and all that are in the frame. */
  ghost function Around(pl: Plan, p: Code, home: Homes, pc: nat): Scope
    requires pc <= |p|
  {
    (t: nat) => IsSlot(Cells(pl, p)(t)) || home(t) == OpenAt(p, pc)
  }

  /** A quad that does not concern calls mentions temporaries of the innermost open call. */
  lemma MentionsHere(pl: Plan, p: Code, home: Homes, pc: nat, t: nat)
    requires Fits(pl, p, home) && pc < |p| && Inside(p[pc]) && Mentions(p[pc], ATemp(t))
    ensures home(t) == OpenAt(p, pc) && Spanned(pl, pc, t)
  {
    hide Fits, NestAt;
    RangeHere(pl, p, home, pc, t);
  }

  lemma WrittenApart(pl: Plan, p: Code, home: Homes, pc: nat, r: nat, u: nat)
    requires Fits(pl, p, home) && Ordered(p) && Reach(p, pc) && pc < |p| && Inside(p[pc])
    requires Writes(p[pc], r) && u != r && Around(pl, p, home, pc)(u) && NeedAt(p, pc + 1, u)
    ensures Cells(pl, p)(u) != Cells(pl, p)(r)
  {
    hide Fits, Ordered, Reach, NeedAt, NestAt, PlaceOf, PlaceNo;
    MentionsHere(pl, p, home, pc, r);
    ReachNext(p, pc, pc + 1);
    NeededHere(pl, p, home, pc + 1, u);
    CellsApart(pl, p, home, pc, r, u);
  }

  lemma ScopeFits(pl: Plan, p: Code, home: Homes, pc: nat)
    requires Fits(pl, p, home) && Ordered(p) && Reach(p, pc) && pc < |p| && Inside(p[pc])
    ensures InScope(Around(pl, p, home, pc), p, pc) && Separates(Cells(pl, p), Around(pl, p, home, pc), p, pc)
  {
    hide Fits, Ordered, Reach, NeedAt, NestAt, Cells, Mentions, Writes, Inside;
    var f, here := Cells(pl, p), Around(pl, p, home, pc);
    forall t: nat | Mentions(p[pc], ATemp(t))
      ensures here(t)
    {
      MentionsHere(pl, p, home, pc, t);
    }
    forall r: nat, u: nat | Writes(p[pc], r) && u != r && here(u) && NeedAt(p, pc + 1, u)
      ensures f(u) != f(r)
    {
      WrittenApart(pl, p, home, pc, r, u);
    }
  }

  /** In reach, a temporary is in its cell. */
  lemma ViewHere(pl: Plan, p: Code, home: Homes, s: RState, t: nat)
    requires s.pc <= |p| && Around(pl, p, home, s.pc)(t) && |s.frames| == |OpenAt(p, s.pc)|
    ensures TempView(Cells(pl, p), home, s, t) == Get(s.cells, Cells(pl, p)(t))
  {
    hide NestAt, PlaceOf, PlaceNo;
  }

  /** Out of reach, it is with what an open call has saved. */
  lemma ViewAway(pl: Plan, p: Code, home: Homes, s: RState, t: nat)
    requires s.pc <= |p| && !Around(pl, p, home, s.pc)(t) && home(t) <= OpenAt(p, s.pc)
    requires |s.frames| == |OpenAt(p, s.pc)|
    ensures |home(t)| < |s.frames|
    ensures TempView(Cells(pl, p), home, s, t) == Get(s.frames[|home(t)|].saved, Cells(pl, p)(t))
  {
    hide NestAt, PlaceOf, PlaceNo;
    ShorterPrefix(home(t), OpenAt(p, s.pc));
  }

  lemma ShorterPrefix(a: seq<Opening>, b: seq<Opening>)
    requires a <= b && a != b
    ensures |a| < |b|
  {
    if |a| == |b| {
    }
  }

  /** A register in reach that holds something still mentioned is in use. */
  lemma HereInUse(pl: Plan, p: Code, home: Homes, i: nat, t: nat)
    requires Fits(pl, p, home) && i < |p| && Spanned(pl, i, t) && home(t) == OpenAt(p, i)
    ensures PlaceOf(pl, p, t).Some?
    ensures PlaceOf(pl, p, t).value.InReg? ==> InUse(Loaded(pl, p, i).stacks, PlaceOf(pl, p, t).value.reg, i)
  {
    hide Fits, Loaded, CgAt, LocOf, PlaceOf, NestAt, InUse;
    PassAlways(pl, p, home, i);
    FitsParts(pl, p, home);
    OnePlace(pl, p, home, t, i);
    RecordSize(pl, p, home, i);
    if PlaceOf(pl, p, t).value.InReg? {
      TopHere(pl, p, home, Loaded(pl, p, i), Record(pl, p, i), i, t, PlaceOf(pl, p, t).value.reg);
    }
  }

  lemma TopHere(pl: Plan, p: Code, home: Homes, S: Alloc, calls: seq<CallState>, i: nat, t: nat, r: Reg)
    requires i < |p| <= LAST && Inv(pl, p, home, S, calls, i) && Spanned(pl, i, t) && home(t) == OpenAt(p, i)
    requires LocOf(S, t) == Some(InReg(r))
    ensures InUse(S.stacks, r, i)
  {
    hide LocOf, NestAt, InUse, Saves, RegsApart, Known;
    assert Alive(pl, S, t, i);
    assert Kept(pl, p, home, S, calls, i, t, r);
    assert ShapedOne(StackOf(S.stacks, r), Saves(calls, r, |calls|));
    TopInUse(S.stacks, r, pl.ranges[t], i);
  }

  // what a quad leaves in cells

  /** Quads that do not concern calls leave the argument registers of open calls as they were. */
  lemma ArgsStay(pl: Plan, p: Code, home: Homes, junk: Junk, s: RState, cells: Temps, j: nat)
    requires Fits(pl, p, home) && Loyal(pl, p) && s.pc < |p| && Inside(p[s.pc])
    requires j < |PARAM_ORDER| && HoldsArg(p, s.pc, PARAM_ORDER[j])
    requires forall x: nat :: !Writes(Move(Cells(pl, p), p)[s.pc], x) ==> Get(cells, x) == Get(s.cells, x)
    ensures Get(Scratched(Compiled(pl, p), junk, s, cells), Param(j)) == Get(s.cells, Param(j))
  {
    hide Fits, Loaded, Cells, HoldsArg, InUse, Loyal;
    var m, i := Compiled(pl, p), s.pc;
    assert LoyalAt(pl, p, i) by { LoyalHere(pl, p, i); }
    InNumbers(PARAM_ORDER[j], m.spoils(i));
    if Writes(Move(Cells(pl, p), p)[i], Param(j)) {
      var r := p[i].res.t;
      MentionsHere(pl, p, home, i, r);
      CellKind(pl, p, home, i, r);
    }
  }

  lemma LoyalHere(pl: Plan, p: Code, i: nat)
    requires Loyal(pl, p) && i < |p|
    ensures LoyalAt(pl, p, i)
  {
  }

  /** And what is in reach and still mentioned keeps the value the quad itself leaves in it. */
  lemma CellStays(pl: Plan, p: Code, home: Homes, junk: Junk, s: RState, cells: Temps, u: nat)
    requires Fits(pl, p, home) && Loyal(pl, p) && s.pc < |p| && Inside(p[s.pc])
    requires Spanned(pl, s.pc, u) && Around(pl, p, home, s.pc)(u)
    requires Writes(p[s.pc], u) || Get(cells, Cells(pl, p)(u)) == Get(s.cells, Cells(pl, p)(u))
    ensures Get(Scratched(Compiled(pl, p), junk, s, cells), Cells(pl, p)(u)) == Get(cells, Cells(pl, p)(u))
  {
    hide Fits, Loaded, InUse, Loyal, NestAt, PlaceOf, LocOf;
    var m, i := Compiled(pl, p), s.pc;
    CellKind(pl, p, home, i, u);
    if PlaceOf(pl, p, u).value.InReg? {
      var r := PlaceOf(pl, p, u).value.reg;
      HereInUse(pl, p, home, i, u);
      InNumbers(r, m.spoils(i));
      InNumbers(r, m.keeps(i));
      if Writes(p[i], u) {
        assert LoyalAt(pl, p, i) by { LoyalHere(pl, p, i); }
        OnePlace(pl, p, home, u, i);
      }
    } else {
      SlotUntouched(m, junk, s, cells, Cells(pl, p)(u));
    }
  }

  lemma SlotUntouched(m: Asm, junk: Junk, s: RState, cells: Temps, n: nat)
    requires IsSlot(n)
    ensures Get(Scratched(m, junk, s, cells), n) == Get(cells, n)
  {
    RegistersOnly(m.spoils(s.pc), n);
    RegistersOnly(m.keeps(s.pc), n);
  }

  lemma RegistersOnly(regs: seq<Reg>, n: nat)
    requires IsSlot(n)
    ensures n !in Numbers(regs)
  {
  }
}
