/** Each step of the quads is one step of the allocated code. */
module CallSteps {
  import opened Ast
  import opened Quads
  import opened Liveness
  import opened Needs
  import opened Nests
  import opened RegAlloc
  import opened Frames
  import opened Calls
  import opened CallSim
  import opened CallAlloc
  import opened CallPlaces
  import opened Renaming
  import opened RegMachine
  import opened CallMoves

  /** What is assumed throughout: of the plan, of the code, and of the argument registers. */
  ghost predicate Setting(pl: Plan, p: Code, home: Homes)
  {
    Fits(pl, p, home) && Loyal(pl, p) && Ordered(p)
  }

  lemma MovedWrites(f: Places, q: Quad, x: nat)
    ensures Writes(MoveQuad(f, q), x) <==> q.Quad? && q.res.ATemp? && Writes(q, q.res.t) && f(q.res.t) == x
  {
  }

  lemma WriterFalls(p: Code, pc: nat, r: nat, next: nat)
    requires pc < |p| && Writes(p[pc], r) && Leads(p, pc, next)
    ensures next == pc + 1
  {
  }

  /** The cells of a quad's state, without calls. */
  function Flat(s: RState): State
  {
    State(s.pc, s.cells, s.store, [])
  }

  function Later(pl: Plan, p: Code, junk: Junk, s: RState, t: State): RState
  {
    RState(t.pc, Scratched(Compiled(pl, p), junk, s, t.temps), t.store, s.frames, s.time + 1)
  }

  // ----- quads that do not concern calls -----

  lemma FlatAlike(pl: Plan, p: Code, home: Homes, s: State, s': RState)
    requires Setting(pl, p, home) && Sim(pl, p, home, s, s') && s.pc < |p|
    ensures Alike(Cells(pl, p), Around(pl, p, home, s.pc), p, s.(frames := []), Flat(s'))
  {
    hide Setting, FrameAlike, Cells, NeedAt, Reach, NestAt, Around, TempView;
    forall t: nat | Around(pl, p, home, s.pc)(t) && NeedAt(p, s.pc, t)
      ensures Get(s.temps, t) == Get(s'.cells, Cells(pl, p)(t))
    {
      ViewHere(pl, p, home, s', t);
    }
  }

  /** A needed temporary in reach. */
  lemma NearTemp(env: Env, junk: Junk, pl: Plan, p: Code, home: Homes, s: State, s': RState, t0: State, t: State,
                 u: nat)
    requires Setting(pl, p, home) && Sim(pl, p, home, s, s') && s.pc < |p| && Inside(p[s.pc])
    requires Step(env, p, s) == At(t0) && Step(env, Move(Cells(pl, p), p), Flat(s')) == At(t)
    requires NeedAt(p, t0.pc, u) && Around(pl, p, home, s.pc)(u)
    ensures Get(Later(pl, p, junk, s', t).cells, Cells(pl, p)(u)) == Get(t.temps, Cells(pl, p)(u))
  {
    hide Sim, Step, NeedAt, NeedAfter, NestAt, Cells, Fits, Loyal, Ordered, Around, Scratched, Compiled, Inside, Target;
    var f, pc := Cells(pl, p), s.pc;
    StepGoes(env, p, s);
    StepGoes(env, Move(f, p), Flat(s'));
    assert s'.pc == pc && Reach(p, pc) by { SimParts(pl, p, home, s, s'); }
    if Writes(p[pc], u) {
      MentionsHere(pl, p, home, pc, u);
    } else {
      NeedBack(p, pc, t0.pc, u);
      NeedThrough(p, pc, u);
      NeededHere(pl, p, home, pc, u);
      MovedWrites(f, p[pc], f(u));
      if Writes(Move(f, p)[pc], f(u)) {
        var r := p[pc].res.t;
        WriterFalls(p, pc, r, t0.pc);
        WrittenApart(pl, p, home, pc, r, u);
      }
    }
    CellStays(pl, p, home, junk, s', t.temps, u);
  }

  lemma SimParts(pl: Plan, p: Code, home: Homes, s: State, s': RState)
    requires Sim(pl, p, home, s, s')
    ensures s.pc == s'.pc <= |p| && s.store == s'.store && Reach(p, s.pc)
    ensures FramesAlike(pl, p, s, s') && TempsAlike(pl, p, home, s, s')
    ensures |s.frames| == |s'.frames| == |OpenAt(p, s.pc)|
  {
  }

  /** A needed temporary out of reach. */
  lemma FarTemp(env: Env, junk: Junk, pl: Plan, p: Code, home: Homes, s: State, s': RState, t0: State, t: State, u: nat)
    requires Setting(pl, p, home) && Sim(pl, p, home, s, s') && s.pc < |p| && Inside(p[s.pc])
    requires Step(env, p, s) == At(t0)
    requires t0.pc <= |p| && t.pc == t0.pc && OpenAt(p, t0.pc) == OpenAt(p, s.pc)
    requires NeedAt(p, t0.pc, u) && !Around(pl, p, home, s.pc)(u)
    ensures Get(t0.temps, u) == TempView(Cells(pl, p), home, Later(pl, p, junk, s', t), u)
  {
    hide Sim, Step, NeedAt, NeedAfter, NestAt, Cells, Fits, Loyal, Ordered, Scratched, Compiled, TempView, Inside,
         Target;
    var pc := s.pc;
    StepGoes(env, p, s);
    SimParts(pl, p, home, s, s');
    if Writes(p[pc], u) {
      MentionsHere(pl, p, home, pc, u);
    } else {
      NeedBack(p, pc, t0.pc, u);
      NeedThrough(p, pc, u);
      NeededHere(pl, p, home, pc, u);
      ViewAway(pl, p, home, s', u);
      ViewAway(pl, p, home, Later(pl, p, junk, s', t), u);
    }
  }

  lemma InsideTemps(env: Env, junk: Junk, pl: Plan, p: Code, home: Homes, s: State, s': RState, t0: State, t: State)
    requires Setting(pl, p, home) && Sim(pl, p, home, s, s') && s.pc < |p| && Inside(p[s.pc])
    requires Step(env, p, s) == At(t0)
    requires Step(env, Move(Cells(pl, p), p), Flat(s')) == At(t)
    requires Alike(Cells(pl, p), Around(pl, p, home, s.pc), p, t0.(frames := []), t)
    requires t0.pc <= |p| && OpenAt(p, t0.pc) == OpenAt(p, s.pc)
    ensures TempsAlike(pl, p, home, t0, Later(pl, p, junk, s', t))
  {
    hide Sim, Step, NeedAt, NestAt, Cells, Setting, Scratched, Compiled, TempView, Around, Inside, Reach;
    SimParts(pl, p, home, s, s');
    forall u: nat | NeedAt(p, t0.pc, u)
      ensures Get(t0.temps, u) == TempView(Cells(pl, p), home, Later(pl, p, junk, s', t), u)
    {
      if Around(pl, p, home, s.pc)(u) {
        NearTemp(env, junk, pl, p, home, s, s', t0, t, u);
        assert Around(pl, p, home, t0.pc)(u) by { SameAround(pl, p, home, s.pc, t0.pc, u); }
        ViewHere(pl, p, home, Later(pl, p, junk, s', t), u);
      } else {
        FarTemp(env, junk, pl, p, home, s, s', t0, t, u);
      }
    }
  }

  lemma SameAround(pl: Plan, p: Code, home: Homes, i: nat, j: nat, u: nat)
    requires i <= |p| && j <= |p| && OpenAt(p, i) == OpenAt(p, j)
    ensures Around(pl, p, home, i)(u) == Around(pl, p, home, j)(u)
  {
  }

  /** The arguments passed so far stay where they are. */
  lemma InsideFrames(env: Env, junk: Junk, pl: Plan, p: Code, home: Homes, s: State, s': RState, t0: State, t: State)
    requires Setting(pl, p, home) && Sim(pl, p, home, s, s') && s.pc < |p| && Inside(p[s.pc])
    requires Step(env, Move(Cells(pl, p), p), Flat(s')) == At(t)
    requires t0.frames == s.frames && t.pc == t0.pc && SameCalls(p, t0.pc, s.pc)
    ensures FramesAlike(pl, p, t0, Later(pl, p, junk, s', t))
  {
    hide Sim, Step, NestAt, Cells, Scratched, Compiled, Inside, FrameAlike, Fits, Loyal, Ordered, Record;
    SimParts(pl, p, home, s, s');
    StepGoes(env, Move(Cells(pl, p), p), Flat(s'));
    var s1 := Later(pl, p, junk, s', t);
    forall h | 0 <= h < |s.frames|
      ensures FrameAlike(pl, p, t0.pc, s.frames[h], s1, h)
    {
      SameSaved(pl, p, home, t0.pc, s.pc, h);
      RecordSize(pl, p, home, t0.pc);
      OneFrame(pl, p, home, junk, s', t, s.frames[h], h);
    }
  }

  lemma OneFrame(pl: Plan, p: Code, home: Homes, junk: Junk, s: RState, t: State, args: seq<Val>, h: nat)
    requires Fits(pl, p, home) && Loyal(pl, p) && s.pc < |p| && Inside(p[s.pc]) && FrameAlike(pl, p, s.pc, args, s, h)
    requires |s.frames| == |ArgsAt(p, s.pc)| && SameCalls(p, t.pc, s.pc) && h < |Record(pl, p, t.pc)|
    requires Record(pl, p, t.pc)[h].pushed == Record(pl, p, s.pc)[h].pushed
    requires forall x: nat :: !Writes(Move(Cells(pl, p), p)[s.pc], x) ==> Get(t.temps, x) == Get(s.cells, x)
    ensures FrameAlike(pl, p, t.pc, args, Later(pl, p, junk, s, t), h)
  {
    hide NestAt, Cells, Scratched, Compiled, Inside, Fits, Loyal, Record;
    var s1 := Later(pl, p, junk, s, t);
    forall j: nat | j < |PARAM_ORDER| && j < s.frames[h].inRegs
      ensures ParamView(s1, h, j) == ParamView(s, h, j)
    {
      if h + 1 == |s.frames| {
        assert HoldsArg(p, s.pc, PARAM_ORDER[j]);
        ArgsStay(pl, p, home, junk, s, t.temps, j);
      }
    }
    FrameCarry(pl, p, s.pc, t.pc, args, s, s1, h);
  }

  lemma InsideStep(env: Env, junk: Junk, pl: Plan, p: Code, home: Homes, s: State, s': RState)
    requires Setting(pl, p, home) && Sim(pl, p, home, s, s') && s.pc < |p| && Inside(p[s.pc])
    ensures SimStatus(pl, p, home, Step(env, p, s), RStep(env, junk, Compiled(pl, p), s'))
  {
    hide Step, NeedAt, NestAt, Cells, Fits, Loyal, Ordered, Sim, Around, Scratched, Reach, SameCalls, FramesAlike,
         TempsAlike, InScope, Separates, Target;
    var f, here := Cells(pl, p), Around(pl, p, home, s.pc);
    SimParts(pl, p, home, s, s');
    CodeMoved(pl, p, home);
    ScopeFits(pl, p, home, s.pc);
    FlatAlike(pl, p, home, s, s');
    StepAlike(env, f, here, p, s.(frames := []), Flat(s'));
    FramesAside(env, p, s, []);
    RStepInside(env, junk, pl, p, s');
    match Step(env, p, s)
    case At(t0) =>
      var t := Step(env, Move(f, p), Flat(s')).s;
      StepGoes(env, p, s);
      FitsAt(pl, p, home, s.pc);
      SameInside(p, s.pc, t0.pc);
      InsideFrames(env, junk, pl, p, home, s, s', t0, t) by { AlikeParts(f, here, p, t0.(frames := []), t); }
      SameOpen(p, t0.pc, s.pc);
      InsideTemps(env, junk, pl, p, home, s, s', t0, t);
      AlikeParts(f, here, p, t0.(frames := []), t);
      SimFrom(pl, p, home, t0, Later(pl, p, junk, s', t));
    case _ =>
  }

  lemma SameOpen(p: Code, i: nat, j: nat)
    requires SameCalls(p, i, j)
    ensures i <= |p| && j <= |p| && OpenAt(p, i) == OpenAt(p, j)
  {
  }

  lemma AlikeParts(f: Places, here: Scope, p: Code, s: State, s': State)
    requires Alike(f, here, p, s, s')
    ensures s.pc == s'.pc && s.store == s'.store && Reach(p, s.pc)
  {
  }

  lemma SimFrom(pl: Plan, p: Code, home: Homes, s: State, s': RState)
    requires s.pc == s'.pc <= |p| && s.store == s'.store && Reach(p, s.pc)
    requires FramesAlike(pl, p, s, s') && TempsAlike(pl, p, home, s, s')
    ensures Sim(pl, p, home, s, s')
  {
  }

  lemma RStepInside(env: Env, junk: Junk, pl: Plan, p: Code, s: RState)
    requires s.pc < |p| && Inside(p[s.pc]) && Compiled(pl, p).code == Move(Cells(pl, p), p)
    ensures RStep(env, junk, Compiled(pl, p), s) ==
            match Step(env, Move(Cells(pl, p), p), Flat(s)) {
              case At(t) => RAt(Later(pl, p, junk, s, t))
              case Halt(v, store) => RHalt(v, store)
              case Stuck => RStuck
            }
  {
    hide Step, Scratched, Compiled, Cells;
  }

  // ----- labels -----

  lemma LabelStep(env: Env, junk: Junk, pl: Plan, p: Code, home: Homes, s: State, s': RState)
    requires Setting(pl, p, home) && Sim(pl, p, home, s, s') && s.pc < |p| && p[s.pc].Label?
    ensures SimStatus(pl, p, home, Step(env, p, s), RStep(env, junk, Compiled(pl, p), s'))
  {
    hide NeedAt, NeedAfter, NestAt, Cells, Fits, Loyal, Ordered, Reach, FrameAlike, Record, TempView;
    var pc := s.pc;
    CodeMoved(pl, p, home);
    assert p[pc].Label? && Compiled(pl, p).code[pc].Label? by { MovedLabel(pl, p, pc); }
    ReachNext(p, pc, pc + 1);
    InsideNest(p, pc);
    var s1, s1' := s.(pc := pc + 1), s'.(pc := pc + 1);
    forall h | 0 <= h < |s.frames|
      ensures FrameAlike(pl, p, pc + 1, s.frames[h], s1', h)
    {
      LabelFrame(pl, p, home, s', s.frames[h], h);
    }
    forall u: nat | NeedAt(p, pc + 1, u)
      ensures Get(s1.temps, u) == TempView(Cells(pl, p), home, s1', u)
    {
      NeedBack(p, pc, pc + 1, u);
      NeedThrough(p, pc, u);
      SameView(Cells(pl, p), home, s', s1', u);
    }
  }

  lemma MovedLabel(pl: Plan, p: Code, i: nat)
    requires i < |p|
    ensures |Compiled(pl, p).code| == |p| && (p[i].Label? <==> Compiled(pl, p).code[i].Label?)
  {
    hide Loaded;
  }

  lemma SameView(f: Places, home: Homes, s: RState, s': RState, u: nat)
    requires s.frames == s'.frames && s.cells == s'.cells
    ensures TempView(f, home, s, u) == TempView(f, home, s', u)
  {
  }

  lemma LabelFrame(pl: Plan, p: Code, home: Homes, s: RState, args: seq<Val>, h: nat)
    requires Fits(pl, p, home) && s.pc < |p| && p[s.pc].Label? && FrameAlike(pl, p, s.pc, args, s, h)
    ensures FrameAlike(pl, p, s.pc + 1, args, s.(pc := s.pc + 1), h)
  {
    hide NestAt, Fits, Record;
    InsideNest(p, s.pc);
    assert SameCalls(p, s.pc + 1, s.pc);
    RecordSize(pl, p, home, s.pc);
    SameSaved(pl, p, home, s.pc + 1, s.pc, h);
    FrameCarry(pl, p, s.pc, s.pc + 1, args, s, s.(pc := s.pc + 1), h);
  }

  // ----- opening a call -----

  /** Inside a call, before it is made, its result is not needed: nothing there reads it. */
  lemma {:induction false} ResultNotNeeded(p: Code, home: Homes, k: nat, t: nat, n: nat, A: seq<Opening>, o: Opening)
    requires Framed(p, home) && k <= |p| && A + [o] <= OpenAt(p, k) && o.res == ATemp(t) && home(t) == A
    ensures !Needed(p, k, t, n)
    decreases n
  {
    hide NestAt, Target, Pure, LastMention, Housed, SameCalls;
    if Needed(p, k, t, n) {
      assert Orderly(p, k);
      if Reads(p[k], t) {
        ReadInside(p, home, k, t, A, o);
      } else if FallsThrough(p[k]) && Needed(p, k + 1, t, n - 1) {
        StaysInside(p, home, k, t, A, o);
        ResultNotNeeded(p, home, k + 1, t, n - 1, A, o);
      } else if Target(p, p[k]).Some? {
        SameOpen(p, Target(p, p[k]).value, k);
        ResultNotNeeded(p, home, Target(p, p[k]).value, t, n - 1, A, o);
      }
    }
  }

  lemma ReadInside(p: Code, home: Homes, k: nat, t: nat, A: seq<Opening>, o: Opening)
    requires Framed(p, home) && k < |p| && A + [o] <= OpenAt(p, k) && home(t) == A
    ensures !Reads(p[k], t)
  {
    hide NestAt, Target, Pure, LastMention, Housed, SameCalls;
    if Reads(p[k], t) {
      assert Orderly(p, k) && Mentions(p[k], ATemp(t));
      HomeHere(p, home, k, t);
    }
  }

  lemma StaysInside(p: Code, home: Homes, k: nat, t: nat, A: seq<Opening>, o: Opening)
    requires Framed(p, home) && k < |p| && A + [o] <= OpenAt(p, k) && o.res == ATemp(t) && !Writes(p[k], t)
    ensures A + [o] <= OpenAt(p, k + 1)
  {
    hide NestAt, Target, Pure, LastMention, Housed, SameCalls;
    assert Orderly(p, k);
    if IsHint(p[k]) {
      HintNest(p, k);
    } else if IsCall(p[k]) {
      CallNest(p, k);
      assert (A + [o])[|A|] == OpenAt(p, k)[|A|];
    } else if IsArg(p[k]) {
      ArgNest(p, k);
    } else {
      InsideNest(p, k);
    }
  }

  lemma HintStep(env: Env, junk: Junk, pl: Plan, p: Code, home: Homes, s: State, s': RState)
    requires Setting(pl, p, home) && Sim(pl, p, home, s, s') && s.pc < |p| && IsHint(p[s.pc])
    ensures SimStatus(pl, p, home, Step(env, p, s), RStep(env, junk, Compiled(pl, p), s'))
  {
    hide NeedAt, NeedAfter, NestAt, Cells, Fits, Loyal, Ordered, Reach, FrameAlike, Record, TempView, Sim, SavedAt,
         Snapshot;
    var pc := s.pc;
    SimParts(pl, p, home, s, s');
    CodeMoved(pl, p, home);
    ReachNext(p, pc, pc + 1);
    HintNest(p, pc);
    var s1 := s.(pc := pc + 1, frames := s.frames + [[]]);
    var s1' := AfterHint(pl, p, s');
    assert RStep(env, junk, Compiled(pl, p), s') == RAt(s1') by { RStepHint(env, junk, pl, p, s'); }
    forall h | 0 <= h < |s1.frames|
      ensures FrameAlike(pl, p, pc + 1, s1.frames[h], s1', h)
    {
      if h < |s.frames| {
        OuterFrame(pl, p, home, s', s.frames[h], h);
      } else {
        NewFrame(pl, p, home, s', h);
      }
    }
    forall u: nat | NeedAt(p, pc + 1, u)
      ensures Get(s1.temps, u) == TempView(Cells(pl, p), home, s1', u)
    {
      HintTemp(pl, p, home, s', u);
    }
    SimFrom(pl, p, home, s1, s1');
  }

  function AfterHint(pl: Plan, p: Code, s: RState): RState
  {
    s.(pc := s.pc + 1, frames := s.frames + [RFrame(Snapshot(s.cells, Compiled(pl, p).saves(s.pc)), 0, [])])
  }

  lemma RStepHint(env: Env, junk: Junk, pl: Plan, p: Code, s: RState)
    requires s.pc < |p| && IsHint(p[s.pc]) && Compiled(pl, p).code == Move(Cells(pl, p), p)
    ensures RStep(env, junk, Compiled(pl, p), s) == RAt(AfterHint(pl, p, s))
  {
    hide Cells, Snapshot, Loaded, SavedAt;
  }

  /** What is needed in the call stays where it is, or is now with what has been saved. */
  lemma HintTemp(pl: Plan, p: Code, home: Homes, s: RState, u: nat)
    requires Setting(pl, p, home) && s.pc < |p| && IsHint(p[s.pc]) && Reach(p, s.pc) && |s.frames| == |OpenAt(p, s.pc)|
    requires NeedAt(p, s.pc + 1, u)
    ensures NeedAt(p, s.pc, u)
    ensures TempView(Cells(pl, p), home, AfterHint(pl, p, s), u) == TempView(Cells(pl, p), home, s, u)
  {
    hide NeedAt, NeedAfter, NestAt, Fits, Loyal, Ordered, Reach, SavedAt, PlaceOf, Compiled;
    var pc := s.pc;
    ReachNext(p, pc, pc + 1);
    NeedBack(p, pc, pc + 1, u);
    NeedThrough(p, pc, u);
    NeededHere(pl, p, home, pc, u);
    NeededHere(pl, p, home, pc + 1, u);
    CellKind(pl, p, home, pc, u);
    if |home(u)| == |s.frames| && PlaceOf(pl, p, u).value.InReg? {
      SamePrefix(home(u), OpenAt(p, pc));
      assert p[pc].res != ATemp(u) by { NotResult(pl, p, home, pc, u); }
      SavedWhereNeeded(pl, p, home, pc, u);
      var r := PlaceOf(pl, p, u).value.reg;
      assert Compiled(pl, p).saves(pc) == SavedAt(pl, p, pc) by { SavesAre(pl, p, pc); }
      InNumbers(r, SavedAt(pl, p, pc));
    }
  }

  lemma SamePrefix(a: seq<Opening>, b: seq<Opening>)
    requires a <= b && |a| == |b|
    ensures a == b
  {
  }

  lemma SavesAre(pl: Plan, p: Code, i: nat)
    requires i < |p|
    ensures Compiled(pl, p).saves(i) == SavedAt(pl, p, i)
  {
  }

  lemma NotResult(pl: Plan, p: Code, home: Homes, pc: nat, u: nat)
    requires Fits(pl, p, home) && pc < |p| && IsHint(p[pc]) && home(u) == OpenAt(p, pc) && NeedAt(p, pc + 1, u)
    ensures p[pc].res != ATemp(u)
  {
    hide Fits, NestAt, Framed, Needed;
    FitsParts(pl, p, home);
    HintNest(p, pc);
    var n: nat :| Needed(p, pc + 1, u, n);
    var o := Opening(NestAt(p, pc).count, p[pc].res);
    if p[pc].res == ATemp(u) {
      ResultNotNeeded(p, home, pc + 1, u, n, OpenAt(p, pc), o);
    }
  }

  /** The arguments of the calls that were open. */
  lemma OuterFrame(pl: Plan, p: Code, home: Homes, s: RState, args: seq<Val>, h: nat)
    requires Setting(pl, p, home) && s.pc < |p| && IsHint(p[s.pc]) && FrameAlike(pl, p, s.pc, args, s, h)
    requires |s.frames| == |OpenAt(p, s.pc)|
    ensures FrameAlike(pl, p, s.pc + 1, args, AfterHint(pl, p, s), h)
  {
    hide NestAt, Fits, CgAt, Loyal, Ordered, SavedAt, Compiled;
    var pc, s1 := s.pc, AfterHint(pl, p, s);
    HintNest(p, pc);
    RecordSize(pl, p, home, pc);
    NextRecord(pl, p, pc);
    if h + 1 == |s.frames| {
      forall j: nat | j < |PARAM_ORDER| && j < s.frames[h].inRegs
        ensures Param(j) in s1.frames[h + 1].saved && ParamView(s1, h, j) == ParamView(s, h, j)
      {
        assert HoldsArg(p, pc, PARAM_ORDER[j]);
        assert LoyalAt(pl, p, pc) by { LoyalHere(pl, p, pc); }
        SavesAre(pl, p, pc);
        InNumbers(PARAM_ORDER[j], SavedAt(pl, p, pc));
      }
    }
    FrameCarry(pl, p, pc, pc + 1, args, s, s1, h);
  }

  lemma NewFrame(pl: Plan, p: Code, home: Homes, s: RState, h: nat)
    requires Setting(pl, p, home) && s.pc < |p| && IsHint(p[s.pc]) && h == |s.frames| == |OpenAt(p, s.pc)|
    ensures FrameAlike(pl, p, s.pc + 1, [], AfterHint(pl, p, s), h)
  {
    hide NestAt, Fits, CgAt, Loyal, Ordered, SavedAt, Compiled;
    HintNest(p, s.pc);
    RecordSize(pl, p, home, s.pc);
    NextRecord(pl, p, s.pc);
    SavesAre(pl, p, s.pc);
  }

  // ----- passing an argument -----

  /** An operand that is read has the same value, if it is in reach. */
  lemma ReadSame(pl: Plan, p: Code, home: Homes, s: State, s': RState, a: Operand)
    requires Setting(pl, p, home) && Sim(pl, p, home, s, s') && s.pc < |p| && !Pure(p[s.pc])
    requires a.ATemp? ==> Reads(p[s.pc], a.t) && home(a.t) == OpenAt(p, s.pc)
    ensures Read(a, s.temps, s.store) == Read(MoveOperand(Cells(pl, p), a), s'.cells, s'.store)
  {
    hide NeedAt, NestAt, Cells, Fits, Loyal, Ordered, FrameAlike, Pure, Reads;
    if a.ATemp? {
      NeedRead(p, s.pc, a.t);
      ViewHere(pl, p, home, s', a.t);
    }
  }

  function PassedOn(s: RState, v: Val): RState
    requires s.frames != []
  {
    var n := |s.frames| - 1;
    var f := s.frames[n];
    if f.inRegs < |PARAM_ORDER| then
      s.(pc := s.pc + 1, cells := s.cells[Param(f.inRegs) := v], frames := s.frames[n := f.(inRegs := f.inRegs + 1)])
    else s.(pc := s.pc + 1, frames := s.frames[n := f.(rest := f.rest + [v])])
  }

  lemma ArgCounts(p: Code, i: nat)
    requires i < |p| && IsArg(p[i]) && ArgsAt(p, i) != []
    ensures OpenAt(p, i + 1) == OpenAt(p, i)
    ensures var a := ArgsAt(p, i); ArgsAt(p, i + 1) == a[|a| - 1 := a[|a| - 1] + 1]
  {
  }

  lemma ArgFrame(pl: Plan, p: Code, home: Homes, s: RState, args: seq<Val>, v: Val, h: nat)
    requires Setting(pl, p, home) && s.pc < |p| && IsArg(p[s.pc]) && FrameAlike(pl, p, s.pc, args, s, h)
    requires s.frames != [] && |s.frames| == |OpenAt(p, s.pc)|
    ensures FrameAlike(pl, p, s.pc + 1, if h == |s.frames| - 1 then args + [v] else args, PassedOn(s, v), h)
  {
    hide NestAt, Setting, Record, ArgsSaved;
    assert Fits(pl, p, home) by { SettingFits(pl, p, home); }
    RecordSize(pl, p, home, s.pc);
    RecordSize(pl, p, home, s.pc + 1);
    ArgCounts(p, s.pc);
    SavedSame(pl, p, home, s.pc, h);
    if h == |s.frames| - 1 {
      LastArg(pl, p, s, args, v);
    } else {
      var s1 := PassedOn(s, v);
      assert ArgsSaved(s1.frames[h], s1.frames[h + 1]) by { SavedArgs(pl, p, s.pc, args, s, h); NextSaved(s, v, h); }
      FrameCarry(pl, p, s.pc, s.pc + 1, args, s, s1, h);
    }
  }

  lemma NextSaved(s: RState, v: Val, h: nat)
    requires h + 1 < |s.frames| && ArgsSaved(s.frames[h], s.frames[h + 1])
    ensures ArgsSaved(PassedOn(s, v).frames[h], PassedOn(s, v).frames[h + 1])
  {
  }

  lemma LastArg(pl: Plan, p: Code, s: RState, args: seq<Val>, v: Val)
    requires s.pc < |p| && s.frames != [] && FrameAlike(pl, p, s.pc, args, s, |s.frames| - 1)
    requires var h := |s.frames| - 1;
             && h < |Record(pl, p, s.pc + 1)| && Record(pl, p, s.pc + 1)[h].pushed == Record(pl, p, s.pc)[h].pushed
             && h < |ArgsAt(p, s.pc + 1)| && ArgsAt(p, s.pc + 1)[h] == ArgsAt(p, s.pc)[h] + 1
    ensures FrameAlike(pl, p, s.pc + 1, args + [v], PassedOn(s, v), |s.frames| - 1)
  {
    hide NestAt, Record, ArgsSaved, Param;
    var h, s1 := |s.frames| - 1, PassedOn(s, v);
    forall j: nat | j < |args|
      ensures ArgView(s1, h, j) == ArgView(s, h, j)
    {
      if j < s.frames[h].inRegs < |PARAM_ORDER| {
        ParamApart(j, s.frames[h].inRegs);
      }
    }
  }

  /** The calls that stay open keep their saved registers on record. */
  lemma SavedSame(pl: Plan, p: Code, home: Homes, i: nat, h: nat)
    requires Fits(pl, p, home) && i < |p| && h < |Record(pl, p, i)| && h < |OpenAt(p, i + 1)|
    ensures h < |Record(pl, p, i + 1)| && Record(pl, p, i + 1)[h].pushed == Record(pl, p, i)[h].pushed
  {
    hide NestAt, Fits, CgAt, SavedAt, Loaded;
    RecordSize(pl, p, home, i + 1);
    NextRecord(pl, p, i);
    EffectKeeps(SavedAt(pl, p, i), p[i], CgAt(pl, p, i).gen, h);
  }

  lemma ArgTemp(pl: Plan, p: Code, home: Homes, s: RState, v: Val, u: nat)
    requires Setting(pl, p, home) && s.pc < |p| && IsArg(p[s.pc]) && Reach(p, s.pc) && s.frames != []
    requires NeedAt(p, s.pc + 1, u)
    ensures NeedAt(p, s.pc, u)
    ensures TempView(Cells(pl, p), home, PassedOn(s, v), u) == TempView(Cells(pl, p), home, s, u)
  {
    hide NeedAt, NeedAfter, NestAt, Fits, Loyal, Ordered, Reach, PlaceOf;
    NeedBack(p, s.pc, s.pc + 1, u);
    NeedThrough(p, s.pc, u);
    NeededHere(pl, p, home, s.pc, u);
    CellKind(pl, p, home, s.pc, u);
  }

  lemma RStepArg(env: Env, junk: Junk, pl: Plan, p: Code, s: RState)
    requires s.pc < |p| && IsArg(p[s.pc]) && Compiled(pl, p).code == Move(Cells(pl, p), p) && s.frames != []
    ensures RStep(env, junk, Compiled(pl, p), s) ==
            RAt(PassedOn(s, Read(MoveOperand(Cells(pl, p), p[s.pc].arg1), s.cells, s.store)))
  {
    hide Cells, Loaded, Read, MoveOperand;
  }

  lemma StepArg(env: Env, p: Code, s: State)
    requires s.pc < |p| && IsArg(p[s.pc]) && s.frames != []
    ensures var n := |s.frames| - 1;
            var frame := s.frames[n] + [Read(p[s.pc].arg1, s.temps, s.store)];
            Step(env, p, s) == At(s.(pc := s.pc + 1, frames := s.frames[n := frame]))
  {
    hide Read;
  }

  lemma ArgStep(env: Env, junk: Junk, pl: Plan, p: Code, home: Homes, s: State, s': RState)
    requires Setting(pl, p, home) && Sim(pl, p, home, s, s') && s.pc < |p| && IsArg(p[s.pc])
    ensures SimStatus(pl, p, home, Step(env, p, s), RStep(env, junk, Compiled(pl, p), s'))
  {
    hide NeedAt, NestAt, Cells, Fits, Loyal, Ordered, Reach, FrameAlike, Record, TempView, Sim, PassedOn, Compiled,
         HomeAt, LastMention, Read, RStep, Step;
    var pc := s.pc;
    SimParts(pl, p, home, s, s');
    CodeMoved(pl, p, home);
    FitsAt(pl, p, home, pc);
    ReachNext(p, pc, pc + 1);
    var a := p[pc].arg1;
    RangeHere(pl, p, home, pc, a.t);
    assert home(a.t) == OpenAt(p, pc) by { ArgHome(p, pc, a.t); }
    ReadSame(pl, p, home, s, s', a);
    RStepArg(env, junk, pl, p, s');
    StepArg(env, p, s);
    var n, v := |s.frames| - 1, Read(a, s.temps, s.store);
    var s1 := s.(pc := pc + 1, frames := s.frames[n := s.frames[n] + [v]]);
    var s1' := PassedOn(s', v);
    assert OpenAt(p, pc + 1) == OpenAt(p, pc) by { ArgNest(p, pc); }
    PassedParts(s', v);
    forall h | 0 <= h < |s1.frames|
      ensures FrameAlike(pl, p, pc + 1, s1.frames[h], s1', h)
    {
      ArgFrame(pl, p, home, s', s.frames[h], v, h);
    }
    forall u: nat | NeedAt(p, pc + 1, u)
      ensures Get(s1.temps, u) == TempView(Cells(pl, p), home, s1', u)
    {
      ArgTemp(pl, p, home, s', v, u);
    }
    SimFrom(pl, p, home, s1, s1');
  }

  lemma ArgHome(p: Code, i: nat, t: nat)
    requires i < |p| && IsArg(p[i])
    ensures HomeAt(p, i, t) == OpenAt(p, i)
  {
    hide NestAt;
  }

  lemma PassedParts(s: RState, v: Val)
    requires s.frames != []
    ensures PassedOn(s, v).pc == s.pc + 1 && PassedOn(s, v).store == s.store && |PassedOn(s, v).frames| == |s.frames|
  {
  }

  // ----- making a call -----

  /** Where the call that is open as number a was opened: what has been saved for it was in use there. */
  lemma {:induction false} OpenedAt(pl: Plan, p: Code, home: Homes, i: nat, a: nat) returns (j: nat)
    requires Fits(pl, p, home) && i <= |p| && a < |OpenAt(p, i)| && a < |Record(pl, p, i)|
    ensures j < i && IsHint(p[j]) && p[j].res == OpenAt(p, i)[a].res && Record(pl, p, i)[a].pushed == SavedAt(pl, p, j)
  {
    hide Fits, CgAt, SavedAt, Loaded, Effect, NestAt;
    assert i > 0 by { SomethingOpen(p, i, a); }
    RecordSize(pl, p, home, i - 1);
    NextRecord(pl, p, i - 1);
    if a < |OpenAt(p, i - 1)| && OpenAt(p, i - 1)[a] == OpenAt(p, i)[a] {
      j := OpenedAt(pl, p, home, i - 1, a);
      EffectKeeps(SavedAt(pl, p, i - 1), p[i - 1], CgAt(pl, p, i - 1).gen, a);
    } else {
      j := i - 1;
      assert IsHint(p[j]) && a == |OpenAt(p, j)| by { NewAtHint(p, i, a); }
      HintNest(p, j);
      HintRecord(SavedAt(pl, p, j), p[j], CgAt(pl, p, j).gen);
    }
  }

  lemma SomethingOpen(p: Code, i: nat, a: nat)
    requires i <= |p| && a < |OpenAt(p, i)|
    ensures i > 0
  {
  }

  lemma NewAtHint(p: Code, i: nat, a: nat)
    requires 0 < i <= |p| && a < |OpenAt(p, i)| && !(a < |OpenAt(p, i - 1)| && OpenAt(p, i - 1)[a] == OpenAt(p, i)[a])
    ensures IsHint(p[i - 1]) && a == |OpenAt(p, i - 1)|
  {
  }

  lemma HintRecord(saved: seq<Reg>, q: Quad, g: Gen)
    requires IsHint(q)
    ensures Effect(saved, q, g).calls == g.calls + [CallState(saved, 0, 0)]
  {
  }

  /** What a call gives back: the registers of everything needed afterwards but its result, and not the result's. */
  lemma GivenBack(pl: Plan, p: Code, home: Homes, pc: nat, u: nat)
    requires Setting(pl, p, home) && pc < |p| && IsCall(p[pc]) && Spanned(pl, pc, u) && OpenAt(p, pc) != []
    requires home(u) == Front(OpenAt(p, pc)) && PlaceOf(pl, p, u).Some? && PlaceOf(pl, p, u).value.InReg?
    ensures |Record(pl, p, pc)| == |OpenAt(p, pc)|
    ensures PlaceOf(pl, p, u).value.reg in Record(pl, p, pc)[|OpenAt(p, pc)| - 1].pushed <==> p[pc].res != ATemp(u)
  {
    hide Fits, CgAt, SavedAt, NestAt, Loyal, Ordered, PlaceOf;
    RecordSize(pl, p, home, pc);
    FitsAt(pl, p, home, pc);
    var n := |OpenAt(p, pc)| - 1;
    if p[pc].res == ATemp(u) {
      var j := OpenedAt(pl, p, home, pc, n);
      RangeHere(pl, p, home, j, u);
      SavedWhereNeeded(pl, p, home, j, u);
    } else {
      OuterSaved(pl, p, home, pc, u);
    }
  }

  lemma OuterSaved(pl: Plan, p: Code, home: Homes, pc: nat, u: nat)
    requires Setting(pl, p, home) && pc < |p| && Spanned(pl, pc, u) && OpenAt(p, pc) != []
    requires |Record(pl, p, pc)| == |OpenAt(p, pc)|
    requires home(u) == Front(OpenAt(p, pc)) && PlaceOf(pl, p, u).Some? && PlaceOf(pl, p, u).value.InReg?
    requires OpenAt(p, pc)[|OpenAt(p, pc)| - 1].res != ATemp(u)
    ensures PlaceOf(pl, p, u).value.reg in Record(pl, p, pc)[|OpenAt(p, pc)| - 1].pushed
  {
    hide Fits, CgAt, Loaded, NestAt, Loyal, Ordered, PlaceOf, LocOf, Saves, Shaped, RegsApart, Known;
    PassAlways(pl, p, home, pc);
    OnePlace(pl, p, home, u, pc);
    assert Alive(pl, Loaded(pl, p, pc), u, pc);
    assert Kept(pl, p, home, Loaded(pl, p, pc), Record(pl, p, pc), pc, u, PlaceOf(pl, p, u).value.reg);
  }

  function Returned(pl: Plan, p: Code, junk: Junk, s: RState, res: Operand, v: Val, store: Store): RState
    requires s.frames != []
  {
    var f := s.frames[|s.frames| - 1];
    RState(s.pc + 1, Restore(SetTemp(res, v, Spoil(s.cells, SAVE_ORDER, junk, s.time)), f.saved), SetName(res, v, store),
           Front(s.frames), s.time + 1)
  }

  /** The result operand a call sets: none for a call of a procedure. */
  function ResultOf(q: Quad): Operand
    requires IsCall(q)
  {
    if q.op == PCall then ANone else q.res
  }

  lemma ResultTemp(pl: Plan, p: Code, home: Homes, junk: Junk, s: RState, v: Val, store: Store)
    requires Setting(pl, p, home) && s.pc < |p| && IsCall(p[s.pc]) && ResultOf(p[s.pc]).ATemp? && s.frames != []
    requires |s.frames| == |OpenAt(p, s.pc)| == |Record(pl, p, s.pc)|
    requires s.frames[|s.frames| - 1].saved.Keys == Numbers(Record(pl, p, s.pc)[|s.frames| - 1].pushed)
    ensures var q := p[s.pc];
            TempView(Cells(pl, p), home, Returned(pl, p, junk, s, MoveOperand(Cells(pl, p), ResultOf(q)), v, store), q.res.t) == v
  {
    hide Fits, CgAt, NestAt, Loyal, Ordered, PlaceOf, HomeAt, Loaded;
    var pc, u := s.pc, p[s.pc].res.t;
    RangeHere(pl, p, home, pc, u);
    ResultHome(p, pc);
    CellKind(pl, p, home, pc, u);
    if PlaceOf(pl, p, u).value.InReg? {
      GivenBack(pl, p, home, pc, u);
      InNumbers(PlaceOf(pl, p, u).value.reg, Record(pl, p, pc)[|s.frames| - 1].pushed);
    } else {
      RegistersOnly(Record(pl, p, pc)[|s.frames| - 1].pushed, Cells(pl, p)(u));
    }
  }

  lemma ResultHome(p: Code, i: nat)
    requires i < |p| && IsCall(p[i]) && p[i].res.ATemp?
    ensures HomeAt(p, i, p[i].res.t) == Front(OpenAt(p, i))
  {
    hide NestAt;
  }

  /** Everything else that is needed after a call. */
  lemma CallTemp(pl: Plan, p: Code, home: Homes, junk: Junk, s: RState, v: Val, store: Store, u: nat)
    requires Setting(pl, p, home) && s.pc < |p| && IsCall(p[s.pc]) && Reach(p, s.pc) && s.frames != []
    requires |s.frames| == |OpenAt(p, s.pc)| == |Record(pl, p, s.pc)|
    requires s.frames[|s.frames| - 1].saved.Keys == Numbers(Record(pl, p, s.pc)[|s.frames| - 1].pushed)
    requires NeedAt(p, s.pc + 1, u) && !Writes(p[s.pc], u)
    ensures NeedAt(p, s.pc, u)
    ensures TempView(Cells(pl, p), home, Returned(pl, p, junk, s, MoveOperand(Cells(pl, p), ResultOf(p[s.pc])), v, store), u) ==
            TempView(Cells(pl, p), home, s, u)
  {
    hide Fits, CgAt, NestAt, Loyal, Ordered, PlaceOf, HomeAt, Loaded, NeedAt, NeedAfter, Reach, Needed;
    var pc := s.pc;
    ReachNext(p, pc, pc + 1);
    NeedBack(p, pc, pc + 1, u);
    NeedThrough(p, pc, u);
    NeededHere(pl, p, home, pc, u);
    NeededHere(pl, p, home, pc + 1, u);
    CallNest(p, pc);
    CellKind(pl, p, home, pc, u);
    NotTheResult(pl, p, home, pc, u);
    if PlaceOf(pl, p, u).value.InReg? {
      if |home(u)| + 1 == |s.frames| {
        SamePrefix(home(u), Front(OpenAt(p, pc)));
        GivenBack(pl, p, home, pc, u);
        InNumbers(PlaceOf(pl, p, u).value.reg, Record(pl, p, pc)[|s.frames| - 1].pushed);
      }
    } else {
      RegistersOnly(Record(pl, p, pc)[|s.frames| - 1].pushed, Cells(pl, p)(u));
      RegistersOnly(SAVE_ORDER, Cells(pl, p)(u));
      if ResultOf(p[pc]).ATemp? {
        RangeHere(pl, p, home, pc, p[pc].res.t);
        CellsApart(pl, p, home, pc, p[pc].res.t, u);
      }
    }
  }

  lemma NotTheResult(pl: Plan, p: Code, home: Homes, pc: nat, u: nat)
    requires Fits(pl, p, home) && pc < |p| && IsCall(p[pc]) && !Writes(p[pc], u)
    ensures p[pc].res != ATemp(u)
  {
    hide Fits, NestAt, SameCalls, LastMention;
    FitsAt(pl, p, home, pc);
  }

  lemma CallFrame(pl: Plan, p: Code, home: Homes, junk: Junk, s: RState, res: Operand, v: Val, store: Store,
                  args: seq<Val>, h: nat)
    requires Setting(pl, p, home) && s.pc < |p| && IsCall(p[s.pc]) && FrameAlike(pl, p, s.pc, args, s, h)
    requires |s.frames| == |OpenAt(p, s.pc)| && h + 1 < |s.frames|
    requires res.ATemp? ==> forall j :: 0 <= j < |PARAM_ORDER| ==> res.t != Param(j)
    ensures FrameAlike(pl, p, s.pc + 1, args, Returned(pl, p, junk, s, res, v, store), h)
  {
    hide NestAt, Setting, FrameAlike, Record, Returned, ArgsSaved;
    var s1 := Returned(pl, p, junk, s, res, v, store);
    assert Fits(pl, p, home) by { SettingFits(pl, p, home); }
    CallNest(p, s.pc);
    RecordSize(pl, p, home, s.pc);
    RecordSize(pl, p, home, s.pc + 1);
    SavedSame(pl, p, home, s.pc, h);
    SavedArgs(pl, p, s.pc, args, s, h);
    ReturnedViews(pl, p, junk, s, res, v, store, h);
    FrameCarry(pl, p, s.pc, s.pc + 1, args, s, s1, h);
  }

  lemma SavedArgs(pl: Plan, p: Code, pc: nat, args: seq<Val>, s: RState, h: nat)
    requires pc <= |p| && FrameAlike(pl, p, pc, args, s, h) && h + 1 < |s.frames|
    ensures ArgsSaved(s.frames[h], s.frames[h + 1])
  {
    hide Record, ArgsSaved;
  }

  lemma ReturnedViews(pl: Plan, p: Code, junk: Junk, s: RState, res: Operand, v: Val, store: Store, h: nat)
    requires h + 1 < |s.frames| && ArgsSaved(s.frames[h], s.frames[h + 1])
    requires res.ATemp? ==> forall j :: 0 <= j < |PARAM_ORDER| ==> res.t != Param(j)
    ensures var s1 := Returned(pl, p, junk, s, res, v, store);
            && h < |s1.frames| && s1.frames[h] == s.frames[h]
            && (h + 1 < |s1.frames| ==> s1.frames[h + 1] == s.frames[h + 1])
            && forall j: nat :: j < |PARAM_ORDER| && j < s.frames[h].inRegs ==> ParamView(s1, h, j) == ParamView(s, h, j)
  {
    hide Param, Restore, Spoil;
    var s1 := Returned(pl, p, junk, s, res, v, store);
    forall j: nat | j < |PARAM_ORDER| && j < s.frames[h].inRegs
      ensures ParamView(s1, h, j) == ParamView(s, h, j)
    {
      assert Param(j) in s.frames[h + 1].saved;
    }
  }

  /** The callee is given the arguments that were passed. */
  lemma SameArgs(pl: Plan, p: Code, args: seq<Val>, s: RState)
    requires s.pc <= |p| && s.frames != [] && FrameAlike(pl, p, s.pc, args, s, |s.frames| - 1)
    ensures var f := s.frames[|s.frames| - 1]; RegArgs(s.cells, f.inRegs) + f.rest == args
  {
    hide Record, NestAt;
    var f := s.frames[|s.frames| - 1];
    var a := RegArgs(s.cells, f.inRegs) + f.rest;
    forall j | 0 <= j < |args|
      ensures a[j] == args[j]
    {
      assert args[j] == ArgView(s, |s.frames| - 1, j);
      if j < f.inRegs {
        ArgsFound(s.cells, f.inRegs, j);
      }
    }
  }

  /** The step of the quad machine. */
  lemma StepCall(env: Env, p: Code, s: State)
    requires s.pc < |p| && IsCall(p[s.pc]) && s.frames != []
    ensures var g, n := Read(p[s.pc].arg1, s.temps, s.store), |s.frames| - 1;
            Step(env, p, s) ==
            if !g.Fn? then Stuck
            else match env(g.name, s.frames[n], s.store)
              case None => Stuck
              case Some((v, store)) =>
                Write(ResultOf(p[s.pc]), v, s.(store := store, frames := Front(s.frames)))
  {
    hide Read;
  }

  lemma RStepCall(env: Env, junk: Junk, pl: Plan, p: Code, s: RState)
    requires s.pc < |p| && IsCall(p[s.pc]) && s.frames != [] && Compiled(pl, p).code == Move(Cells(pl, p), p)
    ensures var f := s.frames[|s.frames| - 1];
            var g := Read(MoveOperand(Cells(pl, p), p[s.pc].arg1), s.cells, s.store);
            RStep(env, junk, Compiled(pl, p), s) ==
            if !g.Fn? then RStuck
            else match env(g.name, RegArgs(s.cells, f.inRegs) + f.rest, s.store)
              case None => RStuck
              case Some((v, store)) =>
                RAt(Returned(pl, p, junk, s, MoveOperand(Cells(pl, p), ResultOf(p[s.pc])), v, store))
  {
    hide Cells, Loaded, Read;
  }

  lemma ResultCell(pl: Plan, p: Code, home: Homes, pc: nat)
    requires Fits(pl, p, home) && pc < |p| && IsCall(p[pc])
    ensures var res := MoveOperand(Cells(pl, p), ResultOf(p[pc]));
            res.ATemp? ==> forall j :: 0 <= j < |PARAM_ORDER| ==> res.t != Param(j)
  {
    hide Fits, Cells;
    if ResultOf(p[pc]).ATemp? {
      RangeHere(pl, p, home, pc, p[pc].res.t);
      CellKind(pl, p, home, pc, p[pc].res.t);
    }
  }

  lemma CalleeHome(pl: Plan, p: Code, home: Homes, pc: nat)
    requires Fits(pl, p, home) && pc < |p| && IsCall(p[pc]) && p[pc].arg1.ATemp?
    ensures home(p[pc].arg1.t) == OpenAt(p, pc)
  {
    hide Fits, NestAt, LastMention, SameCalls;
    FitsAt(pl, p, home, pc);
    RangeHere(pl, p, home, pc, p[pc].arg1.t);
  }

  /** The states after the call has returned. */
  lemma ReturnSim(pl: Plan, p: Code, home: Homes, junk: Junk, s: State, s': RState, v: Val, store: Store)
    requires Setting(pl, p, home) && Sim(pl, p, home, s, s') && s.pc < |p| && IsCall(p[s.pc]) && s.frames != []
    ensures var q := p[s.pc];
            SimStatus(pl, p, home, Write(ResultOf(q), v, s.(store := store, frames := Front(s.frames))),
                      RAt(Returned(pl, p, junk, s', MoveOperand(Cells(pl, p), ResultOf(q)), v, store)))
  {
    hide NeedAt, NestAt, Cells, Fits, Loyal, Ordered, Reach, Record, TempView, Sim, Returned, FrameAlike, ArgView,
         ArgsSaved;
    var pc, n := s.pc, |s.frames| - 1;
    var res := MoveOperand(Cells(pl, p), ResultOf(p[pc]));
    var s1 := Write(ResultOf(p[pc]), v, s.(store := store, frames := Front(s.frames))).s;
    SimParts(pl, p, home, s, s');
    var s1' := Returned(pl, p, junk, s', res, v, store);
    RecordSize(pl, p, home, pc);
    ReachNext(p, pc, pc + 1);
    CallNest(p, pc);
    ResultCell(pl, p, home, pc);
    ReturnedParts(pl, p, home, junk, s', res, v, store);
    SavedKeys(pl, p, pc, s.frames[n], s', n);
    forall h | 0 <= h < |s1.frames|
      ensures FrameAlike(pl, p, pc + 1, s1.frames[h], s1', h)
    {
      CallFrame(pl, p, home, junk, s', res, v, store, s.frames[h], h);
    }
    forall u: nat | NeedAt(p, pc + 1, u)
      ensures Get(s1.temps, u) == TempView(Cells(pl, p), home, s1', u)
    {
      if Writes(p[pc], u) {
        ResultTemp(pl, p, home, junk, s', v, store);
      } else {
        CallTemp(pl, p, home, junk, s', v, store, u);
        NotTheResult(pl, p, home, pc, u);
      }
    }
    SimFrom(pl, p, home, s1, s1');
  }

  lemma ReturnedParts(pl: Plan, p: Code, home: Homes, junk: Junk, s: RState, res: Operand, v: Val, store: Store)
    requires s.frames != [] && s.pc < |p| && IsCall(p[s.pc]) && res == MoveOperand(Cells(pl, p), ResultOf(p[s.pc]))
    ensures var t := Returned(pl, p, junk, s, res, v, store);
            && t.pc == s.pc + 1 && t.store == SetName(ResultOf(p[s.pc]), v, store) && t.frames == Front(s.frames)
  {
    hide Cells, Restore, Spoil;
  }

  lemma SavedKeys(pl: Plan, p: Code, pc: nat, args: seq<Val>, s: RState, h: nat)
    requires pc <= |p| && FrameAlike(pl, p, pc, args, s, h)
    ensures h < |Record(pl, p, pc)| && s.frames[h].saved.Keys == Numbers(Record(pl, p, pc)[h].pushed)
  {
    hide Record;
  }

  lemma CallStep(env: Env, junk: Junk, pl: Plan, p: Code, home: Homes, s: State, s': RState)
    requires Setting(pl, p, home) && Sim(pl, p, home, s, s') && s.pc < |p| && IsCall(p[s.pc])
    ensures SimStatus(pl, p, home, Step(env, p, s), RStep(env, junk, Compiled(pl, p), s'))
  {
    hide NestAt, Cells, Setting, Reach, Record, Sim, Returned, FrameAlike, Step, RStep, Read, Compiled, MoveOperand,
         LastMention;
    var pc := s.pc;
    assert Fits(pl, p, home) by { SettingFits(pl, p, home); }
    SimParts(pl, p, home, s, s');
    CodeMoved(pl, p, home);
    FitsAt(pl, p, home, pc);
    if p[pc].arg1.ATemp? {
      CalleeHome(pl, p, home, pc);
    }
    ReadSame(pl, p, home, s, s', p[pc].arg1);
    SameArgs(pl, p, s.frames[|s.frames| - 1], s');
    StepCall(env, p, s);
    RStepCall(env, junk, pl, p, s');
    var g := Read(p[pc].arg1, s.temps, s.store);
    if g.Fn? {
      match env(g.name, s.frames[|s.frames| - 1], s.store)
      case Some((v, store)) => ReturnSim(pl, p, home, junk, s, s', v, store);
      case None =>
    }
  }

  lemma SettingFits(pl: Plan, p: Code, home: Homes)
    requires Setting(pl, p, home)
    ensures Fits(pl, p, home)
  {
  }

  // ----- runs -----

  lemma AnyStep(env: Env, junk: Junk, pl: Plan, p: Code, home: Homes, s: State, s': RState)
    requires Setting(pl, p, home) && Sim(pl, p, home, s, s')
    ensures SimStatus(pl, p, home, Step(env, p, s), RStep(env, junk, Compiled(pl, p), s'))
  {
    hide Setting, Sim, Loaded, NestAt, SavedAt;
    SimParts(pl, p, home, s, s');
    if s.pc < |p| {
      if p[s.pc].Label? {
        LabelStep(env, junk, pl, p, home, s, s');
      } else if IsHint(p[s.pc]) {
        HintStep(env, junk, pl, p, home, s, s');
      } else if IsArg(p[s.pc]) {
        ArgStep(env, junk, pl, p, home, s, s');
      } else if IsCall(p[s.pc]) {
        CallStep(env, junk, pl, p, home, s, s');
      } else {
        InsideStep(env, junk, pl, p, home, s, s');
      }
    }
  }

  /** The allocated code runs in step with the quads, for any number of steps, whatever callees and scratch
      use leave in registers. */
  lemma {:induction false} RunsAlike(env: Env, junk: Junk, pl: Plan, p: Code, home: Homes, s: State, s': RState, n: nat)
    requires Setting(pl, p, home) && Sim(pl, p, home, s, s')
    ensures SimStatus(pl, p, home, Run(env, p, s, n), RRun(env, junk, Compiled(pl, p), s', n))
    decreases n
  {
    hide Setting, Sim, Step, RStep, Compiled;
    if n > 0 {
      AnyStep(env, junk, pl, p, home, s, s');
      match Step(env, p, s)
      case At(s1) => RunsAlike(env, junk, pl, p, home, s1, RStep(env, junk, Compiled(pl, p), s').s, n - 1);
      case _ =>
    }
  }

  /** From the first quad, with nothing known of the cells. */
  lemma StartSim(pl: Plan, p: Code, home: Homes, s: State, cells: Temps, time: nat)
    requires Setting(pl, p, home) && s.pc == 0 && s.frames == []
    ensures Sim(pl, p, home, s, RState(0, cells, s.store, [], time))
  {
    hide NeedAt, Fits, Loyal;
    assert ReachIn(p, 0, 0);
  }
}
