/** What the generator's pass guarantees when no location is lost: one place for each temporary, apart from the
    others, saved when it must be. */
module CallPlaces {
  import opened Ast
  import opened Quads
  import opened LiveRanges
  import opened Nests
  import opened RegAlloc
  import opened Frames
  import opened Calls
  import opened CallSim
  import opened CallAlloc

  /** What is assumed of the code and the plan: the generator's own assertion that arguments are temporaries,
      temporaries out of the argument registers, and no register taken for one quad over a mark. */
  ghost predicate Fits(pl: Plan, p: Code, home: Homes)
  {
    && Given(pl, p) && Framed(p, home)
    && Apiece(pl, p) && ScratchFree(pl, p)
    && forall i: nat :: i < |p| && IsArg(p[i]) ==> p[i].arg1.ATemp?
  }

  function Record(pl: Plan, p: Code, i: nat): seq<CallState>
    requires i <= |p|
  {
    CgAt(pl, p, i).gen.calls
  }

  ghost predicate SavedOnce(calls: seq<CallState>)
  {
    forall j :: 0 <= j < |calls| ==> Distinct(calls[j].pushed)
  }

  ghost predicate PassHolds(pl: Plan, p: Code, home: Homes, i: nat)
    requires i <= |p|
  {
    Inv(pl, p, home, CgAt(pl, p, i).alloc, Record(pl, p, i), i) && SavedOnce(Record(pl, p, i))
  }

  lemma StartHolds(pl: Plan, p: Code, home: Homes)
    requires Ready(pl.start)
    ensures PassHolds(pl, p, home, 0)
  {
    hide TempLabel, SlotsApart;
    assert forall t: nat :: LocOf(pl.start, t) == None;
  }

  lemma NextRecord(pl: Plan, p: Code, i: nat)
    requires i < |p|
    ensures CgAt(pl, p, i + 1).gen == Effect(SavedAt(pl, p, i), p[i], CgAt(pl, p, i).gen)
    ensures CgAt(pl, p, i + 1).alloc == After(pl, p[i], i, Loaded(pl, p, i), CgAt(pl, p, i).gen, SavedAt(pl, p, i))
  {
    hide After, Effect, SavedAt, Loaded;
  }

  lemma FitsAt(pl: Plan, p: Code, home: Homes, i: nat)
    requires Fits(pl, p, home) && i < |p|
    ensures Orderly(p, i) && (IsArg(p[i]) ==> p[i].arg1.ATemp?)
    ensures ScratchOk(pl, p, i)
  {
    hide Given, Apiece, Housed, Orderly, CgAt, Loaded;
  }

  lemma {:induction false} PassAlways(pl: Plan, p: Code, home: Homes, i: nat)
    requires Fits(pl, p, home) && i <= |p|
    ensures PassHolds(pl, p, home, i)
    ensures i < |p| ==> Inv(pl, p, home, Loaded(pl, p, i), Record(pl, p, i), i) && Known(pl, Loaded(pl, p, i), i + 1)
  {
    hide Inv, Given, Apiece, ScratchFree, Framed, CgAt, Loaded, Known, SavedOnce;
    if i == 0 {
      StartHolds(pl, p, home) by { GivenReady(pl, p); }
    } else {
      PassAlways(pl, p, home, i - 1);
      PassStep(pl, p, home, i - 1);
    }
    if i < |p| {
      assert Given(pl, p) && Framed(p, home) && SpareHere(p[i], Loaded(pl, p, i)) by { FitsSpare(pl, p, home, i); }
      LoadedInv(pl, p, home, i);
    }
  }

  lemma FitsSpare(pl: Plan, p: Code, home: Homes, i: nat)
    requires Fits(pl, p, home) && i < |p|
    ensures Given(pl, p) && Framed(p, home) && SpareHere(p[i], Loaded(pl, p, i))
  {
    hide Loaded, CgAt, Given, Framed, ScratchFree, LocOf;
  }

  lemma GivenReady(pl: Plan, p: Code)
    requires Given(pl, p)
    ensures Ready(pl.start) && RangesOf(p, pl.ranges) && |p| <= LAST && Asks(p, pl.asks)
  {
  }

  lemma PassStep(pl: Plan, p: Code, home: Homes, i: nat)
    requires Fits(pl, p, home) && i < |p| && PassHolds(pl, p, home, i)
    requires Inv(pl, p, home, Loaded(pl, p, i), Record(pl, p, i), i) && Known(pl, Loaded(pl, p, i), i + 1)
    ensures PassHolds(pl, p, home, i + 1)
  {
    hide Inv, Known, CgAt, Loaded, Fits, PassHolds;
    FitsAt(pl, p, home, i);
    FitsParts(pl, p, home);
    QuadPasses(pl, p, home, i);
  }

  lemma QuadPasses(pl: Plan, p: Code, home: Homes, i: nat)
    requires i < |p| && Given(pl, p) && Framed(p, home) && PassHolds(pl, p, home, i)
    requires ScratchOk(pl, p, i) && (IsArg(p[i]) ==> p[i].arg1.ATemp?)
    requires Inv(pl, p, home, Loaded(pl, p, i), Record(pl, p, i), i) && Known(pl, Loaded(pl, p, i), i + 1)
    ensures PassHolds(pl, p, home, i + 1)
  {
    hide Inv, Given, Framed, Known, CgAt, Loaded, Orderly, MarkAll, Close, Brackets, Placed, BusyRegs;
    var S, g, q := Loaded(pl, p, i), CgAt(pl, p, i).gen, p[i];
    NextRecord(pl, p, i);
    GivenReady(pl, p);
    if q.Label? {
      LabelAfter(pl, p, home, S, g.calls, i);
    } else if IsHint(q) {
      HintAfter(pl, p, home, S, g.calls, i);
      SavedRegs(S.stacks, i, RegOf(S, q.res), RAX);
    } else {
      assert NeedsCall(q) ==> g.calls != [] by {
        assert Orderly(p, i) by { OrderlyAt(p, home, i); }
        OpenRecord(pl, p, home, S, g.calls, i);
      }
      if IsArg(q) {
        ArgAfter(pl, p, home, S, g.calls, PassArg(g).calls, i, Calls.Passed(TopCall(g)));
      } else if IsCall(q) {
        CallAfter(pl, p, home, S, g.calls, i);
      } else {
        InsideAfter(pl, p, home, S, g.calls, i);
      }
    }
  }

  lemma OrderlyAt(p: Code, home: Homes, i: nat)
    requires Framed(p, home) && i < |p|
    ensures Orderly(p, i)
  {
    hide Housed, Orderly;
  }

  lemma FitsParts(pl: Plan, p: Code, home: Homes)
    requires Fits(pl, p, home)
    ensures Given(pl, p) && Framed(p, home) && Apiece(pl, p)
  {
  }

  lemma OpenRecord(pl: Plan, p: Code, home: Homes, S: Alloc, calls: seq<CallState>, i: nat)
    requires i < |p| && Inv(pl, p, home, S, calls, i) && Orderly(p, i)
    ensures NeedsCall(p[i]) ==> calls != []
  {
    hide NestAt, Shaped, KeptAll, RegsApart, Known;
  }

  // ----- one place for each temporary -----

  /** No quad gives a temporary that is still to be mentioned another place. */
  lemma StepKeepsPlace(pl: Plan, p: Code, home: Homes, i: nat, t: nat)
    requires Fits(pl, p, home) && i < |p| && t in pl.ranges && i < pl.ranges[t].ends && LocOf(Loaded(pl, p, i), t).Some?
    ensures LocOf(CgAt(pl, p, i + 1).alloc, t) == LocOf(Loaded(pl, p, i), t)
    ensures i + 1 < |p| ==> LocOf(Loaded(pl, p, i + 1), t) == LocOf(Loaded(pl, p, i), t)
  {
    hide CgAt, Loaded, Fits, Given, Framed, MarkAll, Close, Brackets, Placed, TempLabel, Orderly;
    var S, g, q := Loaded(pl, p, i), CgAt(pl, p, i).gen, p[i];
    NextRecord(pl, p, i);
    FitsAt(pl, p, home, i);
    FitsParts(pl, p, home);
    GivenReady(pl, p);
    if IsArg(q) && g.calls != [] {
      var u := q.arg1.t;
      ParamStays(S, u, Calls.Passed(TopCall(g)), i);
      if u == t {
        assert LastMention(p, i, t) by { OrderlyArg(p, i); }
        GoneAfter(pl, p, i, t);
      }
    }
    if i + 1 < |p| {
      LoadedKeeps(pl, p, i + 1);
    }
  }

  lemma OrderlyArg(p: Code, i: nat)
    requires i < |p| && Orderly(p, i) && IsArg(p[i]) && p[i].arg1.ATemp?
    ensures LastMention(p, i, p[i].arg1.t)
  {
  }

  lemma LoadedKeeps(pl: Plan, p: Code, i: nat)
    requires i < |p|
    ensures CgAt(pl, p, i).alloc.lStack <= Loaded(pl, p, i).lStack
    ensures forall t: nat :: LocOf(CgAt(pl, p, i).alloc, t).Some? ==> LocOf(Loaded(pl, p, i), t) == LocOf(CgAt(pl, p, i).alloc, t)
  {
    hide CgAt, StoreAll, TempLabel;
    AllStored(pl.ranges, CgAt(pl, p, i).alloc, pl.asks(i));
  }

  /** Where a temporary is put when it is first mentioned. */
  ghost function PlaceOf(pl: Plan, p: Code, t: nat): Option<Loc>
  {
    if t in pl.ranges && pl.ranges[t].starts < |p| then LocOf(Loaded(pl, p, pl.ranges[t].starts), t) else None
  }

  /** From its first mention to its last, a temporary has one place, the same in every quad. */
  lemma {:induction false} OnePlace(pl: Plan, p: Code, home: Homes, t: nat, i: nat)
    requires Fits(pl, p, home) && t in pl.ranges && pl.ranges[t].starts <= i <= pl.ranges[t].ends
    ensures i < |p| && PlaceOf(pl, p, t).Some? && LocOf(Loaded(pl, p, i), t) == PlaceOf(pl, p, t)
    decreases i
  {
    hide CgAt, Loaded, Inv, LocOf, Fits, Known, PassHolds;
    EndsInside(pl, p, home, t);
    if i > pl.ranges[t].starts {
      OnePlace(pl, p, home, t, i - 1);
      StepKeepsPlace(pl, p, home, i - 1, t);
    } else {
      PassAlways(pl, p, home, i);
      ArgStored(pl, Loaded(pl, p, i), i, t);
    }
  }

  lemma EndsInside(pl: Plan, p: Code, home: Homes, t: nat)
    requires Fits(pl, p, home) && t in pl.ranges
    ensures pl.ranges[t].ends < |p|
  {
    assert Spans(p, |p|, TempKey(t), RangeOf(pl.ranges, t));
  }

  // ----- the frame -----

  /** The frame only grows, and its slots stay apart. */
  lemma {:induction false} FrameSound(pl: Plan, p: Code, i: nat, n: nat)
    requires i <= n <= |p|
    ensures CgAt(pl, p, i).alloc.lStack <= CgAt(pl, p, n).alloc.lStack
    ensures i < n ==> Loaded(pl, p, i).lStack <= CgAt(pl, p, n).alloc.lStack
    decreases n - i
  {
    hide Loaded, CgAt;
    if i < n {
      LoadedKeeps(pl, p, i);
      NextFrame(pl, p, i);
      FrameSound(pl, p, i + 1, n);
    }
  }

  lemma NextFrame(pl: Plan, p: Code, i: nat)
    requires i < |p|
    ensures CgAt(pl, p, i + 1).alloc.lStack == Loaded(pl, p, i).lStack
    ensures forall x :: x in CgAt(pl, p, i + 1).alloc.locs && CgAt(pl, p, i + 1).alloc.locs[x].OnStack? ==>
                          x in Loaded(pl, p, i).locs && Loaded(pl, p, i).locs[x] == CgAt(pl, p, i + 1).alloc.locs[x]
  {
    hide Loaded, CgAt, MarkAll, Close, Brackets, Reserve, Offset;
    NextRecord(pl, p, i);
  }

  lemma {:induction false} FrameApart(pl: Plan, p: Code, i: nat)
    requires Given(pl, p) && i <= |p|
    ensures SlotsApart(CgAt(pl, p, i).alloc) && (i < |p| ==> SlotsApart(Loaded(pl, p, i)))
    ensures i < |p| ==> Loaded(pl, p, i).lStack <= 0x8000
  {
    hide CgAt, StoreAll, SlotsApart, Spans, Asks;
    FrameSound(pl, p, i, |p|);
    if i == 0 {
      assert CgAt(pl, p, 0).alloc == pl.start by { AtStart(pl, p); }
    } else {
      FrameApart(pl, p, i - 1);
      NextFrame(pl, p, i - 1);
      SlotsCarry(Loaded(pl, p, i - 1), CgAt(pl, p, i).alloc);
    }
    if i < |p| {
      AllSlotsApart(pl.ranges, CgAt(pl, p, i).alloc, pl.asks(i));
    }
  }

  lemma AtStart(pl: Plan, p: Code)
    ensures CgAt(pl, p, 0).alloc == pl.start
  {
  }

  // ----- the guarantees -----

  /** At every quad: all slots, of temporaries and of variables, are apart; every temporary between its first
      and its last mention has its place; two of them that live in the same call are in different registers,
      and no register temporary is in an argument register. */
  lemma AllocationSound(pl: Plan, p: Code, home: Homes, i: nat)
    requires Fits(pl, p, home) && i < |p|
    ensures SlotsApart(Loaded(pl, p, i)) && Loaded(pl, p, i).lStack <= 0x8000
    ensures forall t: nat :: t in pl.ranges && pl.ranges[t].starts <= i <= pl.ranges[t].ends ==> PlacedAt(pl, p, i, t)
    ensures forall t: nat, u: nat :: Together(pl, home, i, t, u) ==> Different(PlaceOf(pl, p, t), PlaceOf(pl, p, u))
  {
    hide Loaded, CgAt, LocOf, Spans, SlotsApart, PlaceOf;
    PassAlways(pl, p, home, i);
    FitsParts(pl, p, home);
    FrameApart(pl, p, i);
    forall t: nat | t in pl.ranges && pl.ranges[t].starts <= i <= pl.ranges[t].ends
      ensures PlacedAt(pl, p, i, t) && LocOf(Loaded(pl, p, i), t) == PlaceOf(pl, p, t)
    {
      OnePlace(pl, p, home, t, i);
      AlivePlaced(pl, p, home, i, t);
    }
    forall t: nat, u: nat | Together(pl, home, i, t, u)
      ensures Different(PlaceOf(pl, p, t), PlaceOf(pl, p, u))
    {
      assert Alive(pl, Loaded(pl, p, i), t, i) && Alive(pl, Loaded(pl, p, i), u, i);
    }
  }

  predicate Different(a: Option<Loc>, b: Option<Loc>)
  {
    a.Some? && b.Some? && !SameReg(a.value, b.value)
  }

  ghost predicate PlacedAt(pl: Plan, p: Code, i: nat, t: nat)
    requires i < |p|
  {
    && PlaceOf(pl, p, t).Some? && LocOf(Loaded(pl, p, i), t) == PlaceOf(pl, p, t)
    && var loc := PlaceOf(pl, p, t).value; OwnPlace(loc) && (loc.InReg? ==> Spare(loc.reg))
  }

  ghost predicate Together(pl: Plan, home: Homes, i: nat, t: nat, u: nat)
  {
    && t != u && home(t) == home(u) && t in pl.ranges && u in pl.ranges
    && pl.ranges[t].starts <= i <= pl.ranges[t].ends && pl.ranges[u].starts <= i <= pl.ranges[u].ends
  }

  lemma AlivePlaced(pl: Plan, p: Code, home: Homes, i: nat, t: nat)
    requires i < |p| && Inv(pl, p, home, Loaded(pl, p, i), Record(pl, p, i), i)
    requires t in pl.ranges && i <= pl.ranges[t].ends && LocOf(Loaded(pl, p, i), t).Some?
    ensures var loc := LocOf(Loaded(pl, p, i), t).value; OwnPlace(loc) && (loc.InReg? ==> Spare(loc.reg))
  {
    hide Loaded, CgAt, LocOf, NestAt, Saves;
    assert Alive(pl, Loaded(pl, p, i), t, i);
  }

  /** Where a call is opened: every register with a temporary that is mentioned later is saved, unless the
      temporary is the call's result; and the result's register is not. */
  lemma SavedWhereNeeded(pl: Plan, p: Code, home: Homes, i: nat, t: nat)
    requires Fits(pl, p, home) && i < |p| && IsHint(p[i]) && t in pl.ranges
    requires pl.ranges[t].starts <= i < pl.ranges[t].ends
    ensures PlaceOf(pl, p, t).Some?
    ensures PlaceOf(pl, p, t).value.InReg? && home(t) == OpenAt(p, i) && p[i].res != ATemp(t) ==>
              PlaceOf(pl, p, t).value.reg in SavedAt(pl, p, i)
    ensures PlaceOf(pl, p, t).value.InReg? && p[i].res == ATemp(t) ==> PlaceOf(pl, p, t).value.reg !in SavedAt(pl, p, i)
  {
    hide Loaded, CgAt, LocOf, Spans, PlaceOf, BusyRegs, Inv, Known, NestAt;
    PassAlways(pl, p, home, i);
    FitsParts(pl, p, home);
    GivenReady(pl, p);
    OnePlace(pl, p, home, t, i);
    var S := Loaded(pl, p, i);
    if PlaceOf(pl, p, t).value.InReg? {
      var r := PlaceOf(pl, p, t).value.reg;
      SavedRegs(S.stacks, i, RegOf(S, p[i].res), r);
      if home(t) == OpenAt(p, i) && p[i].res != ATemp(t) {
        NeededIsSaved(pl, p, home, S, Record(pl, p, i), i, t, r);
      }
    }
  }
}
