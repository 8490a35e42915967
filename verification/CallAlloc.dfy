/** The generator's one pass over a procedure: requests for operands, registers saved, passed in and given back; as it
    goes when its hash map of locations loses nothing. */
module CallAlloc {
  import opened Ast
  import opened Quads
  import opened Liveness
  import opened LiveRanges
  import opened Nests
  import opened RegAlloc
  import opened Frames
  import opened Calls
  import opened CallSim

  /** What the generator knows before a quad. */
  datatype Cg = Cg(alloc: Alloc, gen: Gen)

  /** What is given: the ranges, the allocator at the start, its hash map of locations, the operands asked for while
      each quad is generated, and the registers taken for the length of a quad, as a division takes rdx. */
  datatype Plan = Plan(ranges: map<nat, Range>, start: Alloc, hash: Hash, table: Locs, asks: nat -> seq<Addr>,
                       scratch: nat -> seq<Reg>)

  function RegOf(S: Alloc, a: Operand): Option<Reg>
  {
    if a.ATemp? && LocOf(S, a.t).Some? && LocOf(S, a.t).value.InReg? then Some(LocOf(S, a.t).value.reg) else None
  }

  /** Registers taken and given back within one quad. */
  function Brackets(k: Stacks, regs: seq<Reg>, pos: nat): Stacks
  {
    if regs == [] then k
    else
      var r := regs[|regs| - 1];
      Drop(Reserve(Brackets(k, Front(regs), pos), r, pos), r)
  }

  /** The registers that hold arguments of a call. */
  function ArgRegs(c: CallState): seq<Reg>
  {
    if c.ints <= |PARAM_ORDER| then PARAM_ORDER[..c.ints] else PARAM_ORDER
  }

  /** The allocator when all operands of the quad at i have been stored. */
  function Loaded(pl: Plan, p: Code, i: nat): Alloc
    requires i < |p|
    decreases i, 1
  {
    StoreAll(pl.ranges, CgAt(pl, p, i).alloc, pl.asks(i))
  }

  /** The registers saved where a call is opened: those in use, without the result's. */
  function SavedAt(pl: Plan, p: Code, i: nat): seq<Reg>
    requires i < |p|
    decreases i, 2
  {
    if IsHint(p[i]) then BusyRegs(Loaded(pl, p, i).stacks, i, RegOf(Loaded(pl, p, i), p[i].res)) else []
  }

  function After(pl: Plan, q: Quad, i: nat, S: Alloc, g: Gen, saved: seq<Reg>): Alloc
  {
    if q.Label? then S
    else if IsHint(q) then S.(stacks := MarkAll(S.stacks, saved))
    else if IsArg(q) then
      if g.calls == [] || !q.arg1.ATemp? then S else Placed(S, TempLabel(q.arg1.t), Calls.Passed(TopCall(g)), i, 0)
    else if IsCall(q) then
      if g.calls == [] then S else S.(stacks := Close(S.stacks, ArgRegs(TopCall(g)), TopCall(g).pushed))
    else S.(stacks := Brackets(S.stacks, pl.scratch(i), i))
  }

  /** One pass from the first quad to the last, whatever the jumps. */
  function CgAt(pl: Plan, p: Code, i: nat): Cg
    requires i <= |p|
    decreases i, 0
  {
    if i == 0 then Cg(pl.start, Gen(0, []))
    else
      var g, saved := CgAt(pl, p, i - 1).gen, SavedAt(pl, p, i - 1);
      Cg(After(pl, p[i - 1], i - 1, Loaded(pl, p, i - 1), g, saved), Effect(saved, p[i - 1], g))
  }

  // ----- what is asked of a plan -----

  ghost predicate RangesOf(p: Code, ranges: map<nat, Range>)
  {
    forall t: nat :: Spans(p, |p|, TempKey(t), RangeOf(ranges, t))
  }

  /** Requests are for operands of their quad and leave out no temporary. */
  ghost predicate Asks(p: Code, asks: nat -> seq<Addr>)
  {
    && (forall i: nat, a :: i < |p| && a in asks(i) ==> GoodAsk(p[i], a))
    && (forall i: nat, t: nat :: i < |p| && Mentions(p[i], ATemp(t)) ==> exists a :: a in asks(i) && a.Cgt? && a.t == t)
  }

  ghost predicate GoodAsk(q: Quad, a: Addr)
  {
    a.size > 0 && if a.Cgt? then Mentions(q, ATemp(a.t)) else PlainName(a.name)
  }

  function OperandAsks(a: Operand): seq<Addr>
  {
    if a.ATemp? then [Cgt(a.t, 8, [])] else []
  }

  function QuadAsks(q: Quad): seq<Addr>
  {
    if q.Label? then [] else OperandAsks(q.res) + OperandAsks(q.arg1) + OperandAsks(q.arg2)
  }

  /** Every temporary operand in turn. */
  function TempAsks(p: Code): nat -> seq<Addr>
  {
    (i: nat) => if i < |p| then QuadAsks(p[i]) else []
  }

  lemma QuadAsksGood(q: Quad)
    ensures forall a :: a in QuadAsks(q) ==> GoodAsk(q, a)
    ensures forall t: nat :: Mentions(q, ATemp(t)) ==> Cgt(t, 8, []) in QuadAsks(q)
  {
  }

  /** Asking for every temporary operand in turn leaves out none, for any code. */
  lemma Scheduled(p: Code)
    ensures Asks(p, TempAsks(p))
  {
    hide GoodAsk, QuadAsks, Mentions;
    forall i: nat | i < |p|
      ensures forall a :: a in TempAsks(p)(i) ==> GoodAsk(p[i], a)
      ensures forall t: nat :: Mentions(p[i], ATemp(t)) ==> exists a :: a in TempAsks(p)(i) && a.Cgt? && a.t == t
    {
      QuadAsksGood(p[i]);
      forall t: nat | Mentions(p[i], ATemp(t))
        ensures exists a :: a in TempAsks(p)(i) && a.Cgt? && a.t == t
      {
        assert Cgt(t, 8, []) in TempAsks(p)(i);
      }
    }
  }

  /** Not a register arguments are passed in. */
  predicate Spare(r: Reg)
  {
    r !in PARAM_ORDER
  }

  /** Temporaries are in the frame or in registers no argument is passed in. */
  ghost predicate Apiece(pl: Plan, p: Code)
  {
    forall i: nat, t: nat :: i < |p| && Mentions(p[i], ATemp(t)) && LocOf(Loaded(pl, p, i), t).Some?
                             && LocOf(Loaded(pl, p, i), t).value.InReg? ==>
                               Spare(LocOf(Loaded(pl, p, i), t).value.reg)
  }

  /** How many of the first n open calls have saved a register. */
  function Saves(calls: seq<CallState>, r: Reg, n: nat): nat
    requires n <= |calls|
  {
    if n == 0 then 0 else Saves(calls, r, n - 1) + if r in calls[n - 1].pushed then 1 else 0
  }

  /** A register taken for one quad, if an open call has saved it, is in use again. */
  ghost predicate ScratchOk(pl: Plan, p: Code, i: nat)
    requires i < |p|
  {
    Inside(p[i]) ==> forall r :: r in pl.scratch(i) && Spare(r) ==>
                                   Unsaved(CgAt(pl, p, i).gen.calls, r) || InUse(Loaded(pl, p, i).stacks, r, i)
  }

  ghost predicate ScratchFree(pl: Plan, p: Code)
  {
    forall i: nat :: i < |p| ==> ScratchOk(pl, p, i)
  }

  predicate Unsaved(calls: seq<CallState>, r: Reg)
  {
    Saves(calls, r, |calls|) == 0
  }

  /** A procedure the generator is given: ranges and requests are its own, it starts ready, its frame stays
      within 32768 bytes and its code within 32-bit positions. */
  ghost predicate Given(pl: Plan, p: Code)
  {
    && RangesOf(p, pl.ranges) && Asks(p, pl.asks) && Ready(pl.start)
    && |p| <= LAST && CgAt(pl, p, |p|).alloc.lStack <= 0x8000
  }

  // ----- the invariant of the pass -----

  /** Each saved register has one entry for every call that saved it, and at most one more. */
  ghost predicate Shaped(S: Alloc, calls: seq<CallState>)
  {
    forall r :: Spare(r) ==> ShapedOne(StackOf(S.stacks, r), Saves(calls, r, |calls|))
  }

  predicate ShapedOne(s: seq<Option<Range>>, n: nat)
  {
    |s| <= n + 1 && (n > 0 ==> |s| == n + 1)
  }

  /** Stored, and mentioned at i or later. */
  ghost predicate Alive(pl: Plan, S: Alloc, t: nat, i: nat)
  {
    LocOf(S, t).Some? && t in pl.ranges && i <= pl.ranges[t].ends
  }

  /** The range of a temporary in a register is where the calls it lives in have left it, and every call opened
      since has saved the register, or is about to set the temporary. */
  ghost predicate Kept(pl: Plan, p: Code, home: Homes, S: Alloc, calls: seq<CallState>, i: nat, t: nat, r: Reg)
    requires i <= |p|
  {
    var d := |home(t)|;
    && Spare(r) && t in pl.ranges && d <= |calls| == |OpenAt(p, i)|
    && Saves(calls, r, d) < |StackOf(S.stacks, r)|
    && StackOf(S.stacks, r)[Saves(calls, r, d)] == Some(pl.ranges[t])
    && (d < |calls| ==> r in calls[d].pushed || OpenAt(p, i)[d].res == ATemp(t))
  }

  /** A register, or a slot that is not empty. */
  predicate OwnPlace(a: Loc)
  {
    a.InReg? || (a.OnStack? && a.size > 0)
  }

  ghost predicate KeptAll(pl: Plan, p: Code, home: Homes, S: Alloc, calls: seq<CallState>, i: nat)
    requires i <= |p|
  {
    forall t: nat :: Alive(pl, S, t, i) ==>
                       && pl.ranges[t].starts <= i && OwnPlace(LocOf(S, t).value)
                       && (LocOf(S, t).value.InReg? ==> Kept(pl, p, home, S, calls, i, t, LocOf(S, t).value.reg))
  }

  /** Temporaries of the same call are in different registers. */
  ghost predicate RegsApart(pl: Plan, home: Homes, S: Alloc, i: nat)
  {
    forall t: nat, u: nat :: t != u && Alive(pl, S, t, i) && Alive(pl, S, u, i) && home(t) == home(u) ==>
                               !SameReg(LocOf(S, t).value, LocOf(S, u).value)
  }

  predicate SameReg(a: Loc, b: Loc)
  {
    a.InReg? && a == b
  }

  /** Whatever is mentioned before n has a location. */
  ghost predicate Known(pl: Plan, S: Alloc, n: nat)
  {
    forall t: nat :: t in pl.ranges && pl.ranges[t].starts < n ==> LocOf(S, t).Some?
  }

  ghost predicate Inv(pl: Plan, p: Code, home: Homes, S: Alloc, calls: seq<CallState>, i: nat)
  {
    && i <= |p| && |calls| == |OpenAt(p, i)|
    && Shaped(S, calls) && KeptAll(pl, p, home, S, calls, i) && RegsApart(pl, home, S, i) && Known(pl, S, i)
  }

  // ----- requests -----

  lemma {:induction false} OpeningHinted(p: Code, i: nat, a: nat) returns (j: nat)
    requires i <= |p| && a < |OpenAt(p, i)|
    ensures j < i && IsHint(p[j]) && p[j].res == OpenAt(p, i)[a].res
  {
    var n := NestAt(p, i - 1);
    if a < |n.open| && n.open[a] == OpenAt(p, i)[a] {
      j := OpeningHinted(p, i - 1, a);
    } else {
      j := i - 1;
    }
  }

  /** A temporary that has no location when its quad is reached is mentioned for the first time, in the
      innermost open call. */
  lemma FirstMention(pl: Plan, p: Code, home: Homes, S: Alloc, i: nat, t: nat)
    requires i < |p| && RangesOf(p, pl.ranges) && Framed(p, home) && Known(pl, S, i)
    requires Mentions(p[i], ATemp(t)) && LocOf(S, t).None?
    ensures t in pl.ranges && pl.ranges[t].starts == i <= pl.ranges[t].ends && home(t) == OpenAt(p, i)
  {
    hide NestAt, Framed, RangesOf, LocOf;
    MentionRange(p, pl.ranges, i, t);
    HomeHere(p, home, i, t);
    if IsCall(p[i]) && p[i].res == ATemp(t) {
      ResultHinted(p, home, i, t);
      var j: nat :| j < i && Mentions(p[j], ATemp(t));
      MentionRange(p, pl.ranges, j, t);
    }
  }

  lemma MentionRange(p: Code, ranges: map<nat, Range>, i: nat, t: nat)
    requires RangesOf(p, ranges) && i < |p| && Mentions(p[i], ATemp(t))
    ensures t in ranges && ranges[t].starts <= i <= ranges[t].ends < |p|
  {
    assert Spans(p, |p|, TempKey(t), RangeOf(ranges, t)) && Hits(p[i], TempKey(t));
  }

  lemma HomeHere(p: Code, home: Homes, i: nat, t: nat)
    requires Framed(p, home) && i < |p| && Mentions(p[i], ATemp(t))
    ensures home(t) == HomeAt(p, i, t)
  {
    hide Orderly, HomeAt;
  }

  lemma ResultHinted(p: Code, home: Homes, i: nat, t: nat)
    requires i < |p| && Framed(p, home) && IsCall(p[i]) && p[i].res == ATemp(t)
    ensures exists j: nat :: j < i && Mentions(p[j], ATemp(t))
  {
    hide NestAt, LastMention, SameCalls, Housed;
    assert Orderly(p, i);
    var j := OpeningHinted(p, i, |OpenAt(p, i)| - 1);
    assert Mentions(p[j], ATemp(t));
  }

  /** Nothing in use lives where a register with no range in the way is given away. */
  lemma GivenAway(pl: Plan, p: Code, home: Homes, S: Alloc, calls: seq<CallState>, i: nat, t: nat, r: Reg, u: nat)
    requires Inv(pl, p, home, S, calls, i) && Spare(r) && t in pl.ranges
    requires pl.ranges[t].starts == i <= pl.ranges[t].ends
    requires !Intersects(Some(pl.ranges[t]), Peek(S.stacks, r))
    requires Alive(pl, S, u, i) && LocOf(S, u) == Some(InReg(r))
    ensures |home(u)| <= |calls| && Saves(calls, r, |home(u)|) + 1 < |StackOf(S.stacks, r)| == Saves(calls, r, |calls|) + 1
  {
    hide LocOf, RegsApart, Known, NestAt;
    assert Kept(pl, p, home, S, calls, i, u, r);
    SavesGrow(calls, r, |home(u)|, |calls|);
    assert ShapedOne(StackOf(S.stacks, r), Saves(calls, r, |calls|));
  }

  lemma {:induction false} SavesGrow(calls: seq<CallState>, r: Reg, m: nat, n: nat)
    requires m <= n <= |calls|
    ensures Saves(calls, r, m) <= Saves(calls, r, n)
  {
    if m < n {
      SavesGrow(calls, r, m, n - 1);
    }
  }

  /** A temporary that gets a register: it is the latest in it, and nobody in use lost an entry. */
  lemma RegisterGiven(pl: Plan, p: Code, home: Homes, S: Alloc, calls: seq<CallState>, i: nat, t: nat, r: Reg)
    requires i < |p| && Inv(pl, p, home, S, calls, i) && LocOf(S, t).None? && Spare(r) && home(t) == OpenAt(p, i)
    requires t in pl.ranges && pl.ranges[t].starts == i <= pl.ranges[t].ends
    requires !Intersects(Some(pl.ranges[t]), Peek(S.stacks, r))
    ensures Inv(pl, p, home, WithReg(pl, S, t, r), calls, i)
  {
    hide NestAt, Intersects, TempLabel;
    var S' := WithReg(pl, S, t, r);
    UpdateStacks(S.stacks, r, Some(pl.ranges[t]));
    assert ShapedOne(StackOf(S.stacks, r), Saves(calls, r, |calls|));
    forall u: nat | Alive(pl, S', u, i) && u != t
      ensures Alive(pl, S, u, i) && LocOf(S', u) == LocOf(S, u)
      ensures LocOf(S, u) == Some(InReg(r)) ==> home(u) != home(t)
      ensures LocOf(S, u).value.InReg? ==> Kept(pl, p, home, S', calls, i, u, LocOf(S, u).value.reg)
    {
      OtherLocation(pl, S, t, r, u, i);
      if LocOf(S, u) == Some(InReg(r)) {
        GivenAway(pl, p, home, S, calls, i, t, r, u);
      }
    }
    assert LocOf(S', t) == Some(InReg(r));
    assert Kept(pl, p, home, S', calls, i, t, r);
    assert Known(pl, S', i) by {
      forall u: nat | u in pl.ranges && pl.ranges[u].starts < i
        ensures LocOf(S', u).Some?
      {
        assert LocOf(S, u).Some?;
      }
    }
  }

  function WithReg(pl: Plan, S: Alloc, t: nat, r: Reg): Alloc
    requires t in pl.ranges
  {
    S.(stacks := Update(S.stacks, r, Some(pl.ranges[t])), locs := S.locs[TempLabel(t) := InReg(r)])
  }

  lemma OtherLocation(pl: Plan, S: Alloc, t: nat, r: Reg, u: nat, i: nat)
    requires t in pl.ranges && u != t
    ensures var S' := WithReg(pl, S, t, r); LocOf(S', u) == LocOf(S, u) && (Alive(pl, S', u, i) <==> Alive(pl, S, u, i))
  {
    hide TempLabel;
    DifferentLabels(u, t);
  }

  lemma UpdateStacks(k: Stacks, r: Reg, lr: Option<Range>)
    ensures forall q :: q != r ==> StackOf(Update(k, r, lr), q) == StackOf(k, q)
    ensures var s, s' := StackOf(k, r), StackOf(Update(k, r, lr), r);
            |s'| == (if s == [] then 1 else |s|) && s'[|s'| - 1] == lr && forall j :: 0 <= j < |s'| - 1 ==> s'[j] == s[j]
  {
  }

  /** A location in the frame changes nothing for registers. */
  lemma SlotGiven(pl: Plan, p: Code, home: Homes, S: Alloc, calls: seq<CallState>, i: nat, a: Addr)
    requires i < |p| && Inv(pl, p, home, S, calls, i) && LabelOf(a) !in S.locs && (a.Var? ==> PlainName(a.name))
    requires a.Cgt? ==> a.t in pl.ranges && pl.ranges[a.t].starts == i && a.size > 0
    ensures Inv(pl, p, home, OnFrame(S, a), calls, i)
  {
    hide NestAt, TempLabel, Offset, Saves;
    var S' := OnFrame(S, a);
    forall u: nat
      ensures LocOf(S', u) == LocOf(S, u) || (a.Cgt? && u == a.t && LocOf(S', u) == Some(OnStack(Offset(0 - S.lStack - a.size), a.size)))
    {
      if a.Cgt? && u != a.t {
        DifferentLabels(u, a.t);
      }
    }
    forall t: nat | Alive(pl, S', t, i) && LocOf(S', t).value.InReg?
      ensures Kept(pl, p, home, S', calls, i, t, LocOf(S', t).value.reg)
    {
      assert LocOf(S', t) == LocOf(S, t);
      assert Alive(pl, S, t, i);
      assert Kept(pl, p, home, S, calls, i, t, LocOf(S, t).value.reg);
    }
  }

  /** A variable of the data segment. */
  lemma DataGiven(pl: Plan, p: Code, home: Homes, S: Alloc, calls: seq<CallState>, i: nat, x: string)
    requires i < |p| && Inv(pl, p, home, S, calls, i) && PlainName(x)
    ensures Inv(pl, p, home, S.(locs := S.locs[x := InData(x)]), calls, i)
  {
    hide NestAt, TempLabel, Saves;
    var S' := S.(locs := S.locs[x := InData(x)]);
    assert forall u: nat :: LocOf(S', u) == LocOf(S, u);
    SameTemps(pl, p, home, S, S', calls, i);
  }

  lemma SameTemps(pl: Plan, p: Code, home: Homes, S: Alloc, S': Alloc, calls: seq<CallState>, i: nat)
    requires Inv(pl, p, home, S, calls, i) && S'.stacks == S.stacks && forall u: nat :: LocOf(S', u) == LocOf(S, u)
    ensures Inv(pl, p, home, S', calls, i)
  {
    hide NestAt, LocOf, Saves;
    forall t: nat | Alive(pl, S', t, i)
      ensures Alive(pl, S, t, i)
      ensures LocOf(S', t).value.InReg? ==> Kept(pl, p, home, S', calls, i, t, LocOf(S', t).value.reg)
    {
      assert LocOf(S', t) == LocOf(S, t);
    }
    forall t: nat | t in pl.ranges && pl.ranges[t].starts < i
      ensures LocOf(S', t).Some?
    {
      assert LocOf(S, t).Some?;
    }
  }

  /** The temporaries of the quad have no argument register. */
  ghost predicate SpareHere(q: Quad, S: Alloc)
  {
    forall t: nat :: Mentions(q, ATemp(t)) && LocOf(S, t).Some? && LocOf(S, t).value.InReg? ==>
                       Spare(LocOf(S, t).value.reg)
  }

  lemma AskStep(pl: Plan, p: Code, home: Homes, S: Alloc, calls: seq<CallState>, i: nat, a: Addr)
    requires i < |p| && RangesOf(p, pl.ranges) && Framed(p, home) && Inv(pl, p, home, S, calls, i)
    requires GoodAsk(p[i], a) && SpareHere(p[i], Stored(pl.ranges, S, a))
    ensures Inv(pl, p, home, Stored(pl.ranges, S, a), calls, i)
  {
    hide Inv, RangesOf, Framed, TempLabel, OnFrame, Pick;
    if LabelOf(a) !in S.locs {
      if a.Var? {
        if a.inData {
          DataGiven(pl, p, home, S, calls, i, a.name);
        } else {
          SlotGiven(pl, p, home, S, calls, i, a);
        }
      } else {
        assert Known(pl, S, i) by { InvKnown(pl, p, home, S, calls, i); }
        FirstMention(pl, p, home, S, i, a.t);
        match Pick(S.stacks, RangeOf(pl.ranges, a.t), Without(LOCAL_ORDER, a.held))
        case Some(r) =>
          assert LocOf(Stored(pl.ranges, S, a), a.t) == Some(InReg(r));
          RegisterGiven(pl, p, home, S, calls, i, a.t, r);
        case None => SlotGiven(pl, p, home, S, calls, i, a);
      }
    }
  }

  lemma InvKnown(pl: Plan, p: Code, home: Homes, S: Alloc, calls: seq<CallState>, i: nat)
    requires Inv(pl, p, home, S, calls, i)
    ensures Known(pl, S, i)
  {
  }

  lemma {:induction false} AskAll(pl: Plan, p: Code, home: Homes, S: Alloc, calls: seq<CallState>, i: nat,
                                  addrs: seq<Addr>)
    requires i < |p| && RangesOf(p, pl.ranges) && Framed(p, home) && Inv(pl, p, home, S, calls, i)
    requires (forall a :: a in addrs ==> GoodAsk(p[i], a)) && SpareHere(p[i], StoreAll(pl.ranges, S, addrs))
    ensures Inv(pl, p, home, StoreAll(pl.ranges, S, addrs), calls, i)
    decreases |addrs|
  {
    hide Inv, RangesOf, Framed, Stored, TempLabel, GoodAsk;
    if addrs != [] {
      var S1, a := StoreAll(pl.ranges, S, Front(addrs)), addrs[|addrs| - 1];
      assert addrs == Front(addrs) + [a];
      StoredKeeps(pl.ranges, S1, a);
      assert SpareHere(p[i], S1);
      AskAll(pl, p, home, S, calls, i, Front(addrs));
      AskStep(pl, p, home, S1, calls, i, a);
    }
  }

  /** When the operands of a quad have been stored, whatever has been mentioned so far has a location. */
  lemma LoadedInv(pl: Plan, p: Code, home: Homes, i: nat)
    requires i < |p| && Given(pl, p) && SpareHere(p[i], Loaded(pl, p, i)) && Framed(p, home)
    requires Inv(pl, p, home, CgAt(pl, p, i).alloc, CgAt(pl, p, i).gen.calls, i)
    ensures Inv(pl, p, home, Loaded(pl, p, i), CgAt(pl, p, i).gen.calls, i)
    ensures Known(pl, Loaded(pl, p, i), i + 1)
  {
    hide Inv, Framed, Stored, TempLabel, GoodAsk, CgAt, StoreAll;
    var S, S' := CgAt(pl, p, i).alloc, Loaded(pl, p, i);
    AskAll(pl, p, home, S, CgAt(pl, p, i).gen.calls, i, pl.asks(i));
    AllStored(pl.ranges, S, pl.asks(i));
    InvKnown(pl, p, home, S', CgAt(pl, p, i).gen.calls, i);
    forall t: nat | t in pl.ranges && pl.ranges[t].starts < i + 1
      ensures LocOf(S', t).Some?
    {
      if pl.ranges[t].starts == i {
        assert Spans(p, |p|, TempKey(t), RangeOf(pl.ranges, t));
        assert Mentions(p[i], ATemp(t));
        var a :| a in pl.asks(i) && a.Cgt? && a.t == t;
        assert LabelOf(a) in S'.locs;
      }
    }
  }

  // ----- what each kind of quad does -----

  lemma AliveHome(pl: Plan, p: Code, home: Homes, t: nat, i: nat)
    requires RangesOf(p, pl.ranges) && Housed(p, home) && t in pl.ranges
    requires pl.ranges[t].starts <= i <= pl.ranges[t].ends
    ensures i < |p| && home(t) <= OpenAt(p, i)
  {
    hide Housed, NestAt;
    assert Spans(p, |p|, TempKey(t), RangeOf(pl.ranges, t));
    HomeBetween(p, home, t, pl.ranges[t].starts, i, pl.ranges[t].ends);
  }

  lemma AliveBefore(pl: Plan, p: Code, home: Homes, S: Alloc, calls: seq<CallState>, i: nat, t: nat, r: Reg)
    requires Inv(pl, p, home, S, calls, i) && Alive(pl, S, t, i + 1) && LocOf(S, t) == Some(InReg(r))
    ensures Alive(pl, S, t, i) && Kept(pl, p, home, S, calls, i, t, r)
    ensures pl.ranges[t].starts <= i && ShapedOne(StackOf(S.stacks, r), Saves(calls, r, |calls|))
  {
    hide NestAt, LocOf, Saves;
  }

  /** A range on top that goes on is in use. */
  lemma TopInUse(k: Stacks, r: Reg, lr: Range, i: nat)
    requires StackOf(k, r) != [] && StackOf(k, r)[|StackOf(k, r)| - 1] == Some(lr) && lr.starts <= LAST && i <= lr.ends
    ensures InUse(k, r, i)
  {
  }

  lemma {:induction false} SameSaves(calls: seq<CallState>, calls': seq<CallState>, r: Reg, n: nat)
    requires n <= |calls| && n <= |calls'| && forall j :: 0 <= j < n ==> calls[j].pushed == calls'[j].pushed
    ensures Saves(calls, r, n) == Saves(calls', r, n)
  {
    if n > 0 {
      SameSaves(calls, calls', r, n - 1);
    }
  }

  // a quad that does not concern calls

  lemma {:induction false} BracketsOne(k: Stacks, regs: seq<Reg>, pos: nat, r: Reg)
    ensures InUse(k, r, pos) || r !in regs ==> StackOf(Brackets(k, regs, pos), r) == StackOf(k, r)
    ensures |StackOf(k, r)| <= 1 && !InUse(k, r, pos) && r in regs ==> StackOf(Brackets(k, regs, pos), r) == []
  {
    hide InUse, Reserve, StackOf, Drop;
    if regs != [] {
      var q, k1 := regs[|regs| - 1], Brackets(k, Front(regs), pos);
      BracketsOne(k, Front(regs), pos, r);
      FrontIn(regs);
      BracketOther(k1, q, pos, r);
      if InUse(k, r, pos) {
        SameBusy(k, k1, r, pos);
      } else if |StackOf(k, r)| <= 1 && r !in Front(regs) {
        SameBusy(k, k1, r, pos);
      }
    }
  }

  lemma BracketOther(k: Stacks, q: Reg, pos: nat, r: Reg)
    ensures var k' := Drop(Reserve(k, q, pos), q);
            && (q != r || InUse(k, r, pos) ==> StackOf(k', r) == StackOf(k, r))
            && (q == r && !InUse(k, r, pos) ==> StackOf(k', r) == Front(StackOf(k, r)))
  {
    hide InUse, Reserve;
    ReserveOne(k, q, pos, r);
    FrontOf(StackOf(k, r), Some(Range(pos, LAST)));
    FrontOf(Front(StackOf(k, r)), Some(Range(pos, LAST)));
  }

  lemma ScratchKept(pl: Plan, p: Code, home: Homes, S: Alloc, calls: seq<CallState>, i: nat, t: nat, r: Reg)
    requires i < |p| <= LAST && Inv(pl, p, home, S, calls, i) && Alive(pl, S, t, i + 1) && LocOf(S, t) == Some(InReg(r))
    requires r in pl.scratch(i) ==> Unsaved(calls, r) || InUse(S.stacks, r, i)
    ensures StackOf(Brackets(S.stacks, pl.scratch(i), i), r) == StackOf(S.stacks, r)
    ensures |home(t)| == |calls| ==> InUse(S.stacks, r, i) || r !in pl.scratch(i)
  {
    hide Inv, InUse, Brackets, LocOf, NestAt;
    AliveBefore(pl, p, home, S, calls, i, t, r);
    BracketsOne(S.stacks, pl.scratch(i), i, r);
    if r in pl.scratch(i) && Unsaved(calls, r) {
      SavesGrow(calls, r, |home(t)|, |calls|);
      TopInUse(S.stacks, r, pl.ranges[t], i);
    }
  }

  lemma InsideAfter(pl: Plan, p: Code, home: Homes, S: Alloc, calls: seq<CallState>, i: nat)
    requires i < |p| <= LAST && Inv(pl, p, home, S, calls, i) && Known(pl, S, i + 1) && Inside(p[i])
    requires forall r :: r in pl.scratch(i) && Spare(r) ==> Unsaved(calls, r) || InUse(S.stacks, r, i)
    ensures Inv(pl, p, home, S.(stacks := Brackets(S.stacks, pl.scratch(i), i)), calls, i + 1)
  {
    hide InUse, Brackets, LocOf, Saves;
    var S' := S.(stacks := Brackets(S.stacks, pl.scratch(i), i));
    assert OpenAt(p, i + 1) == OpenAt(p, i) by { InsideNest(p, i); }
    SameLocs(S, S');
    forall r | Spare(r)
      ensures ShapedOne(StackOf(S'.stacks, r), Saves(calls, r, |calls|))
    {
      assert ShapedOne(StackOf(S.stacks, r), Saves(calls, r, |calls|));
      BracketsOne(S.stacks, pl.scratch(i), i, r);
    }
    forall t: nat | Alive(pl, S', t, i + 1) && LocOf(S', t).value.InReg?
      ensures Kept(pl, p, home, S', calls, i + 1, t, LocOf(S', t).value.reg)
    {
      var r := LocOf(S', t).value.reg;
      assert LocOf(S, t) == Some(InReg(r));
      AliveBefore(pl, p, home, S, calls, i, t, r);
      ScratchKept(pl, p, home, S, calls, i, t, r);
    }
    LaterParts(pl, p, home, S, S', calls, i);
  }

  lemma InsideNest(p: Code, i: nat)
    requires i < |p| && (p[i].Label? || Inside(p[i]))
    ensures NestAt(p, i + 1) == NestAt(p, i)
  {
  }

  lemma SameLocs(S: Alloc, S': Alloc)
    requires S.locs == S'.locs
    ensures forall t: nat :: LocOf(S', t) == LocOf(S, t)
  {
  }

  /** What of the invariant does not look at the stacks goes over to the next quad. */
  lemma LaterParts(pl: Plan, p: Code, home: Homes, S: Alloc, S': Alloc, calls: seq<CallState>, i: nat)
    requires i < |p| && Inv(pl, p, home, S, calls, i) && Known(pl, S, i + 1)
    requires forall t: nat :: LocOf(S', t).Some? <==> LocOf(S, t).Some?
    requires forall t: nat :: LocOf(S', t) == LocOf(S, t) || !Alive(pl, S, t, i + 1)
    ensures RegsApart(pl, home, S', i + 1) && Known(pl, S', i + 1)
    ensures forall t: nat :: Alive(pl, S', t, i + 1) ==>
                               pl.ranges[t].starts <= i && OwnPlace(LocOf(S', t).value)
  {
    hide NestAt, LocOf, Saves, Kept;
    forall t: nat | Alive(pl, S', t, i + 1)
      ensures Alive(pl, S, t, i) && LocOf(S', t) == LocOf(S, t)
    {
      assert Alive(pl, S, t, i + 1);
    }
  }

  lemma LabelAfter(pl: Plan, p: Code, home: Homes, S: Alloc, calls: seq<CallState>, i: nat)
    requires i < |p| && Inv(pl, p, home, S, calls, i) && Known(pl, S, i + 1) && p[i].Label?
    ensures Inv(pl, p, home, S, calls, i + 1)
  {
    hide LocOf, Saves;
    assert OpenAt(p, i + 1) == OpenAt(p, i) by { InsideNest(p, i); }
    LaterParts(pl, p, home, S, S, calls, i);
    forall t: nat | Alive(pl, S, t, i + 1) && LocOf(S, t).value.InReg?
      ensures Kept(pl, p, home, S, calls, i + 1, t, LocOf(S, t).value.reg)
    {
      AliveBefore(pl, p, home, S, calls, i, t, LocOf(S, t).value.reg);
    }
  }

  // opening a call

  function WithCall(calls: seq<CallState>, saved: seq<Reg>): seq<CallState>
  {
    calls + [CallState(saved, 0, 0)]
  }

  lemma OpenedSaves(calls: seq<CallState>, saved: seq<Reg>, r: Reg)
    ensures forall n: nat :: n <= |calls| ==> Saves(WithCall(calls, saved), r, n) == Saves(calls, r, n)
    ensures Saves(WithCall(calls, saved), r, |calls| + 1) == Saves(calls, r, |calls|) + if r in saved then 1 else 0
  {
    forall n: nat | n <= |calls|
      ensures Saves(WithCall(calls, saved), r, n) == Saves(calls, r, n)
    {
      SameSaves(calls, WithCall(calls, saved), r, n);
    }
  }

  lemma HintNest(p: Code, i: nat)
    requires i < |p| && IsHint(p[i])
    ensures OpenAt(p, i + 1) == OpenAt(p, i) + [Opening(NestAt(p, i).count, p[i].res)]
    ensures ArgsAt(p, i + 1) == ArgsAt(p, i) + [0]
  {
  }

  /** Every register that holds something still to be mentioned is saved when a call is opened, unless the
      call is about to set it. */
  lemma NeededIsSaved(pl: Plan, p: Code, home: Homes, S: Alloc, calls: seq<CallState>, i: nat, t: nat, r: Reg)
    requires i < |p| <= LAST && IsHint(p[i]) && Framed(p, home) && RangesOf(p, pl.ranges)
    requires Inv(pl, p, home, S, calls, i) && Known(pl, S, i + 1)
    requires Alive(pl, S, t, i + 1) && LocOf(S, t) == Some(InReg(r)) && home(t) == OpenAt(p, i) && p[i].res != ATemp(t)
    ensures r in BusyRegs(S.stacks, i, RegOf(S, p[i].res))
  {
    hide InUse, BusyRegs, LocOf, NestAt, Saves;
    var keep := RegOf(S, p[i].res);
    SavedRegs(S.stacks, i, keep, r);
    AliveBefore(pl, p, home, S, calls, i, t, r);
    TopInUse(S.stacks, r, pl.ranges[t], i);
    if keep == Some(r) {
      var u := p[i].res.t;
      assert Mentions(p[i], ATemp(u)) && home(u) == HomeAt(p, i, u);
      assert Spans(p, |p|, TempKey(u), RangeOf(pl.ranges, u)) && Hits(p[i], TempKey(u));
      assert Alive(pl, S, u, i);
      InDifferent(pl, home, S, i, t, u);
    }
  }

  lemma InDifferent(pl: Plan, home: Homes, S: Alloc, i: nat, t: nat, u: nat)
    requires RegsApart(pl, home, S, i) && t != u && Alive(pl, S, t, i) && Alive(pl, S, u, i) && home(t) == home(u)
    ensures LocOf(S, t).value.InReg? ==> LocOf(S, t) != LocOf(S, u)
  {
    hide LocOf;
    assert !SameReg(LocOf(S, t).value, LocOf(S, u).value);
  }

  lemma HintKept(pl: Plan, p: Code, home: Homes, S: Alloc, calls: seq<CallState>, i: nat, t: nat, r: Reg)
    requires i < |p| <= LAST && IsHint(p[i]) && Framed(p, home) && RangesOf(p, pl.ranges)
    requires Inv(pl, p, home, S, calls, i) && Known(pl, S, i + 1)
    requires Alive(pl, S, t, i + 1) && LocOf(S, t) == Some(InReg(r))
    ensures var saved := BusyRegs(S.stacks, i, RegOf(S, p[i].res));
            Kept(pl, p, home, S.(stacks := MarkAll(S.stacks, saved)), WithCall(calls, saved), i + 1, t, r)
  {
    hide InUse, BusyRegs, LocOf, NestAt, Saves, Inv, Framed, RangesOf, MarkAll, Known;
    var saved := BusyRegs(S.stacks, i, RegOf(S, p[i].res));
    AliveBefore(pl, p, home, S, calls, i, t, r);
    AliveHome(pl, p, home, t, i) by { FramedHoused(p, home); }
    HintNest(p, i);
    OpenedSaves(calls, saved, r);
    SavedRegs(S.stacks, i, RegOf(S, p[i].res), r);
    MarkedOnce(S.stacks, saved, r);
    if |home(t)| == |calls| && p[i].res != ATemp(t) {
      assert home(t) == OpenAt(p, i);
      NeededIsSaved(pl, p, home, S, calls, i, t, r);
    }
  }

  lemma FramedHoused(p: Code, home: Homes)
    requires Framed(p, home)
    ensures Housed(p, home)
  {
  }

  lemma HintAfter(pl: Plan, p: Code, home: Homes, S: Alloc, calls: seq<CallState>, i: nat)
    requires i < |p| <= LAST && IsHint(p[i]) && Framed(p, home) && RangesOf(p, pl.ranges)
    requires Inv(pl, p, home, S, calls, i) && Known(pl, S, i + 1)
    ensures var saved := BusyRegs(S.stacks, i, RegOf(S, p[i].res));
            Inv(pl, p, home, S.(stacks := MarkAll(S.stacks, saved)), WithCall(calls, saved), i + 1)
  {
    hide InUse, BusyRegs, LocOf, NestAt, Saves, Framed, RangesOf, MarkAll, Known;
    var saved := BusyRegs(S.stacks, i, RegOf(S, p[i].res));
    var S', calls' := S.(stacks := MarkAll(S.stacks, saved)), WithCall(calls, saved);
    HintNest(p, i);
    SameLocs(S, S');
    LaterParts(pl, p, home, S, S', calls, i);
    forall r | Spare(r)
      ensures ShapedOne(StackOf(S'.stacks, r), Saves(calls', r, |calls'|))
    {
      assert ShapedOne(StackOf(S.stacks, r), Saves(calls, r, |calls|));
      OpenedSaves(calls, saved, r);
      SavedRegs(S.stacks, i, RegOf(S, p[i].res), r);
      MarkedOnce(S.stacks, saved, r);
      BusyNonempty(S.stacks, r, i);
    }
    forall t: nat | Alive(pl, S', t, i + 1) && LocOf(S', t).value.InReg?
      ensures Kept(pl, p, home, S', calls', i + 1, t, LocOf(S', t).value.reg)
    {
      HintKept(pl, p, home, S, calls, i, t, LocOf(S', t).value.reg);
    }
  }

  lemma BusyNonempty(k: Stacks, r: Reg, i: nat)
    ensures InUse(k, r, i) ==> StackOf(k, r) != []
  {
  }

  // passing an argument

  lemma ArgNest(p: Code, i: nat)
    requires i < |p| && IsArg(p[i])
    ensures OpenAt(p, i + 1) == OpenAt(p, i)
  {
  }

  lemma ParamStays(S: Alloc, t: nat, k: nat, pos: nat)
    ensures var S' := Placed(S, TempLabel(t), k, pos, 0);
            && (forall r :: Spare(r) ==> StackOf(S'.stacks, r) == StackOf(S.stacks, r))
            && (forall u: nat :: u != t ==> LocOf(S', u) == LocOf(S, u))
            && LocOf(S', t).Some?
  {
    hide TempLabel, Reserve;
    forall u: nat | u != t
      ensures TempLabel(u) != TempLabel(t)
    {
      DifferentLabels(u, t);
    }
    if k < |PARAM_ORDER| {
      forall r | Spare(r)
        ensures StackOf(Placed(S, TempLabel(t), k, pos, 0).stacks, r) == StackOf(S.stacks, r)
      {
        ReserveOne(S.stacks, PARAM_ORDER[k], pos, r);
      }
    }
  }

  lemma ArgAfter(pl: Plan, p: Code, home: Homes, S: Alloc, calls: seq<CallState>, calls': seq<CallState>, i: nat,
                 k: nat)
    requires i < |p| <= LAST && IsArg(p[i]) && p[i].arg1.ATemp? && Framed(p, home) && RangesOf(p, pl.ranges)
    requires Inv(pl, p, home, S, calls, i) && Known(pl, S, i + 1)
    requires |calls'| == |calls| && forall j :: 0 <= j < |calls| ==> calls'[j].pushed == calls[j].pushed
    ensures Inv(pl, p, home, Placed(S, TempLabel(p[i].arg1.t), k, i, 0), calls', i + 1)
  {
    hide LocOf, NestAt, Saves, Known, Placed, SameCalls;
    var u := p[i].arg1.t;
    var S' := Placed(S, TempLabel(u), k, i, 0);
    ParamStays(S, u, k, i);
    ArgNest(p, i);
    assert Orderly(p, i);
    assert Spans(p, |p|, TempKey(u), RangeOf(pl.ranges, u)) && Hits(p[i], TempKey(u));
    assert Mentions(p[i], ATemp(u));
    assert !Alive(pl, S, u, i + 1) by { GoneAfter(pl, p, i, u); }
    ArgStored(pl, S, i, u);
    LaterParts(pl, p, home, S, S', calls, i);
    forall r
      ensures Saves(calls', r, |calls|) == Saves(calls, r, |calls|)
    {
      SameSaves(calls, calls', r, |calls|);
    }
    forall r | Spare(r)
      ensures ShapedOne(StackOf(S'.stacks, r), Saves(calls', r, |calls|))
    {
      assert ShapedOne(StackOf(S.stacks, r), Saves(calls, r, |calls|));
    }
    forall t: nat | Alive(pl, S', t, i + 1) && LocOf(S', t).value.InReg?
      ensures Kept(pl, p, home, S', calls', i + 1, t, LocOf(S', t).value.reg)
    {
      assert t != u;
      var r := LocOf(S', t).value.reg;
      AliveBefore(pl, p, home, S, calls, i, t, r);
      SameSaves(calls, calls', r, |home(t)|);
    }
  }

  lemma ArgStored(pl: Plan, S: Alloc, i: nat, u: nat)
    requires Known(pl, S, i + 1) && u in pl.ranges && pl.ranges[u].starts <= i
    ensures LocOf(S, u).Some?
  {
  }

  /** A temporary passed as an argument is not mentioned again. */
  lemma GoneAfter(pl: Plan, p: Code, i: nat, u: nat)
    requires i < |p| && RangesOf(p, pl.ranges) && LastMention(p, i, u) && u in pl.ranges
    ensures pl.ranges[u].ends <= i
  {
    assert Spans(p, |p|, TempKey(u), RangeOf(pl.ranges, u));
    var e := pl.ranges[u].ends;
    assert Mentions(p[e], ATemp(u));
  }

  // closing a call

  lemma CallNest(p: Code, i: nat)
    requires i < |p| && IsCall(p[i])
    ensures OpenAt(p, i + 1) == Front(OpenAt(p, i)) && ArgsAt(p, i + 1) == Front(ArgsAt(p, i))
  {
  }

  lemma CloseStays(k: Stacks, used: seq<Reg>, pushed: seq<Reg>, r: Reg)
    requires Distinct(used) && Distinct(pushed) && r !in used
    ensures StackOf(Close(k, used, pushed), r) == if r in pushed then Front(StackOf(k, r)) else StackOf(k, r)
  {
    DroppedOnce(k, used, r);
    DroppedOnce(DropAll(k, used), pushed, r);
  }

  lemma ArgRegsParams(c: CallState)
    ensures Distinct(ArgRegs(c)) && forall r :: Spare(r) ==> r !in ArgRegs(c)
  {
    OrdersDistinct();
  }

  lemma CallAfter(pl: Plan, p: Code, home: Homes, S: Alloc, calls: seq<CallState>, i: nat)
    requires i < |p| <= LAST && IsCall(p[i]) && calls != [] && Framed(p, home) && RangesOf(p, pl.ranges)
    requires Inv(pl, p, home, S, calls, i) && Known(pl, S, i + 1) && Distinct(calls[|calls| - 1].pushed)
    ensures var c := calls[|calls| - 1];
            Inv(pl, p, home, S.(stacks := Close(S.stacks, ArgRegs(c), c.pushed)), calls[..|calls| - 1], i + 1)
  {
    hide LocOf, NestAt, Saves, Known, RangesOf, Framed, Close, ArgRegs;
    var c, calls' := calls[|calls| - 1], calls[..|calls| - 1];
    var S' := S.(stacks := Close(S.stacks, ArgRegs(c), c.pushed));
    CallNest(p, i);
    SameLocs(S, S');
    ArgRegsParams(c);
    LaterParts(pl, p, home, S, S', calls, i);
    forall r | Spare(r)
      ensures ShapedOne(StackOf(S'.stacks, r), Saves(calls', r, |calls'|))
    {
      assert ShapedOne(StackOf(S.stacks, r), Saves(calls, r, |calls|));
      CloseStays(S.stacks, ArgRegs(c), c.pushed, r);
      ClosedSaves(calls, r);
    }
    forall t: nat | Alive(pl, S', t, i + 1) && LocOf(S', t).value.InReg?
      ensures Kept(pl, p, home, S', calls', i + 1, t, LocOf(S', t).value.reg)
    {
      CloseKept(pl, p, home, S, calls, i, t, LocOf(S', t).value.reg);
    }
  }

  lemma ClosedSaves(calls: seq<CallState>, r: Reg)
    requires calls != []
    ensures var n := |calls| - 1; Saves(calls, r, |calls|) == Saves(calls[..n], r, n) + if r in calls[n].pushed then 1 else 0
  {
    SameSaves(calls, calls[..|calls| - 1], r, |calls| - 1);
  }

  lemma CloseKept(pl: Plan, p: Code, home: Homes, S: Alloc, calls: seq<CallState>, i: nat, t: nat, r: Reg)
    requires i < |p| <= LAST && IsCall(p[i]) && calls != [] && Framed(p, home) && RangesOf(p, pl.ranges)
    requires Inv(pl, p, home, S, calls, i) && Distinct(calls[|calls| - 1].pushed)
    requires Alive(pl, S, t, i + 1) && LocOf(S, t) == Some(InReg(r))
    ensures var c := calls[|calls| - 1];
            Kept(pl, p, home, S.(stacks := Close(S.stacks, ArgRegs(c), c.pushed)), calls[..|calls| - 1], i + 1, t, r)
  {
    hide LocOf, NestAt, Saves, RangesOf, Framed, Close, ArgRegs, Inv;
    var n := |calls| - 1;
    var c := calls[n];
    AliveBefore(pl, p, home, S, calls, i, t, r);
    AliveHome(pl, p, home, t, i + 1) by { FramedHoused(p, home); }
    CallNest(p, i);
    ArgRegsParams(c);
    CloseStays(S.stacks, ArgRegs(c), c.pushed, r);
    ClosedSaves(calls, r);
    SameSaves(calls, calls[..n], r, |home(t)|);
    SavesGrow(calls[..n], r, |home(t)|, n);
  }
}
