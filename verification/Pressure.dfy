/** How many temporaries fit: with at most eight at a time none gets a register arguments are passed in. */
module Pressure {
  import opened Ast
  import opened Quads
  import opened Liveness
  import opened LiveRanges
  import opened Nests
  import opened RegAlloc
  import opened Frames
  import opened Calls
  import opened CallAlloc
  import opened CallPlaces
  import opened CallMoves
  import CallLabels

  /** The result of a call that is open. */
  ghost predicate Pending(p: Code, i: nat, t: nat)
    requires i <= |p|
  {
    exists a :: 0 <= a < |OpenAt(p, i)| && OpenAt(p, i)[a].res == ATemp(t)
  }

  /** The temporaries that want a register at a quad: those of the innermost open call between their first and
      last mention, and the results of the calls that are open. */
  ghost function Wanting(pl: Plan, p: Code, home: Homes, i: nat): set<nat>
    requires i <= |p|
  {
    set t | t in pl.ranges.Keys && Spanned(pl, i, t) && (home(t) == OpenAt(p, i) || Pending(p, i, t))
  }

  /** The registers for temporaries that no argument is passed in. */
  const SPARE_ORDER: seq<Reg> := [RAX, RBX, R10, R11, R12, R13, R14, R15]

  /** Those of them that the quad at i has not taken for itself. */
  function Room(pl: Plan, i: nat): seq<Reg>
  {
    Without(SPARE_ORDER, pl.scratch(i))
  }

  /** Everywhere at most as many want one as there are: eight, without those the quad has taken. */
  ghost predicate Roomy(pl: Plan, p: Code, home: Homes)
  {
    forall i: nat :: i < |p| ==> |Wanting(pl, p, home, i)| <= |Room(pl, i)|
  }

  /** Requests are made while the quad holds no other registers than those it takes. */
  predicate HeldWithin(pl: Plan, i: nat, a: Addr)
  {
    a.Cgt? ==> forall r :: r in a.held ==> r in pl.scratch(i)
  }

  // ----- every entry still in use belongs to somebody -----

  /** t is in r, and entry k of r is its range. */
  ghost predicate Owns(pl: Plan, home: Homes, S: Alloc, calls: seq<CallState>, i: nat, r: Reg, k: nat, t: nat)
  {
    && Alive(pl, S, t, i) && LocOf(S, t) == Some(InReg(r)) && |home(t)| <= |calls|
    && Saves(calls, r, |home(t)|) == k
  }

  ghost predicate OwnedOne(pl: Plan, home: Homes, S: Alloc, calls: seq<CallState>, i: nat, r: Reg, k: nat)
    requires k < |StackOf(S.stacks, r)|
  {
    var e := StackOf(S.stacks, r)[k];
    e.Some? && i <= e.value.ends ==> exists t: nat :: Owns(pl, home, S, calls, i, r, k, t) && pl.ranges[t] == e.value
  }

  ghost predicate Owned(pl: Plan, home: Homes, S: Alloc, calls: seq<CallState>, i: nat)
  {
    && (forall r, k: nat :: Spare(r) && k < |StackOf(S.stacks, r)| ==> OwnedOne(pl, home, S, calls, i, r, k))
    && InRegs(pl, S, i)
  }

  /** Every temporary that is still mentioned is in a register. */
  ghost predicate InRegs(pl: Plan, S: Alloc, i: nat)
  {
    forall t: nat :: Alive(pl, S, t, i) ==> LocOf(S, t).value.InReg?
  }

  /** An entry that stays goes on belonging to its owner. */
  lemma OwnerStays(pl: Plan, home: Homes, S: Alloc, S': Alloc, calls: seq<CallState>, calls': seq<CallState>, i: nat,
                   i': nat,
                   r: Reg, k: nat)
    requires k < |StackOf(S.stacks, r)| && OwnedOne(pl, home, S, calls, i, r, k) && i <= i'
    requires k < |StackOf(S'.stacks, r)| && StackOf(S'.stacks, r)[k] == StackOf(S.stacks, r)[k]
    requires forall t: nat :: Owns(pl, home, S, calls, i, r, k, t) && t in pl.ranges && i' <= pl.ranges[t].ends ==>
                                LocOf(S', t) == LocOf(S, t) && |home(t)| <= |calls'|
                                && Saves(calls', r, |home(t)|) == Saves(calls, r, |home(t)|)
    ensures OwnedOne(pl, home, S', calls', i', r, k)
  {
    hide LocOf, StackOf, Saves, Owns, OwnedOne;
    var e := StackOf(S.stacks, r)[k];
    if e.Some? && i' <= e.value.ends {
      var t := OwnerOf(pl, home, S, calls, i, r, k);
      StillOwns(pl, home, S, S', calls, calls', i, i', r, k, t);
    }
    MakeOwned(pl, home, S', calls', i', r, k);
  }

  lemma OwnerOf(pl: Plan, home: Homes, S: Alloc, calls: seq<CallState>, i: nat, r: Reg, k: nat) returns (t: nat)
    requires k < |StackOf(S.stacks, r)| && OwnedOne(pl, home, S, calls, i, r, k)
    requires StackOf(S.stacks, r)[k].Some? && i <= StackOf(S.stacks, r)[k].value.ends
    ensures Owns(pl, home, S, calls, i, r, k, t) && t in pl.ranges && pl.ranges[t] == StackOf(S.stacks, r)[k].value
    ensures LocOf(S, t) == Some(InReg(r)) && |home(t)| <= |calls|
  {
    hide LocOf, StackOf, Saves;
    t :| Owns(pl, home, S, calls, i, r, k, t) && pl.ranges[t] == StackOf(S.stacks, r)[k].value;
  }

  lemma MakeOwned(pl: Plan, home: Homes, S: Alloc, calls: seq<CallState>, i: nat, r: Reg, k: nat)
    requires k < |StackOf(S.stacks, r)|
    requires var e := StackOf(S.stacks, r)[k];
             e.Some? && i <= e.value.ends ==>
               exists t: nat :: t in pl.ranges && Owns(pl, home, S, calls, i, r, k, t) && pl.ranges[t] == e.value
    ensures OwnedOne(pl, home, S, calls, i, r, k)
  {
    hide Owns, StackOf;
  }

  lemma StillOwns(pl: Plan, home: Homes, S: Alloc, S': Alloc, calls: seq<CallState>, calls': seq<CallState>, i: nat,
                  i': nat,
                  r: Reg, k: nat, t: nat)
    requires t in pl.ranges && Owns(pl, home, S, calls, i, r, k, t) && i' <= pl.ranges[t].ends
    requires LocOf(S', t) == LocOf(S, t)
    requires |home(t)| <= |calls'| && Saves(calls', r, |home(t)|) == Saves(calls, r, |home(t)|)
    ensures Owns(pl, home, S', calls', i', r, k, t)
  {
    hide LocOf, Saves;
  }

  // ----- pigeons and holes -----

  lemma {:induction false} PickFirst(k: Stacks, lr: Option<Range>, order: seq<Reg>, j: nat)
    requires j < |order| && !Intersects(lr, Peek(k, order[j]))
    ensures Pick(k, lr, order).Some? && Pick(k, lr, order).value in order[..j + 1]
  {
    hide Intersects, Peek;
    if j > 0 && Intersects(lr, Peek(k, order[0])) {
      PickFirst(k, lr, order[1..], j - 1);
      assert order[1..][..j] == order[1..j + 1];
    }
  }

  /** If every register of a list has an owner, there are as many owners as registers. */
  lemma {:induction false} Owners(S: Alloc, regs: seq<Reg>, all: set<nat>) returns (owners: set<nat>)
    requires Distinct(regs) && forall r :: r in regs ==> exists t: nat :: t in all && LocOf(S, t) == Some(InReg(r))
    ensures owners <= all && |owners| == |regs|
    ensures forall t :: t in owners ==> LocOf(S, t).Some? && LocOf(S, t).value.InReg? && LocOf(S, t).value.reg in regs
  {
    hide LocOf;
    if regs == [] {
      owners := {};
    } else {
      var r := regs[|regs| - 1];
      FrontIn(regs);
      var rest := Owners(S, Front(regs), all);
      var t: nat :| t in all && LocOf(S, t) == Some(InReg(r));
      owners := rest + {t};
      assert t !in rest;
    }
  }

  lemma MoreThan(a: set<nat>, b: set<nat>, t: nat)
    requires a <= b && t in b && t !in a
    ensures |a| < |b|
  {
    var c := b - {t};
    assert a <= c && |c| == |b| - 1;
    SubsetSize(a, c);
  }

  lemma SpareOrder()
    ensures Distinct(SPARE_ORDER) && LOCAL_ORDER == SPARE_ORDER + [R9, R8, RCX, RDX, RDI, RSI]
    ensures forall r :: r in SPARE_ORDER ==> Spare(r)
  {
  }

  lemma {:induction false} WithoutJoin(a: seq<Reg>, b: seq<Reg>, held: seq<Reg>)
    ensures Without(a + b, held) == Without(a, held) + Without(b, held)
  {
    if a == [] {
      assert a + b == b;
    } else {
      assert (a + b)[1..] == a[1..] + b;
      WithoutJoin(a[1..], b, held);
    }
  }

  lemma {:induction false} WithoutDistinct(a: seq<Reg>, held: seq<Reg>)
    requires Distinct(a)
    ensures Distinct(Without(a, held))
  {
    if a != [] {
      assert forall i, j :: 0 <= i < j < |a[1..]| ==> a[1..][i] == a[i + 1] && a[1..][j] == a[j + 1];
      WithoutDistinct(a[1..], held);
      assert a[0] !in a[1..];
    }
  }

  /** The fewer are held the more are left. */
  lemma {:induction false} WithoutMore(a: seq<Reg>, held: seq<Reg>, more: seq<Reg>)
    requires forall r :: r in held ==> r in more
    ensures |Without(a, more)| <= |Without(a, held)|
  {
    if a != [] {
      WithoutMore(a[1..], held, more);
    }
  }

  /** The owner of the latest entry of a register wants a register here. */
  lemma TopWants(pl: Plan, p: Code, home: Homes, S: Alloc, calls: seq<CallState>, i: nat, r: Reg, t: nat)
    requires i < |p| && Inv(pl, p, home, S, calls, i) && RangesOf(p, pl.ranges) && Housed(p, home)
    requires Spare(r) && Owns(pl, home, S, calls, i, r, Saves(calls, r, |calls|), t)
    ensures t in Wanting(pl, p, home, i)
  {
    hide LocOf, NestAt, Shaped, RegsApart, Known, Housed, RangesOf;
    assert Kept(pl, p, home, S, calls, i, t, r);
    AliveHome(pl, p, home, t, i);
    if |home(t)| < |calls| {
      NotSavedSince(calls, r, |home(t)|);
      assert OpenAt(p, i)[|home(t)|].res == ATemp(t);
      assert Pending(p, i, t);
    } else {
      assert home(t) == OpenAt(p, i);
    }
  }

  lemma NotSavedSince(calls: seq<CallState>, r: Reg, d: nat)
    requires d < |calls| && Saves(calls, r, d) == Saves(calls, r, |calls|)
    ensures r !in calls[d].pushed
  {
    SavesGrow(calls, r, d + 1, |calls|);
  }

  /** A register whose latest entry is in the way has somebody who wants one. */
  lemma InTheWay(pl: Plan, p: Code, home: Homes, S: Alloc, calls: seq<CallState>, i: nat, r: Reg, lr: Range)
    returns (t: nat)
    requires i < |p| && Inv(pl, p, home, S, calls, i) && Owned(pl, home, S, calls, i) && RangesOf(p, pl.ranges)
    requires Housed(p, home)
    requires Spare(r) && lr.starts == i && Intersects(Some(lr), Peek(S.stacks, r))
    ensures t in Wanting(pl, p, home, i) && LocOf(S, t) == Some(InReg(r))
  {
    hide LocOf, NestAt, KeptAll, RegsApart, Known, Housed, RangesOf, Saves, Wanting;
    var s := StackOf(S.stacks, r);
    assert ShapedOne(s, Saves(calls, r, |calls|));
    assert OwnedOne(pl, home, S, calls, i, r, |s| - 1);
    t :| Owns(pl, home, S, calls, i, r, |s| - 1, t) && pl.ranges[t] == s[|s| - 1].value;
    TopWants(pl, p, home, S, calls, i, r, t);
  }

  /** So a new temporary gets a spare register that the quad does not hold. */
  lemma SpareLeft(pl: Plan, p: Code, home: Homes, S: Alloc, calls: seq<CallState>, i: nat, t: nat, held: seq<Reg>)
    requires i < |p| && Inv(pl, p, home, S, calls, i) && Owned(pl, home, S, calls, i) && RangesOf(p, pl.ranges)
    requires Housed(p, home) && forall r :: r in held ==> r in pl.scratch(i)
    requires |Wanting(pl, p, home, i)| <= |Room(pl, i)| && t in Wanting(pl, p, home, i) && LocOf(S, t) == None
    requires t in pl.ranges && pl.ranges[t].starts == i
    ensures var r := Pick(S.stacks, Some(pl.ranges[t]), Without(LOCAL_ORDER, held)); r.Some? && Spare(r.value)
  {
    hide LocOf, Inv, Owned, Housed, RangesOf, Wanting, Intersects, Peek, Pick, Without;
    var lr, order, all := pl.ranges[t], Without(SPARE_ORDER, held), Without(LOCAL_ORDER, held);
    SpareOrder();
    WithoutJoin(SPARE_ORDER, [R9, R8, RCX, RDX, RDI, RSI], held);
    WithoutDistinct(SPARE_ORDER, held);
    WithoutMore(SPARE_ORDER, held, pl.scratch(i));
    if exists j: nat :: j < |order| && !Intersects(Some(lr), Peek(S.stacks, order[j])) {
      var j: nat :| j < |order| && !Intersects(Some(lr), Peek(S.stacks, order[j]));
      assert all[j] == order[j];
      PickFirst(S.stacks, Some(lr), all, j);
      assert all[..j + 1] == order[..j + 1];
    } else {
      forall r | r in order
        ensures exists u: nat :: u in Wanting(pl, p, home, i) && LocOf(S, u) == Some(InReg(r))
      {
        var j: nat :| j < |order| && order[j] == r;
        assert r in SPARE_ORDER;
        var u := InTheWay(pl, p, home, S, calls, i, r, lr);
      }
      var owners := Owners(S, order, Wanting(pl, p, home, i));
      MoreThan(owners, Wanting(pl, p, home, i), t);
    }
  }

  // ----- requests -----

  /** A register temporary that is still mentioned is in a spare register. */
  lemma SpareNow(pl: Plan, p: Code, home: Homes, S: Alloc, calls: seq<CallState>, i: nat)
    requires i < |p| && Inv(pl, p, home, S, calls, i) && RangesOf(p, pl.ranges)
    ensures SpareHere(p[i], S)
  {
    hide LocOf, NestAt, Shaped, RegsApart, Known, RangesOf, Saves;
    forall t: nat | Mentions(p[i], ATemp(t)) && LocOf(S, t).Some? && LocOf(S, t).value.InReg?
      ensures Spare(LocOf(S, t).value.reg)
    {
      MentionRange(p, pl.ranges, i, t);
      assert Alive(pl, S, t, i);
      assert Kept(pl, p, home, S, calls, i, t, LocOf(S, t).value.reg);
    }
  }

  /** A request that touches no register. */
  lemma OwnedStill(pl: Plan, home: Homes, S: Alloc, S': Alloc, calls: seq<CallState>, i: nat)
    requires Owned(pl, home, S, calls, i) && S'.stacks == S.stacks
    requires forall t: nat :: LocOf(S', t) == LocOf(S, t)
    ensures Owned(pl, home, S', calls, i)
  {
    hide LocOf, Saves, StackOf, OwnedOne;
    forall t: nat | Alive(pl, S', t, i)
      ensures LocOf(S', t).value.InReg?
    {
      assert Alive(pl, S, t, i);
    }
    forall r, k: nat | Spare(r) && k < |StackOf(S'.stacks, r)|
      ensures OwnedOne(pl, home, S', calls, i, r, k)
    {
      OwnerStays(pl, home, S, S', calls, calls, i, i, r, k);
    }
  }

  /** A temporary that gets a register owns the latest entry. */
  lemma OwnedGiven(pl: Plan, p: Code, home: Homes, S: Alloc, calls: seq<CallState>, i: nat, t: nat, r: Reg)
    requires Owned(pl, home, S, calls, i) && Shaped(S, calls) && LocOf(S, t) == None && t in pl.ranges
    requires i <= pl.ranges[t].ends
    requires |home(t)| == |calls| && Spare(r)
    ensures Owned(pl, home, WithReg(pl, S, t, r), calls, i)
  {
    hide LocOf, Saves, OwnedOne, Alive, StackOf;
    var S' := WithReg(pl, S, t, r);
    assert InRegs(pl, S', i) by { StillInRegs(pl, S, t, r, i); }
    UpdateStacks(S.stacks, r, Some(pl.ranges[t]));
    assert ShapedOne(StackOf(S.stacks, r), Saves(calls, r, |calls|));
    forall q, k: nat | Spare(q) && k < |StackOf(S'.stacks, q)|
      ensures OwnedOne(pl, home, S', calls, i, q, k)
    {
      if q == r && k == |StackOf(S'.stacks, r)| - 1 {
        NewOwner(pl, home, S, calls, i, t, r, k);
      } else {
        forall u: nat | Owns(pl, home, S, calls, i, q, k, u)
          ensures LocOf(S', u) == LocOf(S, u)
        {
          if u != t {
            OtherLocation(pl, S, t, r, u, i);
          }
        }
        OwnerStays(pl, home, S, S', calls, calls, i, i, q, k);
      }
    }
  }

  lemma StillInRegs(pl: Plan, S: Alloc, t: nat, r: Reg, i: nat)
    requires t in pl.ranges && InRegs(pl, S, i)
    ensures InRegs(pl, WithReg(pl, S, t, r), i)
  {
    hide TempLabel;
    forall u: nat | Alive(pl, WithReg(pl, S, t, r), u, i)
      ensures LocOf(WithReg(pl, S, t, r), u).value.InReg?
    {
      if u != t {
        OtherLocation(pl, S, t, r, u, i);
      }
    }
  }

  lemma NewOwner(pl: Plan, home: Homes, S: Alloc, calls: seq<CallState>, i: nat, t: nat, r: Reg, k: nat)
    requires t in pl.ranges && i <= pl.ranges[t].ends && |home(t)| == |calls| && Saves(calls, r, |calls|) == k
    requires k < |StackOf(WithReg(pl, S, t, r).stacks, r)|
    requires StackOf(WithReg(pl, S, t, r).stacks, r)[k] == Some(pl.ranges[t])
    ensures OwnedOne(pl, home, WithReg(pl, S, t, r), calls, i, r, k)
  {
    hide Saves, StackOf, TempLabel;
    assert LocOf(WithReg(pl, S, t, r), t) == Some(InReg(r));
    assert Owns(pl, home, WithReg(pl, S, t, r), calls, i, r, k, t);
  }

  lemma AskRoom(pl: Plan, p: Code, home: Homes, S: Alloc, calls: seq<CallState>, i: nat, a: Addr)
    requires i < |p| && RangesOf(p, pl.ranges) && Framed(p, home) && Inv(pl, p, home, S, calls, i) && GoodAsk(p[i], a)
    requires HeldWithin(pl, i, a)
    requires Owned(pl, home, S, calls, i) && |Wanting(pl, p, home, i)| <= |Room(pl, i)|
    ensures Inv(pl, p, home, Stored(pl.ranges, S, a), calls, i) && Owned(pl, home, Stored(pl.ranges, S, a), calls, i)
  {
    hide Inv, RangesOf, Framed, TempLabel, OnFrame, Pick, Owned, Wanting, Saves, Room, Without;
    var S' := Stored(pl.ranges, S, a);
    SpareNow(pl, p, home, S, calls, i);
    if LabelOf(a) !in S.locs && a.Cgt? {
      assert Known(pl, S, i) && Shaped(S, calls) && |calls| == |OpenAt(p, i)| by { InvParts(pl, p, home, S, calls, i); }
      FirstMention(pl, p, home, S, i, a.t);
      assert a.t in Wanting(pl, p, home, i) by { WantsHere(pl, p, home, i, a.t); }
      FramedHoused(p, home);
      SpareLeft(pl, p, home, S, calls, i, a.t, a.held);
      var r := Pick(S.stacks, RangeOf(pl.ranges, a.t), Without(LOCAL_ORDER, a.held)).value;
      OwnedGiven(pl, p, home, S, calls, i, a.t, r);
      assert S' == WithReg(pl, S, a.t, r);
      assert SpareHere(p[i], S') by { SpareGiven(pl, p, S, i, a.t, r); }
    } else {
      OtherAsk(pl, S, a);
      OwnedStill(pl, home, S, S', calls, i);
    }
    AskStep(pl, p, home, S, calls, i, a);
  }

  lemma InvParts(pl: Plan, p: Code, home: Homes, S: Alloc, calls: seq<CallState>, i: nat)
    requires Inv(pl, p, home, S, calls, i)
    ensures i <= |p| && Known(pl, S, i) && Shaped(S, calls) && |calls| == |OpenAt(p, i)|
  {
  }

  lemma WantsHere(pl: Plan, p: Code, home: Homes, i: nat, t: nat)
    requires i <= |p| && Spanned(pl, i, t) && home(t) == OpenAt(p, i)
    ensures t in Wanting(pl, p, home, i)
  {
  }

  lemma SpareGiven(pl: Plan, p: Code, S: Alloc, i: nat, t: nat, r: Reg)
    requires i < |p| && SpareHere(p[i], S) && t in pl.ranges && Spare(r)
    ensures SpareHere(p[i], WithReg(pl, S, t, r))
  {
    hide TempLabel;
    forall u: nat | Mentions(p[i], ATemp(u))
      ensures u != t ==> LocOf(WithReg(pl, S, t, r), u) == LocOf(S, u)
      ensures LocOf(WithReg(pl, S, t, r), t) == Some(InReg(r))
    {
      if u != t {
        OtherLocation(pl, S, t, r, u, i);
      }
    }
  }

  /** A variable, or something that has its location already. */
  lemma OtherAsk(pl: Plan, S: Alloc, a: Addr)
    requires LabelOf(a) in S.locs || (a.Var? && PlainName(a.name))
    ensures var S' := Stored(pl.ranges, S, a); S'.stacks == S.stacks && forall t: nat :: LocOf(S', t) == LocOf(S, t)
  {
    hide TempLabel, Offset;
  }

  lemma {:induction false} AskAllRoom(pl: Plan, p: Code, home: Homes, S: Alloc, calls: seq<CallState>, i: nat,
                                      addrs: seq<Addr>)
    requires i < |p| && RangesOf(p, pl.ranges) && Framed(p, home) && Inv(pl, p, home, S, calls, i)
    requires Owned(pl, home, S, calls, i) && |Wanting(pl, p, home, i)| <= |Room(pl, i)|
    requires forall a :: a in addrs ==> GoodAsk(p[i], a) && HeldWithin(pl, i, a)
    ensures Inv(pl, p, home, StoreAll(pl.ranges, S, addrs), calls, i)
    ensures Owned(pl, home, StoreAll(pl.ranges, S, addrs), calls, i)
    decreases |addrs|
  {
    hide Inv, RangesOf, Framed, Stored, GoodAsk, HeldWithin, Owned, Wanting;
    if addrs != [] {
      assert addrs == Front(addrs) + [addrs[|addrs| - 1]];
      AskAllRoom(pl, p, home, S, calls, i, Front(addrs));
      AskRoom(pl, p, home, StoreAll(pl.ranges, S, Front(addrs)), calls, i, addrs[|addrs| - 1]);
    }
  }

  // ----- what each kind of quad does -----

  /** Owners after a quad that changes no spare register. */
  lemma OwnedOn(pl: Plan, home: Homes, S: Alloc, S': Alloc, calls: seq<CallState>, calls': seq<CallState>, i: nat)
    requires Owned(pl, home, S, calls, i)
    requires forall r :: Spare(r) ==> StackOf(S'.stacks, r) == StackOf(S.stacks, r) || StackOf(S'.stacks, r) == []
    requires forall t: nat :: Alive(pl, S, t, i + 1) || Alive(pl, S', t, i + 1) ==> LocOf(S', t) == LocOf(S, t)
    requires |calls'| == |calls| && forall j :: 0 <= j < |calls| ==> calls'[j].pushed == calls[j].pushed
    ensures Owned(pl, home, S', calls', i + 1)
  {
    hide LocOf, Saves, StackOf, OwnedOne;
    var next := i + 1;
    assert InRegs(pl, S', next) by { LaterInRegs(pl, S, S', i); }
    forall r, k: nat | Spare(r) && k < |StackOf(S'.stacks, r)|
      ensures OwnedOne(pl, home, S', calls', next, r, k)
    {
      forall t: nat | Owns(pl, home, S, calls, i, r, k, t) && t in pl.ranges && i + 1 <= pl.ranges[t].ends
        ensures LocOf(S', t) == LocOf(S, t) && Saves(calls', r, |home(t)|) == Saves(calls, r, |home(t)|)
      {
        assert Alive(pl, S, t, i + 1);
        SameSaves(calls', calls, r, |home(t)|);
      }
      OwnerStays(pl, home, S, S', calls, calls', i, i + 1, r, k);
    }
  }

  lemma LaterInRegs(pl: Plan, S: Alloc, S': Alloc, i: nat)
    requires InRegs(pl, S, i)
    requires forall t: nat :: Alive(pl, S', t, i + 1) ==> LocOf(S', t) == LocOf(S, t)
    ensures InRegs(pl, S', i + 1)
  {
    hide LocOf;
    var next := i + 1;
    forall t: nat | Alive(pl, S', t, next)
      ensures LocOf(S', t).value.InReg?
    {
      assert LocOf(S', t) == LocOf(S, t) && Alive(pl, S, t, i);
    }
  }

  /** Opening a call adds marks only. */
  lemma OwnedHint(pl: Plan, home: Homes, S: Alloc, calls: seq<CallState>, i: nat, saved: seq<Reg>)
    requires Owned(pl, home, S, calls, i) && Distinct(saved)
    ensures Owned(pl, home, S.(stacks := MarkAll(S.stacks, saved)), WithCall(calls, saved), i + 1)
  {
    hide LocOf, Saves, StackOf, OwnedOne, MarkAll, WithCall;
    var S', calls', next := S.(stacks := MarkAll(S.stacks, saved)), WithCall(calls, saved), i + 1;
    SameLocs(S, S');
    LaterInRegs(pl, S, S', i);
    assert |calls'| == |calls| + 1 by { OpenedSize(calls, saved); }
    forall r, k: nat | Spare(r) && k < |StackOf(S'.stacks, r)|
      ensures OwnedOne(pl, home, S', calls', next, r, k)
    {
      MarkedOnce(S.stacks, saved, r);
      OpenedSaves(calls, saved, r);
      if k < |StackOf(S.stacks, r)| {
        OwnerStays(pl, home, S, S', calls, calls', i, i + 1, r, k);
      } else {
        NoOwner(pl, home, S', calls', i + 1, r, k);
      }
    }
  }

  lemma OpenedSize(calls: seq<CallState>, saved: seq<Reg>)
    ensures |WithCall(calls, saved)| == |calls| + 1
  {
  }

  lemma NoOwner(pl: Plan, home: Homes, S: Alloc, calls: seq<CallState>, i: nat, r: Reg, k: nat)
    requires k < |StackOf(S.stacks, r)| && StackOf(S.stacks, r)[k] == None
    ensures OwnedOne(pl, home, S, calls, i, r, k)
  {
  }

  /** Closing a call drops the latest entries only. */
  lemma OwnedClose(pl: Plan, p: Code, home: Homes, S: Alloc, calls: seq<CallState>, i: nat)
    requires i < |p| && Owned(pl, home, S, calls, i) && calls != [] && Distinct(calls[|calls| - 1].pushed)
    requires Inv(pl, p, home, S, calls, i) && RangesOf(p, pl.ranges) && Housed(p, home) && IsCall(p[i])
    ensures var c := calls[|calls| - 1];
            Owned(pl, home, S.(stacks := Close(S.stacks, ArgRegs(c), c.pushed)), calls[..|calls| - 1], i + 1)
  {
    hide LocOf, Saves, StackOf, OwnedOne, Close, ArgRegs, Inv, RangesOf, Housed, NestAt;
    var n, next := |calls| - 1, i + 1;
    var c := calls[n];
    var S', calls' := S.(stacks := Close(S.stacks, ArgRegs(c), c.pushed)), calls[..n];
    SameLocs(S, S');
    LaterInRegs(pl, S, S', i);
    ArgRegsParams(c);
    InvParts(pl, p, home, S, calls, i);
    forall r, k: nat | Spare(r) && k < |StackOf(S'.stacks, r)|
      ensures OwnedOne(pl, home, S', calls', next, r, k)
    {
      CloseStays(S.stacks, ArgRegs(c), c.pushed, r);
      forall t: nat | Owns(pl, home, S, calls, i, r, k, t) && t in pl.ranges && i + 1 <= pl.ranges[t].ends
        ensures |home(t)| <= |calls'| && Saves(calls', r, |home(t)|) == Saves(calls, r, |home(t)|)
      {
        assert Alive(pl, S, t, i + 1);
        AliveBefore(pl, p, home, S, calls, i, t, r);
        AliveHome(pl, p, home, t, i + 1);
        CallNest(p, i);
        SameSaves(calls, calls', r, |home(t)|);
      }
      OwnerStays(pl, home, S, S', calls, calls', i, i + 1, r, k);
    }
  }

  /** The result is mentioned for the first time, and stored while the register is held. */
  ghost predicate StoredAside(pl: Plan, p: Code, i: nat, r: Reg)
    requires i < |p| && p[i].Quad?
  {
    p[i].res.ATemp? ==>
      p[i].res.t in pl.ranges && pl.ranges[p[i].res.t].starts == i
      && forall a :: a in pl.asks(i) && a.Cgt? && a.t == p[i].res.t ==> r in a.held
  }

  /** Registers are taken for single quads outside of calls only; a spare one only by quads whose result is stored
      while they hold it, as a dereference takes rbx. */
  ghost predicate BriefAt(pl: Plan, p: Code, i: nat)
    requires i < |p|
  {
    && (pl.scratch(i) != [] ==> OpenAt(p, i) == [])
    && (Inside(p[i]) ==> forall r :: r in pl.scratch(i) && Spare(r) ==> StoredAside(pl, p, i, r))
  }

  lemma OwnedNext(pl: Plan, p: Code, home: Homes, i: nat)
    requires i < |p| && Given(pl, p) && Framed(p, home) && PassHolds(pl, p, home, i) && BriefAt(pl, p, i)
    requires IsArg(p[i]) ==> p[i].arg1.ATemp?
    requires Inv(pl, p, home, Loaded(pl, p, i), Record(pl, p, i), i)
    requires Owned(pl, home, Loaded(pl, p, i), Record(pl, p, i), i)
    ensures Owned(pl, home, CgAt(pl, p, i + 1).alloc, Record(pl, p, i + 1), i + 1)
  {
    hide Inv, Given, Framed, CgAt, Loaded, Orderly, MarkAll, Close, Placed, BusyRegs, Owned, Alive, Brackets, BriefAt, NestAt;
    var S, g, q := Loaded(pl, p, i), CgAt(pl, p, i).gen, p[i];
    var S' := CgAt(pl, p, i + 1).alloc;
    NextRecord(pl, p, i);
    GivenReady(pl, p);
    FramedHoused(p, home);
    OrderlyAt(p, home, i);
    OpenRecord(pl, p, home, S, g.calls, i);
    if IsHint(q) {
      SavedRegs(S.stacks, i, RegOf(S, q.res), RAX);
      OwnedHint(pl, home, S, g.calls, i, SavedAt(pl, p, i));
    } else if IsCall(q) {
      OwnedClose(pl, p, home, S, g.calls, i);
    } else if IsArg(q) {
      var u := q.arg1.t;
      ParamStays(S, u, Calls.Passed(TopCall(g)), i);
      ArgGone(pl, p, home, S, i);
      ArgGone(pl, p, home, S', i);
      OwnedOn(pl, home, S, S', g.calls, PassArg(g).calls, i);
    } else {
      SameLocs(S, S');
      if Inside(q) {
        forall r | Spare(r)
          ensures StackOf(S'.stacks, r) == StackOf(S.stacks, r) || StackOf(S'.stacks, r) == []
        {
          BriefStacks(pl, p, home, S, g.calls, i, r);
        }
      }
      OwnedOn(pl, home, S, S', g.calls, g.calls, i);
    }
  }

  /** Taking a register outside of calls leaves its ranges, or none. */
  lemma BriefStacks(pl: Plan, p: Code, home: Homes, S: Alloc, calls: seq<CallState>, i: nat, r: Reg)
    requires i < |p| && BriefAt(pl, p, i) && Inv(pl, p, home, S, calls, i) && Spare(r)
    ensures StackOf(Brackets(S.stacks, pl.scratch(i), i), r) in [StackOf(S.stacks, r), []]
    ensures r in pl.scratch(i) ==> Unsaved(calls, r)
  {
    hide NestAt, Brackets, StackOf, InUse, KeptAll, RegsApart, Known;
    BracketsOne(S.stacks, pl.scratch(i), i, r);
    if r in pl.scratch(i) {
      assert |calls| == 0;
      assert ShapedOne(StackOf(S.stacks, r), Saves(calls, r, |calls|));
    }
  }

  lemma BriefScratch(pl: Plan, p: Code, home: Homes, i: nat)
    requires i < |p| && BriefAt(pl, p, i) && Inv(pl, p, home, Loaded(pl, p, i), Record(pl, p, i), i)
    ensures ScratchOk(pl, p, i)
  {
    hide BriefAt, Inv, Loaded, CgAt, StackOf, Brackets, Unsaved;
    forall r | r in pl.scratch(i) && Spare(r)
      ensures Unsaved(CgAt(pl, p, i).gen.calls, r)
    {
      BriefStacks(pl, p, home, Loaded(pl, p, i), Record(pl, p, i), i, r);
    }
  }

  /** What is stored only while a register is held does not get it. */
  lemma {:induction false} HeldAway(ranges: map<nat, Range>, S: Alloc, addrs: seq<Addr>, t: nat, r: Reg)
    requires LocOf(S, t) != Some(InReg(r)) && forall a :: a in addrs && a.Cgt? && a.t == t ==> r in a.held
    ensures LocOf(StoreAll(ranges, S, addrs), t) != Some(InReg(r))
  {
    hide Stored, TempLabel;
    if addrs != [] {
      var a := addrs[|addrs| - 1];
      assert addrs == Front(addrs) + [a];
      HeldAway(ranges, S, Front(addrs), t, r);
      OneHeld(ranges, StoreAll(ranges, S, Front(addrs)), a, t, r);
    }
  }

  lemma OneHeld(ranges: map<nat, Range>, S: Alloc, a: Addr, t: nat, r: Reg)
    requires LocOf(S, t) != Some(InReg(r)) && (a.Cgt? && a.t == t ==> r in a.held)
    ensures LocOf(Stored(ranges, S, a), t) != Some(InReg(r))
  {
    hide TempLabel, Offset, Intersects;
    if a.Cgt? && a.t != t {
      DifferentLabels(a.t, t);
    }
    if a.Cgt? {
      PickIn(S.stacks, RangeOf(ranges, a.t), Without(LOCAL_ORDER, a.held));
    }
  }

  lemma {:induction false} PickIn(k: Stacks, lr: Option<Range>, order: seq<Reg>)
    ensures Pick(k, lr, order).Some? ==> Pick(k, lr, order).value in order
  {
    hide Intersects, Peek;
    if order != [] && Intersects(lr, Peek(k, order[0])) {
      PickIn(k, lr, order[1..]);
    }
  }

  /** A register taken for a quad is not its result's and holds no argument. */
  lemma BriefLoyal(pl: Plan, p: Code, i: nat, r: Reg)
    requires i < |p| && BriefAt(pl, p, i) && Inside(p[i]) && r in pl.scratch(i) && Given(pl, p)
    requires SpareHere(p[i], Loaded(pl, p, i))
    ensures RegOf(Loaded(pl, p, i), p[i].res) != Some(r) && !HoldsArg(p, i, r)
  {
    hide CgAt, Loaded, LocOf, TempLabel, NestAt, Spans, Asks;
    NestSizes(p, i);
    if p[i].res.ATemp? {
      var t := p[i].res.t;
      assert Mentions(p[i], ATemp(t));
      if Spare(r) {
        assert StoredAside(pl, p, i, r);
        assert RangesOf(p, pl.ranges) && Asks(p, pl.asks);
        NotYet(pl, p, i, t);
        AwayHere(pl, p, i, t, r);
      }
    }
  }

  lemma AwayHere(pl: Plan, p: Code, i: nat, t: nat, r: Reg)
    requires i < |p| && LocOf(CgAt(pl, p, i).alloc, t) == None
    requires forall a :: a in pl.asks(i) && a.Cgt? && a.t == t ==> r in a.held
    ensures LocOf(Loaded(pl, p, i), t) != Some(InReg(r))
  {
    hide CgAt, StoreAll, LocOf;
    HeldAway(pl.ranges, CgAt(pl, p, i).alloc, pl.asks(i), t, r);
  }

  /** Before its first mention a temporary has no location. */
  lemma NotYet(pl: Plan, p: Code, i: nat, t: nat)
    requires i < |p| && Given(pl, p) && t in pl.ranges && pl.ranges[t].starts == i
    ensures LocOf(CgAt(pl, p, i).alloc, t) == None
  {
    hide CgAt, Loaded, TempLabel, CallLabels.AskedAt, GoodAsk, SlotsApart;
    GivenReady(pl, p);
    assert LocOf(pl.start, t) == None;
    CallLabels.LabelsKnown(pl, p, i);
    if CallLabels.KnownLabel(pl, TempLabel(t), i) {
      var j: nat :| j < i && CallLabels.AskedAt(pl, j, TempLabel(t));
      CallLabels.AskedIsMentioned(pl, p, j, t);
      MentionRange(p, pl.ranges, j, t);
    }
  }

  lemma ArgGone(pl: Plan, p: Code, home: Homes, S: Alloc, i: nat)
    requires i < |p| && RangesOf(p, pl.ranges) && Orderly(p, i) && IsArg(p[i]) && p[i].arg1.ATemp?
    ensures !Alive(pl, S, p[i].arg1.t, i + 1)
  {
    hide RangesOf, NestAt, LocOf;
    var u := p[i].arg1.t;
    assert Mentions(p[i], ATemp(u));
    MentionRange(p, pl.ranges, i, u);
    OrderlyArg(p, i);
    GoneAfter(pl, p, i, u);
  }

  // ----- the whole pass -----

  ghost predicate RoomySetting(pl: Plan, p: Code, home: Homes)
  {
    && Given(pl, p) && Framed(p, home) && Roomy(pl, p, home) && (forall i: nat :: i < |p| ==> BriefAt(pl, p, i))
    && (forall i: nat, a :: i < |p| && a in pl.asks(i) ==> HeldWithin(pl, i, a))
    && forall i: nat :: i < |p| && IsArg(p[i]) ==> p[i].arg1.ATemp?
  }

  lemma RoomyAt(pl: Plan, p: Code, home: Homes, i: nat)
    requires RoomySetting(pl, p, home) && i < |p|
    ensures Given(pl, p) && Framed(p, home) && |Wanting(pl, p, home, i)| <= |Room(pl, i)| && BriefAt(pl, p, i)
    ensures (IsArg(p[i]) ==> p[i].arg1.ATemp?)
    ensures forall a :: a in pl.asks(i) ==> GoodAsk(p[i], a) && HeldWithin(pl, i, a)
  {
    hide Framed, Wanting, Spans, CgAt, GoodAsk, HeldWithin, BriefAt, Room;
  }

  lemma {:induction false} RoomyPass(pl: Plan, p: Code, home: Homes, i: nat)
    requires RoomySetting(pl, p, home) && i <= |p|
    ensures PassHolds(pl, p, home, i) && Owned(pl, home, CgAt(pl, p, i).alloc, Record(pl, p, i), i)
    ensures i < |p| ==> Inv(pl, p, home, Loaded(pl, p, i), Record(pl, p, i), i) && Known(pl, Loaded(pl, p, i), i + 1)
                        && Owned(pl, home, Loaded(pl, p, i), Record(pl, p, i), i) && SpareHere(p[i], Loaded(pl, p, i))
  {
    hide Inv, Given, Framed, CgAt, StoreAll, Known, SavedOnce, Owned, Wanting, SpareHere, Orderly, BriefAt, HeldWithin, Room;
    if i == 0 {
      StartRoomy(pl, p, home);
    } else {
      RoomyPass(pl, p, home, i - 1);
      RoomyAt(pl, p, home, i - 1);
      BriefScratch(pl, p, home, i - 1);
      QuadPasses(pl, p, home, i - 1);
      OwnedNext(pl, p, home, i - 1);
    }
    if i < |p| {
      RoomyAt(pl, p, home, i);
      GivenReady(pl, p);
      AskAllRoom(pl, p, home, CgAt(pl, p, i).alloc, Record(pl, p, i), i, pl.asks(i));
      SpareNow(pl, p, home, Loaded(pl, p, i), Record(pl, p, i), i);
      LoadedInv(pl, p, home, i);
    }
  }

  lemma StartRoomy(pl: Plan, p: Code, home: Homes)
    requires RoomySetting(pl, p, home)
    ensures PassHolds(pl, p, home, 0) && Owned(pl, home, CgAt(pl, p, 0).alloc, Record(pl, p, 0), 0)
  {
    hide Inv, Framed, SlotsApart, TempLabel, Wanting, SavedOnce;
    GivenReady(pl, p);
    StartHolds(pl, p, home);
    AtStart(pl, p);
  }

  /** If nowhere more than eight temporaries want a register at once, none gets one arguments are passed in. */
  lemma RoomyApiece(pl: Plan, p: Code, home: Homes)
    requires RoomySetting(pl, p, home)
    ensures Apiece(pl, p)
  {
    hide RoomySetting, CgAt, Loaded, LocOf;
    forall i: nat | i < |p|
      ensures SpareHere(p[i], Loaded(pl, p, i))
    {
      RoomyPass(pl, p, home, i);
    }
  }

  /** Arguments are in registers when they are passed, as the generator asserts, and no quad takes the register of its
      result or of an argument already passed. */
  lemma RoomyQuad(pl: Plan, p: Code, home: Homes, i: nat)
    requires RoomySetting(pl, p, home) && i < |p|
    ensures ScratchOk(pl, p, i)
    ensures IsArg(p[i]) ==> p[i].arg1.ATemp? && RegOf(Loaded(pl, p, i), p[i].arg1).Some?
    ensures Inside(p[i]) ==> forall r :: r in pl.scratch(i) ==>
                                           RegOf(Loaded(pl, p, i), p[i].res) != Some(r) && !HoldsArg(p, i, r)
  {
    hide RoomySetting, CgAt, Loaded, LocOf, Given, BriefAt, Inv, OwnedOne, Known, Framed, NestAt, Room, HeldWithin, GoodAsk;
    RoomyPass(pl, p, home, i);
    RoomyAt(pl, p, home, i);
    BriefScratch(pl, p, home, i);
    if IsArg(p[i]) {
      var u := p[i].arg1.t;
      GivenReady(pl, p);
      assert Mentions(p[i], ATemp(u));
      MentionRange(p, pl.ranges, i, u);
      assert LocOf(Loaded(pl, p, i), u).Some?  by { ArgStored(pl, Loaded(pl, p, i), i, u); }
      assert Alive(pl, Loaded(pl, p, i), u, i);
    }
    if Inside(p[i]) {
      forall r | r in pl.scratch(i)
        ensures RegOf(Loaded(pl, p, i), p[i].res) != Some(r) && !HoldsArg(p, i, r)
      {
        BriefLoyal(pl, p, i, r);
      }
    }
  }
}
