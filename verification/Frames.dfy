/** The frame: slots of variables and temporaries, how many bytes are safe, and which names. */
module Frames {
  import opened Ast
  import opened LiveRanges
  import opened Nests
  import opened RegAlloc

  /** The slot of one ends before the slot of the other begins. */
  predicate Apart(a: Loc, b: Loc)
  {
    a.OnStack? && b.OnStack? ==> a.mem + a.size <= b.mem || b.mem + b.size <= a.mem
  }

  /** All slots, of variables and of temporaries, lie in the used part of the frame, and none overlaps another. */
  ghost predicate SlotsApart(S: Alloc)
  {
    && (forall x :: x in S.locs && S.locs[x].OnStack? ==>
          0 <= S.locs[x].mem + S.lStack && S.locs[x].mem + S.locs[x].size <= 0)
    && (forall x, y :: x in S.locs && y in S.locs && x != y ==> Apart(S.locs[x], S.locs[y]))
  }

  /** Within what a 16-bit offset reaches below the frame pointer. */
  ghost predicate SlotsReached(S: Alloc)
  {
    forall x :: x in S.locs && S.locs[x].OnStack? ==> -0x8000 <= S.locs[x].mem && S.locs[x].mem + S.locs[x].size <= 0
  }

  ghost predicate SlotsDisjoint(S: Alloc)
  {
    forall x, y :: x in S.locs && y in S.locs && x != y ==> Apart(S.locs[x], S.locs[y])
  }

  lemma FrameSlotApart(S: Alloc, a: Addr)
    requires SlotsApart(S) && LabelOf(a) !in S.locs && S.lStack + a.size <= 0x8000
    ensures SlotsApart(OnFrame(S, a))
  {
    var l := S.lStack + a.size;
    var S' := OnFrame(S, a);
    assert S'.locs[LabelOf(a)] == OnStack(0 - l, a.size);
    forall x, y | x in S'.locs && y in S'.locs && x != y
      ensures Apart(S'.locs[x], S'.locs[y])
    {
      if x in S.locs && y in S.locs {
        assert Apart(S.locs[x], S.locs[y]);
      }
    }
  }

  /** The slots after a step that gives no slot are those before it. */
  lemma SlotsCarry(S: Alloc, S': Alloc)
    requires SlotsApart(S) && S.lStack <= S'.lStack
    requires forall x :: x in S'.locs && S'.locs[x].OnStack? ==> x in S.locs && S.locs[x] == S'.locs[x]
    ensures SlotsApart(S')
  {
    forall x, y | x in S'.locs && y in S'.locs && x != y
      ensures Apart(S'.locs[x], S'.locs[y])
    {
      if S'.locs[x].OnStack? && S'.locs[y].OnStack? {
        assert Apart(S.locs[x], S.locs[y]);
      }
    }
  }

  lemma SlotsStayApart(ranges: map<nat, Range>, S: Alloc, a: Addr)
    requires SlotsApart(S) && Stored(ranges, S, a).lStack <= 0x8000
    ensures SlotsApart(Stored(ranges, S, a))
  {
    hide Pick, Decimal, TempLabel, SlotsApart;
    var S' := Stored(ranges, S, a);
    if S' == OnFrame(S, a) && LabelOf(a) !in S.locs {
      FrameSlotApart(S, a);
    } else {
      SlotsCarry(S, S');
    }
  }

  lemma {:induction false} AllSlotsApart(ranges: map<nat, Range>, S: Alloc, addrs: seq<Addr>)
    requires SlotsApart(S) && StoreAll(ranges, S, addrs).lStack <= 0x8000
    ensures SlotsApart(StoreAll(ranges, S, addrs))
  {
    hide Stored, SlotsApart;
    if addrs != [] {
      var S1 := StoreAll(ranges, S, Front(addrs));
      StoredKeeps(ranges, S1, addrs[|addrs| - 1]);
      AllSlotsApart(ranges, S, Front(addrs));
      SlotsStayApart(ranges, S1, addrs[|addrs| - 1]);
    }
  }

  /** A frame in which nothing has been put yet: no slot, and a location in the data segment is its label's. */
  ghost predicate Unframed(S: Alloc)
  {
    S.lStack == 0 && forall x :: x in S.locs ==> S.locs[x] == InData(x)
  }

  function ByteRun(from: int, n: nat): (s: set<int>)
    ensures |s| == n && forall b :: b in s <==> from <= b < from + n
  {
    if n == 0 then {} else {from + n - 1} + ByteRun(from, n - 1)
  }

  function SlotRun(a: Loc): set<int>
  {
    if a.OnStack? then ByteRun(a.mem, a.size) else {}
  }

  /** The bytes of all slots. */
  ghost function SlotBytes(S: Alloc): set<int>
  {
    set x, b | x in S.locs && b in SlotRun(S.locs[x]) :: b
  }

  lemma Disjoint<T>(a: set<T>, b: set<T>)
    requires a !! b
    ensures |a + b| == |a| + |b|
  {
  }

  lemma SubsetSize<T>(a: set<T>, b: set<T>)
    requires a <= b
    ensures |a| <= |b|
  {
    Disjoint(a, b - a);
    assert a + (b - a) == b;
  }

  /** Disjoint slots hold as many bytes as have been asked for. */
  lemma {:induction false} BytesAskedFor(ranges: map<nat, Range>, S: Alloc, addrs: seq<Addr>)
    requires Unframed(S) && SlotsDisjoint(StoreAll(ranges, S, addrs))
    ensures |SlotBytes(StoreAll(ranges, S, addrs))| == StoreAll(ranges, S, addrs).lStack
  {
    hide Stored, LabelOf, Unframed;
    if addrs == [] {
      NoSlots(S);
    } else {
      var S1, a := StoreAll(ranges, S, Front(addrs)), addrs[|addrs| - 1];
      StoredKeeps(ranges, S1, a);
      assert SlotsDisjoint(S1) by {
        forall x, y | x in S1.locs && y in S1.locs && x != y
          ensures Apart(S1.locs[x], S1.locs[y])
        {
          assert Apart(Stored(ranges, S1, a).locs[x], Stored(ranges, S1, a).locs[y]);
        }
      }
      BytesAskedFor(ranges, S, Front(addrs));
      OneMoreSlot(ranges, S1, a);
    }
  }

  lemma NoSlots(S: Alloc)
    requires Unframed(S)
    ensures SlotBytes(S) == {} && S.lStack == 0
  {
  }

  lemma OneMoreSlot(ranges: map<nat, Range>, S: Alloc, a: Addr)
    requires SlotsDisjoint(Stored(ranges, S, a))
    ensures |SlotBytes(Stored(ranges, S, a))| == |SlotBytes(S)| + Stored(ranges, S, a).lStack - S.lStack
  {
    hide Pick, Offset, TempLabel;
    var S' := Stored(ranges, S, a);
    if S' == OnFrame(S, a) && LabelOf(a) !in S.locs {
      var loc := S'.locs[LabelOf(a)];
      var more := ByteRun(loc.mem, a.size);
      NewBytes(S, S', LabelOf(a));
      Disjoint(SlotBytes(S), more);
      assert SlotBytes(S') == SlotBytes(S) + more;
    } else {
      assert SlotBytes(S') == SlotBytes(S) by { SameSlots(S, S'); }
    }
  }

  lemma SameSlots(S: Alloc, S': Alloc)
    requires forall x :: x in S'.locs && S'.locs[x].OnStack? <==> x in S.locs && S.locs[x].OnStack?
    requires forall x :: x in S.locs && S.locs[x].OnStack? ==> S'.locs[x] == S.locs[x]
    ensures SlotBytes(S') == SlotBytes(S)
  {
  }

  lemma NewBytes(S: Alloc, S': Alloc, key: string)
    requires key !in S.locs && key in S'.locs && S'.locs == S.locs[key := S'.locs[key]] && S'.locs[key].OnStack?
    requires SlotsDisjoint(S')
    ensures var more := ByteRun(S'.locs[key].mem, S'.locs[key].size);
            SlotBytes(S) !! more && SlotBytes(S') == SlotBytes(S) + more
  {
    hide SlotRun;
    var more := SlotRun(S'.locs[key]);
    assert more == ByteRun(S'.locs[key].mem, S'.locs[key].size) by { RunOf(S'.locs[key]); }
    forall b | b in SlotBytes(S)
      ensures b !in more
    {
      var x :| x in S.locs && b in SlotRun(S.locs[x]);
      assert S'.locs[x] == S.locs[x];
      RunsApart(S'.locs[x], S'.locs[key]);
    }
    forall b
      ensures b in SlotBytes(S') <==> b in SlotBytes(S) + more
    {
      if b in SlotBytes(S') {
        var x :| x in S'.locs && b in SlotRun(S'.locs[x]);
        assert x == key || (x in S.locs && S.locs[x] == S'.locs[x]);
      }
      if b in SlotBytes(S) {
        var x :| x in S.locs && b in SlotRun(S.locs[x]);
        assert x in S'.locs && S'.locs[x] == S.locs[x];
      }
    }
  }

  lemma RunOf(a: Loc)
    requires a.OnStack?
    ensures SlotRun(a) == ByteRun(a.mem, a.size)
  {
  }

  lemma RunsApart(a: Loc, b: Loc)
    requires Apart(a, b)
    ensures SlotRun(a) !! SlotRun(b)
  {
    hide ByteRun;
  }

  /** Whatever is requested: the slots are disjoint and below the frame pointer where offsets reach, if and
      only if they take no more than 32768 bytes together. */
  lemma FrameExact(ranges: map<nat, Range>, S: Alloc, addrs: seq<Addr>)
    requires Unframed(S)
    ensures var S' := StoreAll(ranges, S, addrs); SlotsDisjoint(S') && SlotsReached(S') <==> S'.lStack <= 0x8000
  {
    hide StoreAll, ByteRun;
    var S' := StoreAll(ranges, S, addrs);
    if S'.lStack <= 0x8000 {
      AllSlotsApart(ranges, S, addrs);
    }
    if SlotsDisjoint(S') && SlotsReached(S') {
      BytesAskedFor(ranges, S, addrs);
      forall b | b in SlotBytes(S')
        ensures b in ByteRun(-0x8000, 0x8000)
      {
      }
      SubsetSize(SlotBytes(S'), ByteRun(-0x8000, 0x8000));
    }
  }

  // ----- names -----

  function LocOf(S: Alloc, t: nat): Option<Loc>
  {
    if TempLabel(t) in S.locs then Some(S.locs[TempLabel(t)]) else None
  }

  ghost predicate PlainName(x: string)
  {
    forall t: nat :: x != TempLabel(t)
  }

  /** Only temporaries' labels have registers, data locations are their labels' own, and slots are not empty. */
  ghost predicate Typed(S: Alloc)
  {
    forall x :: x in S.locs ==>
                  (S.locs[x].InReg? ==> !PlainName(x)) && (S.locs[x].InData? ==> S.locs[x].name == x)
                  && (S.locs[x].OnStack? ==> S.locs[x].size > 0) && !S.locs[x].InCaller?
  }

  lemma {:induction false} StaysTyped(ranges: map<nat, Range>, S: Alloc, addrs: seq<Addr>)
    requires Typed(S) && forall a :: a in addrs ==> a.size > 0
    ensures Typed(StoreAll(ranges, S, addrs))
  {
    hide Stored, PlainName, Typed;
    if addrs != [] {
      assert addrs == Front(addrs) + [addrs[|addrs| - 1]];
      StaysTyped(ranges, S, Front(addrs));
      OneTyped(ranges, StoreAll(ranges, S, Front(addrs)), addrs[|addrs| - 1]);
    }
  }

  lemma OneTyped(ranges: map<nat, Range>, S: Alloc, a: Addr)
    requires Typed(S) && a.size > 0
    ensures Typed(Stored(ranges, S, a))
  {
    hide Pick, Offset, TempLabel;
  }

  /** Locations are remembered by label. After any requests: a variable is given a place some temporary has if
      and only if its name is the label of a temporary that has one. */
  lemma LabelsCollide(ranges: map<nat, Range>, S0: Alloc, addrs: seq<Addr>, a: Addr)
    requires Unframed(S0) && a.Var? && a.size > 0 && forall b :: b in addrs ==> b.size > 0
    requires Stored(ranges, StoreAll(ranges, S0, addrs), a).lStack <= 0x8000
    ensures var S := StoreAll(ranges, S0, addrs);
            var S' := Stored(ranges, S, a);
            && a.name in S'.locs
            && ((exists t: nat :: LocOf(S, t).Some? && S'.locs[a.name] == LocOf(S, t).value) <==>
                exists t: nat :: LocOf(S, t).Some? && a.name == TempLabel(t))
  {
    hide Stored, StoreAll, TempLabel, Offset;
    var S := StoreAll(ranges, S0, addrs);
    var S' := Stored(ranges, S, a);
    StoredKeeps(ranges, S, a);
    StaysTyped(ranges, S0, addrs);
    OneTyped(ranges, S, a);
    AllSlotsApart(ranges, S0, addrs);
    SlotsStayApart(ranges, S, a);
    if t: nat :| LocOf(S, t).Some? && S'.locs[a.name] == LocOf(S, t).value && a.name != TempLabel(t) {
      OwnLabel(ranges, S, a, t);
    }
  }

  lemma OwnLabel(ranges: map<nat, Range>, S: Alloc, a: Addr, t: nat)
    requires var S' := Stored(ranges, S, a); Typed(S') && SlotsApart(S') && LocOf(S, t).Some?
    requires a.Var? && a.name != TempLabel(t)
    requires a.name in Stored(ranges, S, a).locs && Stored(ranges, S, a).locs[a.name] == LocOf(S, t).value
    ensures exists u: nat :: LocOf(S, u).Some? && a.name == TempLabel(u)
  {
    hide TempLabel, Offset;
    var S' := Stored(ranges, S, a);
    StoredKeeps(ranges, S, a);
    assert Apart(S'.locs[a.name], S'.locs[TempLabel(t)]);
    assert S'.locs[a.name].InReg?;
    var u: nat :| a.name == TempLabel(u);
    assert LocOf(S, u).Some?;
  }

  // ----- where a procedure starts -----

  /** Before the first quad: no ranges, no temporary stored, slots apart. */
  ghost predicate Ready(S: Alloc)
  {
    && (forall r :: StackOf(S.stacks, r) == [])
    && SlotsApart(S) && forall t: nat :: LocOf(S, t) == None
  }

  /** The parameters of a procedure, in order, from number k on. */
  function ReceiveAll(S: Alloc, params: seq<(string, nat)>, pad: nat): Alloc
  {
    if params == [] then S
    else
      var n := |params| - 1;
      Received(ReceiveAll(S, Front(params), pad), params[n].0, params[n].1, n, pad)
  }

  /** Any number of parameters, in registers and on the stack of the caller, leaves the allocator ready. */
  lemma {:induction false} ParametersReady(S: Alloc, params: seq<(string, nat)>, pad: nat)
    requires Ready(S) && (forall i, j :: 0 <= i < j < |params| ==> params[i].0 != params[j].0)
    requires forall i :: 0 <= i < |params| ==> PlainName(params[i].0) && params[i].0 !in S.locs
    requires ReceiveAll(S, params, pad).lStack <= 0x8000
    ensures Ready(ReceiveAll(S, params, pad))
    ensures forall x :: x in ReceiveAll(S, params, pad).locs ==> x in S.locs || exists i :: 0 <= i < |params| && params[i].0 == x
  {
    hide PlainName, SlotsApart, TempLabel, Received;
    if params != [] {
      var n := |params| - 1;
      var S1 := ReceiveAll(S, Front(params), pad);
      ReceivedGrows(S1, params[n].0, params[n].1, n, pad);
      ParametersReady(S, Front(params), pad);
      ParameterReady(S1, params[n].0, params[n].1, n, pad);
    }
  }

  lemma ReceivedGrows(S: Alloc, x: string, size: nat, k: nat, pad: nat)
    ensures S.lStack <= Received(S, x, size, k, pad).lStack
    ensures forall y :: y in Received(S, x, size, k, pad).locs ==> y in S.locs || y == x
  {
    hide Offset;
  }

  lemma ParameterReady(S: Alloc, x: string, size: nat, k: nat, pad: nat)
    requires Ready(S) && PlainName(x) && x !in S.locs && Received(S, x, size, k, pad).lStack <= 0x8000
    ensures Ready(Received(S, x, size, k, pad))
  {
    hide Offset, SlotsApart, TempLabel, Reserve, Drop, OnFrame, Apart;
    var S' := Received(S, x, size, k, pad);
    ReceivedRegs(S, x, size, k, pad);
    ReceivedSlots(S, x, size, k, pad);
    ReceivedGrows(S, x, size, k, pad);
    forall t: nat
      ensures LocOf(S', t) == None
    {
      assert LocOf(S, t) == None;
    }
  }

  lemma ReceivedRegs(S: Alloc, x: string, size: nat, k: nat, pad: nat)
    requires forall r :: StackOf(S.stacks, r) == []
    ensures forall r :: StackOf(Received(S, x, size, k, pad).stacks, r) == []
  {
    hide Offset, Reserve;
    if k < |PARAM_ORDER| {
      var q := PARAM_ORDER[k];
      forall r
        ensures StackOf(Received(S, x, size, k, pad).stacks, r) == []
      {
        ReserveOne(S.stacks, q, 0, r);
      }
    }
  }

  lemma ReceivedSlots(S: Alloc, x: string, size: nat, k: nat, pad: nat)
    requires SlotsApart(S) && x !in S.locs && Received(S, x, size, k, pad).lStack <= 0x8000
    ensures SlotsApart(Received(S, x, size, k, pad))
  {
    hide Offset, SlotsApart, Reserve;
    var S' := Received(S, x, size, k, pad);
    if k < |PARAM_ORDER| {
      FrameSlotApart(S, Var(x, size, false));
      assert S'.locs == OnFrame(S, Var(x, size, false)).locs && S'.lStack == OnFrame(S, Var(x, size, false)).lStack;
      SlotsCarry(OnFrame(S, Var(x, size, false)), S');
    } else {
      SlotsCarry(S, S');
    }
  }
}
