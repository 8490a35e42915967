/** The generator's pass with its locations in the hash map: exactly when it finds what it has put there. */
module CallTable {
  import opened Ast
  import opened Quads
  import opened Liveness
  import opened LiveRanges
  import opened Nests
  import opened RegAlloc
  import opened Frames
  import opened Calls
  import opened CallSim
  import opened CallAlloc
  import HashMap
  import Lookups

  // ----- the pass -----

  datatype CgT = CgT(alloc: AllocT, gen: Gen)

  /** Where the table finds a temporary. */
  function LocOfT(hash: Hash, S: AllocT, t: nat): Option<Loc>
  {
    HashMap.GetT(hash, S.table, TempLabel(t))
  }

  function RegOfT(hash: Hash, S: AllocT, a: Operand): Option<Reg>
  {
    if a.ATemp? && LocOfT(hash, S, a.t).Some? && LocOfT(hash, S, a.t).value.InReg? then Some(LocOfT(hash, S, a.t).value.reg)
    else None
  }

  function StoreAllT(hash: Hash, ranges: map<nat, Range>, S: AllocT, addrs: seq<Addr>): AllocT
  {
    if addrs == [] then S else StoredT(hash, ranges, StoreAllT(hash, ranges, S, Front(addrs)), addrs[|addrs| - 1])
  }

  function LoadedT(pl: Plan, p: Code, i: nat): AllocT
    requires i < |p|
    decreases i, 1
  {
    StoreAllT(pl.hash, pl.ranges, CgAtT(pl, p, i).alloc, pl.asks(i))
  }

  function SavedT(pl: Plan, p: Code, i: nat): seq<Reg>
    requires i < |p|
    decreases i, 2
  {
    var S := LoadedT(pl, p, i);
    if IsHint(p[i]) then BusyRegs(S.stacks, i, RegOfT(pl.hash, S, p[i].res)) else []
  }

  /** The label that is put over: that of the argument a quad passes. */
  function KeyOf(q: Quad): string
  {
    if IsArg(q) && q.arg1.ATemp? then TempLabel(q.arg1.t) else ""
  }

  function AfterT(pl: Plan, q: Quad, i: nat, S: AllocT, g: Gen, saved: seq<Reg>): AllocT
  {
    Entered(pl.hash, S, KeyOf(q), After(pl, q, i, Bare(S), g, saved))
  }

  function CgAtT(pl: Plan, p: Code, i: nat): CgT
    requires i <= |p|
    decreases i, 0
  {
    if i == 0 then CgT(AllocT(pl.start.stacks, pl.table, pl.start.lStack), Gen(0, []))
    else
      var g, saved := CgAtT(pl, p, i - 1).gen, SavedT(pl, p, i - 1);
      CgT(AfterT(pl, p[i - 1], i - 1, LoadedT(pl, p, i - 1), g, saved), Effect(saved, p[i - 1], g))
  }

  /** The registers in use at each opening, for the record of the calls. */
  function SavedByT(pl: Plan, p: Code): Busy
  {
    (i: nat) => if i < |p| then SavedT(pl, p, i) else []
  }

  /** The record of the pass is the generator's record for the registers it finds in use. */
  lemma {:induction false} RecordOfT(pl: Plan, p: Code, i: nat)
    requires i <= |p|
    ensures CgAtT(pl, p, i).gen == GenAt(SavedByT(pl, p), p, i)
  {
    hide Effect, AfterT, SavedT, LoadedT;
    if i > 0 {
      RecordOfT(pl, p, i - 1);
    }
  }

  // ----- what the pass asks of the table and writes to it -----

  type History = seq<Lookups.Use<string, Loc>>

  function AskUse(ranges: map<nat, Range>, S: Alloc, a: Addr): History
  {
    [Lookups.Ask(LabelOf(a))]
    + if LabelOf(a) in S.locs then []
      else StoredKeeps(ranges, S, a); [Lookups.Set(LabelOf(a), Stored(ranges, S, a).locs[LabelOf(a)])]
  }

  /** Every request is a question, followed by a write if the location is new. */
  function AskUses(ranges: map<nat, Range>, S: Alloc, addrs: seq<Addr>): History
  {
    if addrs == [] then []
    else AskUses(ranges, S, Front(addrs)) + AskUse(ranges, StoreAll(ranges, S, Front(addrs)), addrs[|addrs| - 1])
  }

  /** An argument's new place is written. */
  function PassUse(q: Quad, i: nat, S: Alloc, g: Gen): History
  {
    if !IsArg(q) || g.calls == [] || !q.arg1.ATemp? then []
    else
      var key := TempLabel(q.arg1.t);
      [Lookups.Set(key, Placed(S, key, Calls.Passed(TopCall(g)), i, 0).locs[key])]
  }

  /** All of this up to the quad at i. */
  function UsesAt(pl: Plan, p: Code, i: nat): History
    requires i <= |p|
  {
    if i == 0 then []
    else
      UsesAt(pl, p, i - 1) + AskUses(pl.ranges, CgAt(pl, p, i - 1).alloc, pl.asks(i - 1))
      + PassUse(p[i - 1], i - 1, Loaded(pl, p, i - 1), CgAt(pl, p, i - 1).gen)
  }

  // ----- the two passes side by side -----

  /** The table after a history that starts with the one given. */
  function TableOf(pl: Plan, h: History): Locs
  {
    Lookups.AfterT(pl.hash, pl.table, h)
  }

  function MapOf(pl: Plan, h: History): map<string, Loc>
  {
    Lookups.AfterM(pl.start.locs, h)
  }

  ghost predicate Right(pl: Plan, h: History)
  {
    Lookups.Answered(pl.hash, pl.table, pl.start.locs, h)
  }

  /** The same ranges and frame; the map and the table are those of the history so far. */
  ghost predicate Beside(pl: Plan, h: History, S: Alloc, S': AllocT)
  {
    S'.stacks == S.stacks && S'.lStack == S.lStack && S'.table == TableOf(pl, h) && S.locs == MapOf(pl, h)
  }

  /** The table finds what there is under this label. */
  predicate Same(pl: Plan, S: Alloc, S': AllocT, key: string)
  {
    HashMap.GetT(pl.hash, S'.table, key) == Lookups.Lookup(S.locs, key)
  }

  lemma Grown(pl: Plan, h: History, u: Lookups.Use<string, Loc>)
    ensures TableOf(pl, h + [u]) == if u.Set? then HashMap.PutT(pl.hash, TableOf(pl, h), u.key, u.val) else TableOf(pl, h)
    ensures MapOf(pl, h + [u]) == if u.Set? then MapOf(pl, h)[u.key := u.val] else MapOf(pl, h)
    ensures Right(pl, h + [u]) <==>
            Right(pl, h) && (u.Ask? ==> HashMap.GetT(pl.hash, TableOf(pl, h), u.key) == Lookups.Lookup(MapOf(pl, h), u.key))
  {
    hide Lookups.Answered, HashMap.PutT, HashMap.GetT;
    Lookups.Appended(pl.hash, pl.table, pl.start.locs, h, u);
    Lookups.AnsweredMore(pl.hash, pl.table, pl.start.locs, h, u);
  }

  /** The allocator's answer depends on the label's being there, and on nothing else of the locations. */
  lemma StoredAlone(ranges: map<nat, Range>, S: Alloc, S': AllocT, a: Addr)
    requires S'.stacks == S.stacks && S'.lStack == S.lStack && LabelOf(a) !in S.locs
    ensures var A, B := Stored(ranges, S, a), Stored(ranges, Bare(S'), a);
            && LabelOf(a) in A.locs && B.stacks == A.stacks && B.lStack == A.lStack && LabelOf(a) in B.locs
            && B.locs[LabelOf(a)] == A.locs[LabelOf(a)] && A.locs == S.locs[LabelOf(a) := A.locs[LabelOf(a)]]
  {
    hide Pick, Offset, TempLabel, Update;
  }

  /** One request. */
  lemma AskBeside(pl: Plan, h: History, S: Alloc, S': AllocT, a: Addr)
    requires Beside(pl, h, S, S')
    ensures var h' := h + AskUse(pl.ranges, S, a);
            && (Right(pl, h') <==> Right(pl, h) && Same(pl, S, S', LabelOf(a)))
            && (Right(pl, h') ==> Beside(pl, h', Stored(pl.ranges, S, a), StoredT(pl.hash, pl.ranges, S', a)))
  {
    hide Stored, TableOf, MapOf, Right, HashMap.GetT, HashMap.PutT, LabelOf;
    var key := LabelOf(a);
    Grown(pl, h, Lookups.Ask(key));
    if key in S.locs {
      assert AskUse(pl.ranges, S, a) == [Lookups.Ask(key)];
      assert Stored(pl.ranges, S, a) == S by { StoredPresent(pl.ranges, S, a); }
    } else {
      StoredKeeps(pl.ranges, S, a);
      var write := Lookups.Set(key, Stored(pl.ranges, S, a).locs[key]);
      assert h + AskUse(pl.ranges, S, a) == h + [Lookups.Ask(key)] + [write];
      Grown(pl, h + [Lookups.Ask(key)], write);
      StoredAlone(pl.ranges, S, S', a);
    }
  }

  lemma StoredPresent(ranges: map<nat, Range>, S: Alloc, a: Addr)
    requires LabelOf(a) in S.locs
    ensures Stored(ranges, S, a) == S
  {
  }

  /** What is looked up for the n-th request of a quad is what has been put there. */
  predicate SameAsk(pl: Plan, S: Alloc, S': AllocT, addrs: seq<Addr>, n: nat)
    requires n < |addrs|
  {
    Same(pl, StoreAll(pl.ranges, S, addrs[..n]), StoreAllT(pl.hash, pl.ranges, S', addrs[..n]), LabelOf(addrs[n]))
  }

  ghost predicate SameAsks(pl: Plan, S: Alloc, S': AllocT, addrs: seq<Addr>)
  {
    forall n: nat :: n < |addrs| ==> SameAsk(pl, S, S', addrs, n)
  }

  lemma SameAsksMore(pl: Plan, S: Alloc, S': AllocT, addrs: seq<Addr>)
    requires addrs != []
    ensures SameAsks(pl, S, S', addrs) <==> SameAsks(pl, S, S', Front(addrs)) && SameAsk(pl, S, S', addrs, |addrs| - 1)
  {
    hide Same, StoreAll, StoreAllT;
    var f := Front(addrs);
    forall n: nat | n < |f|
      ensures SameAsk(pl, S, S', addrs, n) == SameAsk(pl, S, S', f, n)
    {
      assert addrs[..n] == f[..n];
    }
    if SameAsks(pl, S, S', addrs) {
      forall n: nat | n < |f|
        ensures SameAsk(pl, S, S', f, n)
      {
        assert SameAsk(pl, S, S', addrs, n);
      }
    }
  }

  lemma {:induction false} AsksBeside(pl: Plan, h: History, S: Alloc, S': AllocT, addrs: seq<Addr>)
    requires Beside(pl, h, S, S')
    ensures var h' := h + AskUses(pl.ranges, S, addrs);
            && (Right(pl, h') <==> Right(pl, h) && SameAsks(pl, S, S', addrs))
            && (Right(pl, h') ==>
                  Beside(pl, h', StoreAll(pl.ranges, S, addrs), StoreAllT(pl.hash, pl.ranges, S', addrs)))
    decreases |addrs|
  {
    hide Beside, AskUse, Right, Same, Stored, StoredT;
    if addrs == [] {
      assert h + AskUses(pl.ranges, S, addrs) == h;
    } else {
      var f, a := Front(addrs), addrs[|addrs| - 1];
      var h1 := h + AskUses(pl.ranges, S, f);
      assert addrs[..|addrs| - 1] == f;
      AsksBeside(pl, h, S, S', f);
      SameAsksMore(pl, S, S', addrs);
      var S1, S1' := StoreAll(pl.ranges, S, f), StoreAllT(pl.hash, pl.ranges, S', f);
      assert h + AskUses(pl.ranges, S, addrs) == h1 + AskUse(pl.ranges, S1, a);
      if Right(pl, h1) {
        AskBeside(pl, h1, S1, S1', a);
      } else if Right(pl, h1 + AskUse(pl.ranges, S1, a)) {
        RightPrefix(pl, h1, AskUse(pl.ranges, S1, a));
      }
    }
  }

  lemma RightPrefix(pl: Plan, h: History, g: History)
    requires Right(pl, h + g)
    ensures Right(pl, h)
  {
    hide HashMap.GetT;
    forall n | 0 <= n < |h| && h[n].Ask?
      ensures HashMap.GetT(pl.hash, TableOf(pl, h[..n]), h[n].key) == Lookups.Lookup(MapOf(pl, h[..n]), h[n].key)
    {
      assert (h + g)[n] == h[n] && (h + g)[..n] == h[..n];
    }
  }

  /** What a quad does when its operands have been stored depends on ranges and frame only. */
  lemma AfterAlone(pl: Plan, q: Quad, i: nat, S: Alloc, S': AllocT, g: Gen, saved: seq<Reg>)
    requires S'.stacks == S.stacks && S'.lStack == S.lStack
    ensures var A, B := After(pl, q, i, S, g, saved), After(pl, q, i, Bare(S'), g, saved);
            && B.stacks == A.stacks && B.lStack == A.lStack
            && if PassUse(q, i, S, g) == [] then B.locs == map[] && A.locs == S.locs
               else
                 && PassUse(q, i, S, g) == [Lookups.Set(KeyOf(q), PassUse(q, i, S, g)[0].val)]
                 && B.locs == map[KeyOf(q) := PassUse(q, i, S, g)[0].val]
                 && A.locs == S.locs[KeyOf(q) := PassUse(q, i, S, g)[0].val]
  {
    hide MarkAll, Close, Brackets, TempLabel, Offset, Reserve;
  }

  lemma AfterBeside(pl: Plan, h: History, q: Quad, i: nat, S: Alloc, S': AllocT, g: Gen, saved: seq<Reg>)
    requires Beside(pl, h, S, S')
    ensures var h' := h + PassUse(q, i, S, g);
            && (Right(pl, h') <==> Right(pl, h))
            && Beside(pl, h', After(pl, q, i, S, g, saved), AfterT(pl, q, i, S', g, saved))
  {
    hide After, PassUse, TableOf, MapOf, Right, HashMap.PutT, KeyOf;
    AfterAlone(pl, q, i, S, S', g, saved);
    if PassUse(q, i, S, g) == [] {
      assert h + PassUse(q, i, S, g) == h;
    } else {
      Grown(pl, h, PassUse(q, i, S, g)[0]);
    }
  }

  /** Before the quad at i the two passes know the same. */
  ghost predicate Abreast(pl: Plan, p: Code, i: nat)
    requires i <= |p|
  {
    Beside(pl, UsesAt(pl, p, i), CgAt(pl, p, i).alloc, CgAtT(pl, p, i).alloc) && CgAtT(pl, p, i).gen == CgAt(pl, p, i).gen
  }

  function Midway(pl: Plan, p: Code, i: nat): History
    requires i < |p|
  {
    UsesAt(pl, p, i) + AskUses(pl.ranges, CgAt(pl, p, i).alloc, pl.asks(i))
  }

  ghost predicate AbreastLoaded(pl: Plan, p: Code, i: nat)
    requires i < |p|
  {
    Beside(pl, Midway(pl, p, i), Loaded(pl, p, i), LoadedT(pl, p, i))
  }

  /** Whatever the quad at i asks for, the table finds what there is. */
  ghost predicate FindsAt(pl: Plan, p: Code, i: nat)
    requires i < |p|
  {
    SameAsks(pl, CgAt(pl, p, i).alloc, CgAtT(pl, p, i).alloc, pl.asks(i))
  }

  lemma LoadLevel(pl: Plan, p: Code, i: nat)
    requires i < |p| && Abreast(pl, p, i)
    ensures Right(pl, Midway(pl, p, i)) <==> Right(pl, UsesAt(pl, p, i)) && FindsAt(pl, p, i)
    ensures Right(pl, Midway(pl, p, i)) ==> AbreastLoaded(pl, p, i)
  {
    hide Beside, AskUses, Right, SameAsks, CgAt, CgAtT, UsesAt;
    AsksBeside(pl, UsesAt(pl, p, i), CgAt(pl, p, i).alloc, CgAtT(pl, p, i).alloc, pl.asks(i));
  }

  // ----- requests lose nothing -----

  /** A request finds its label afterwards, and cuts nothing off: it writes only what is not there. */
  lemma StoredKeepsT(hash: Hash, ranges: map<nat, Range>, S: AllocT, a: Addr)
    requires HashMap.Placed(hash, S.table)
    ensures var S' := StoredT(hash, ranges, S, a);
            && HashMap.Placed(hash, S'.table) && HashMap.GetT(hash, S'.table, LabelOf(a)).Some?
            && forall x :: HashMap.GetT(hash, S.table, x).Some? ==>
                             HashMap.GetT(hash, S'.table, x) == HashMap.GetT(hash, S.table, x)
  {
    hide Stored, LabelOf, HashMap.GetT, HashMap.PutT, HashMap.Placed, Lookups.Cuts;
    if HashMap.GetT(hash, S.table, LabelOf(a)).None? {
      var A := Stored(ranges, Bare(S), a);
      GrantedNew(hash, ranges, S, a);
      Lookups.PutExactly(hash, S.table, LabelOf(a), A.locs[LabelOf(a)], LabelOf(a));
      forall x | HashMap.GetT(hash, S.table, x).Some?
        ensures HashMap.GetT(hash, StoredT(hash, ranges, S, a).table, x) == HashMap.GetT(hash, S.table, x)
      {
        Lookups.PutExactly(hash, S.table, LabelOf(a), A.locs[LabelOf(a)], x);
        if Lookups.Cuts(hash, S.table, LabelOf(a), x) {
          Lookups.CutWasThere(hash, S.table, LabelOf(a), x);
        }
      }
    }
  }

  lemma {:induction false} AllStoredT(hash: Hash, ranges: map<nat, Range>, S: AllocT, addrs: seq<Addr>)
    requires HashMap.Placed(hash, S.table)
    ensures var S' := StoreAllT(hash, ranges, S, addrs);
            && HashMap.Placed(hash, S'.table)
            && (forall a :: a in addrs ==> HashMap.GetT(hash, S'.table, LabelOf(a)).Some?)
            && forall x :: HashMap.GetT(hash, S.table, x).Some? ==>
                             HashMap.GetT(hash, S'.table, x) == HashMap.GetT(hash, S.table, x)
    decreases |addrs|
  {
    hide StoredT, LabelOf, HashMap.GetT, HashMap.Placed;
    if addrs != [] {
      AllStoredT(hash, ranges, S, Front(addrs));
      StoredKeepsT(hash, ranges, StoreAllT(hash, ranges, S, Front(addrs)), addrs[|addrs| - 1]);
      assert addrs == Front(addrs) + [addrs[|addrs| - 1]];
    }
  }

  /** The table holds what the pass starts with. */
  ghost predicate Stocked(pl: Plan)
  {
    HashMap.Refines(pl.hash, pl.table, pl.start.locs)
  }

  /** What is found is what there is. */
  lemma FoundIsThere(pl: Plan, h: History, key: string)
    requires Stocked(pl)
    ensures HashMap.Placed(pl.hash, TableOf(pl, h))
    ensures HashMap.GetT(pl.hash, TableOf(pl, h), key).Some? ==>
              HashMap.GetT(pl.hash, TableOf(pl, h), key) == Lookups.Lookup(MapOf(pl, h), key)
  {
    hide HashMap.GetT, HashMap.Placed, HashMap.Exact;
    Lookups.StartPartial(pl.hash, pl.table, pl.start.locs);
    Lookups.AlwaysPartial(pl.hash, pl.table, pl.start.locs, h);
  }

  /** When the operands of a quad have been stored, the table finds each of them where it is. */
  lemma OperandsFound(pl: Plan, p: Code, i: nat, a: Addr)
    requires i < |p| && Stocked(pl) && Abreast(pl, p, i) && AbreastLoaded(pl, p, i) && a in pl.asks(i)
    ensures Same(pl, Loaded(pl, p, i), LoadedT(pl, p, i), LabelOf(a))
  {
    hide Stocked, Loaded, CgAt, CgAtT, UsesAt, Midway, TableOf, MapOf, HashMap.GetT, HashMap.Placed, LabelOf, StoreAllT;
    FoundIsThere(pl, UsesAt(pl, p, i), LabelOf(a));
    AllStoredT(pl.hash, pl.ranges, CgAtT(pl, p, i).alloc, pl.asks(i));
    assert HashMap.GetT(pl.hash, LoadedT(pl, p, i).table, LabelOf(a)).Some?;
    FoundIsThere(pl, Midway(pl, p, i), LabelOf(a));
  }

  lemma TempFound(pl: Plan, p: Code, i: nat, t: nat)
    requires i < |p| && Stocked(pl) && Abreast(pl, p, i) && AbreastLoaded(pl, p, i) && Asks(p, pl.asks)
    requires Mentions(p[i], ATemp(t))
    ensures LocOfT(pl.hash, LoadedT(pl, p, i), t) == LocOf(Loaded(pl, p, i), t)
  {
    hide Abreast, AbreastLoaded, Stocked, Loaded, LoadedT, HashMap.GetT, TempLabel, GoodAsk;
    var a :| a in pl.asks(i) && a.Cgt? && a.t == t;
    OperandsFound(pl, p, i, a);
  }

  /** The same registers are saved. */
  lemma SameSavedT(pl: Plan, p: Code, i: nat)
    requires i < |p| && Stocked(pl) && Abreast(pl, p, i) && AbreastLoaded(pl, p, i) && Asks(p, pl.asks)
    ensures SavedT(pl, p, i) == SavedAt(pl, p, i)
  {
    hide Loaded, LoadedT, Abreast, Midway, BusyRegs, TableOf, MapOf, LocOf, LocOfT, Asks, Stocked;
    if IsHint(p[i]) && p[i].res.ATemp? {
      TempFound(pl, p, i, p[i].res.t);
    }
  }

  // ----- exactly when the table finds everything -----

  lemma NextLevel(pl: Plan, p: Code, i: nat)
    requires i < |p| && Stocked(pl) && Abreast(pl, p, i) && AbreastLoaded(pl, p, i) && Asks(p, pl.asks)
    ensures Abreast(pl, p, i + 1) && (Right(pl, UsesAt(pl, p, i + 1)) <==> Right(pl, Midway(pl, p, i)))
  {
    hide Loaded, LoadedT, Beside, After, AfterT, Effect, SavedAt, SavedT, Right, Asks, Stocked, AskUses, PassUse;
    SameSavedT(pl, p, i);
    AfterBeside(pl, Midway(pl, p, i), p[i], i, Loaded(pl, p, i), LoadedT(pl, p, i), CgAt(pl, p, i).gen, SavedAt(pl, p, i));
    assert UsesAt(pl, p, i + 1) == Midway(pl, p, i) + PassUse(p[i], i, Loaded(pl, p, i), CgAt(pl, p, i).gen);
  }

  lemma {:induction false} PassLevel(pl: Plan, p: Code, i: nat)
    requires Stocked(pl) && Asks(p, pl.asks) && i <= |p|
    ensures Right(pl, UsesAt(pl, p, i)) <==> forall j: nat :: j < i ==> FindsAt(pl, p, j)
    ensures Right(pl, UsesAt(pl, p, i)) ==> Abreast(pl, p, i)
  {
    hide FindsAt, Abreast, AbreastLoaded, Right, Asks, Stocked, CgAt, CgAtT, Midway, AskUses, PassUse, Loaded, LoadedT;
    if i == 0 {
      FirstLevel(pl, p);
    } else {
      PassLevel(pl, p, i - 1);
      var more := PassUse(p[i - 1], i - 1, Loaded(pl, p, i - 1), CgAt(pl, p, i - 1).gen);
      assert UsesAt(pl, p, i) == Midway(pl, p, i - 1) + more by { MidwayMore(pl, p, i - 1); }
      if Right(pl, UsesAt(pl, p, i - 1)) {
        LoadLevel(pl, p, i - 1);
        if Right(pl, Midway(pl, p, i - 1)) {
          NextLevel(pl, p, i - 1);
        }
      }
      if Right(pl, UsesAt(pl, p, i)) {
        RightPrefix(pl, Midway(pl, p, i - 1), more);
        RightMidway(pl, p, i - 1);
      }
    }
  }

  lemma MidwayMore(pl: Plan, p: Code, i: nat)
    requires i < |p|
    ensures UsesAt(pl, p, i + 1) == Midway(pl, p, i) + PassUse(p[i], i, Loaded(pl, p, i), CgAt(pl, p, i).gen)
  {
    hide AskUses, PassUse, CgAt, Loaded;
  }

  lemma RightMidway(pl: Plan, p: Code, i: nat)
    requires i < |p| && Right(pl, Midway(pl, p, i))
    ensures Right(pl, UsesAt(pl, p, i))
  {
    hide AskUses, Right, CgAt, UsesAt;
    RightPrefix(pl, UsesAt(pl, p, i), AskUses(pl.ranges, CgAt(pl, p, i).alloc, pl.asks(i)));
  }

  lemma FirstLevel(pl: Plan, p: Code)
    requires Stocked(pl)
    ensures Right(pl, UsesAt(pl, p, 0)) && Abreast(pl, p, 0)
  {
    hide HashMap.Refines;
  }

  /** No write over an argument's label cuts off a label that is asked for before it is written again: checked where
      it is cut, in the table as rehashing has left it. */
  ghost predicate NothingCut(pl: Plan, p: Code)
  {
    Lookups.Safe(pl.hash, pl.table, UsesAt(pl, p, |p|))
  }

  /** Over a whole procedure every lookup in the hash map finds what has been put there if and only if nothing that
      is asked for again is cut off. */
  lemma PassExact(pl: Plan, p: Code)
    requires Stocked(pl) && Asks(p, pl.asks)
    ensures (forall i: nat :: i < |p| ==> FindsAt(pl, p, i)) <==> NothingCut(pl, p)
  {
    hide FindsAt, Abreast, Asks, UsesAt, HashMap.Refines, Lookups.Answered, Lookups.Safe;
    PassLevel(pl, p, |p|);
    Lookups.AnswersExact(pl.hash, pl.table, pl.start.locs, UsesAt(pl, p, |p|));
  }

  /** Then the pass goes as if no location were ever lost: the same ranges and frame, the same registers saved, the
      same record, and every operand where it is. */
  lemma PassFinds(pl: Plan, p: Code, i: nat)
    requires Stocked(pl) && Asks(p, pl.asks) && NothingCut(pl, p) && i < |p|
    ensures LoadedT(pl, p, i).stacks == Loaded(pl, p, i).stacks && LoadedT(pl, p, i).lStack == Loaded(pl, p, i).lStack
    ensures SavedT(pl, p, i) == SavedAt(pl, p, i) && CgAtT(pl, p, i).gen == CgAt(pl, p, i).gen
    ensures forall a :: a in pl.asks(i) ==> Same(pl, Loaded(pl, p, i), LoadedT(pl, p, i), LabelOf(a))
    ensures forall t: nat :: Mentions(p[i], ATemp(t)) ==> LocOfT(pl.hash, LoadedT(pl, p, i), t) == LocOf(Loaded(pl, p, i), t)
    ensures forall x :: HashMap.GetT(pl.hash, LoadedT(pl, p, i).table, x).Some? ==> Same(pl, Loaded(pl, p, i), LoadedT(pl, p, i), x)
  {
    hide FindsAt, Asks, UsesAt, Stocked, Right, Loaded, LoadedT, CgAt, CgAtT, SavedAt, SavedT, NothingCut, Midway, LabelOf, LocOf,
         LocOfT, Same, Mentions;
    PassExact(pl, p);
    PassLevel(pl, p, i);
    LoadLevel(pl, p, i);
    SameSavedT(pl, p, i);
    forall a | a in pl.asks(i)
      ensures Same(pl, Loaded(pl, p, i), LoadedT(pl, p, i), LabelOf(a))
    {
      OperandsFound(pl, p, i, a);
    }
    forall t: nat | Mentions(p[i], ATemp(t))
      ensures LocOfT(pl.hash, LoadedT(pl, p, i), t) == LocOf(Loaded(pl, p, i), t)
    {
      TempFound(pl, p, i, t);
    }
    forall x | HashMap.GetT(pl.hash, LoadedT(pl, p, i).table, x).Some?
      ensures Same(pl, Loaded(pl, p, i), LoadedT(pl, p, i), x)
    {
      LoadedFound(pl, p, i, x);
    }
  }

  lemma LoadedFound(pl: Plan, p: Code, i: nat, x: string)
    requires i < |p| && Stocked(pl) && AbreastLoaded(pl, p, i) && HashMap.GetT(pl.hash, LoadedT(pl, p, i).table, x).Some?
    ensures Same(pl, Loaded(pl, p, i), LoadedT(pl, p, i), x)
  {
    hide Stocked, Loaded, LoadedT, Midway, TableOf, MapOf, HashMap.GetT, HashMap.Placed;
    FoundIsThere(pl, Midway(pl, p, i), x);
  }
}
