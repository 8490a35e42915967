/** When nothing that is asked for again is cut off: while the table does not grow between an argument's first mention
    and the quad that passes it, what stands behind its label belongs to the argument's own code. */
module CallLabels {
  import opened Ast
  import opened Quads
  import opened Liveness
  import opened LiveRanges
  import opened Nests
  import opened RegAlloc
  import opened Frames
  import opened Calls
  import opened CallSim
  import opened CallAlloc
  import opened CallTable
  import HashMap
  import Lookups

  // ----- capacities -----

  /** Putting never shrinks the table, and a rehash makes it larger. */
  lemma {:induction false} PutGrows<K, V>(hash: K -> nat, t: HashMap.Table<K, V>, k: K, v: V)
    requires HashMap.Shaped(t) && t.cap >= 2
    ensures HashMap.PutT(hash, t, k, v).cap >= t.cap
    ensures HashMap.NeedsRehash(t) ==> HashMap.PutT(hash, t, k, v).cap > t.cap
    decreases HashMap.Count(t), 1
  {
    if HashMap.NeedsRehash(t) {
      RefillGrows(hash, HashMap.Grown(t.cap), HashMap.Entries(t.buckets));
    }
  }

  lemma {:induction false} RefillGrows<K, V>(hash: K -> nat, cap: nat, es: HashMap.Chain<K, V>)
    requires cap >= 2
    ensures HashMap.Refill(hash, cap, es).cap >= cap
    decreases |es|, 0
  {
    hide HashMap.PutT;
    if es != [] {
      var n := |es| - 1;
      RefillGrows(hash, cap, es[..n]);
      PutGrows(hash, HashMap.Refill(hash, cap, es[..n]), es[n].0, es[n].1);
    }
  }

  // ----- which labels there are -----

  ghost predicate AskedAt(pl: Plan, j: nat, x: string)
  {
    exists a :: a in pl.asks(j) && LabelOf(a) == x
  }

  /** There at the start, or asked for before the quad at i. */
  ghost predicate KnownLabel(pl: Plan, x: string, i: nat)
  {
    x in pl.start.locs || exists j: nat :: j < i && AskedAt(pl, j, x)
  }

  lemma {:induction false} AllLabels(ranges: map<nat, Range>, S: Alloc, addrs: seq<Addr>)
    ensures forall x :: x in StoreAll(ranges, S, addrs).locs <==> x in S.locs || exists a :: a in addrs && LabelOf(a) == x
  {
    hide Stored, LabelOf;
    if addrs != [] {
      var a := addrs[|addrs| - 1];
      AllLabels(ranges, S, Front(addrs));
      StoredKeeps(ranges, StoreAll(ranges, S, Front(addrs)), a);
      assert addrs == Front(addrs) + [a];
    }
  }

  lemma AfterLabels(pl: Plan, p: Code, i: nat)
    requires i < |p| && Asks(p, pl.asks)
    ensures forall x :: x in CgAt(pl, p, i + 1).alloc.locs <==> x in Loaded(pl, p, i).locs
  {
    hide StoreAll, TempLabel, MarkAll, Close, Brackets, SavedAt, GoodAsk;
    AllStored(pl.ranges, CgAt(pl, p, i).alloc, pl.asks(i));
    if IsArg(p[i]) && p[i].arg1.ATemp? {
      assert Mentions(p[i], p[i].arg1);
      var a :| a in pl.asks(i) && a.Cgt? && a.t == p[i].arg1.t;
      assert LabelOf(a) in Loaded(pl, p, i).locs;
    }
  }

  lemma {:induction false} LabelsKnown(pl: Plan, p: Code, i: nat)
    requires i <= |p| && Asks(p, pl.asks)
    ensures forall x :: x in CgAt(pl, p, i).alloc.locs <==> KnownLabel(pl, x, i)
    ensures i < |p| ==> forall x :: x in Loaded(pl, p, i).locs <==> KnownLabel(pl, x, i + 1)
  {
    hide StoreAll, Asks, CgAt, Loaded, AskedAt;
    if i == 0 {
      assert CgAt(pl, p, 0).alloc == pl.start by { StartAlloc(pl, p); }
      assert forall x :: x in CgAt(pl, p, i).alloc.locs <==> KnownLabel(pl, x, i);
    } else {
      LabelsKnown(pl, p, i - 1);
      AfterLabels(pl, p, i - 1);
      assert forall x :: x in Loaded(pl, p, i - 1).locs <==> KnownLabel(pl, x, i);
      assert forall x :: x in CgAt(pl, p, i).alloc.locs <==> KnownLabel(pl, x, i);
    }
    if i < |p| {
      LoadedKnown(pl, p, i);
    }
  }

  lemma LoadedKnown(pl: Plan, p: Code, i: nat)
    requires i < |p| && forall x :: x in CgAt(pl, p, i).alloc.locs <==> KnownLabel(pl, x, i)
    ensures forall x :: x in Loaded(pl, p, i).locs <==> KnownLabel(pl, x, i + 1)
  {
    hide StoreAll, CgAt, KnownLabel, LabelOf;
    AllLabels(pl.ranges, CgAt(pl, p, i).alloc, pl.asks(i));
    forall x
      ensures x in Loaded(pl, p, i).locs <==> KnownLabel(pl, x, i + 1)
    {
      KnownNext(pl, x, i);
      assert KnownLabel(pl, x, i) <==> x in CgAt(pl, p, i).alloc.locs;
      assert x in Loaded(pl, p, i).locs <==> x in CgAt(pl, p, i).alloc.locs || AskedAt(pl, i, x);
    }
  }

  lemma KnownNext(pl: Plan, x: string, i: nat)
    ensures KnownLabel(pl, x, i + 1) <==> KnownLabel(pl, x, i) || AskedAt(pl, i, x)
  {
    hide AskedAt;
    if AskedAt(pl, i, x) {
      assert i < i + 1 && AskedAt(pl, i, x);
    }
  }

  lemma StartAlloc(pl: Plan, p: Code)
    ensures CgAt(pl, p, 0).alloc == pl.start
  {
  }

  // ----- what the table has lost, and in which order it was filled -----

  /** From the quad at i on nobody asks for it. */
  ghost predicate Over(pl: Plan, p: Code, x: string, i: nat)
  {
    forall j: nat :: i <= j < |p| ==> !AskedAt(pl, j, x)
  }

  ghost predicate LostIsOver(pl: Plan, p: Code, S: Alloc, t: Locs, i: nat)
  {
    forall x :: x in S.locs && HashMap.GetT(pl.hash, t, x).None? ==> Over(pl, p, x, i)
  }

  function CapAt(pl: Plan, p: Code, i: nat): nat
    requires i <= |p|
  {
    CgAtT(pl, p, i).alloc.table.cap
  }

  /** The table keeps its size while the quads from s up to i are generated. */
  ghost predicate CalmSince(pl: Plan, p: Code, s: nat, i: nat)
  {
    forall j: nat :: s <= j < i && j < |p| ==> CapAt(pl, p, j + 1) == CapAt(pl, p, j)
  }

  /** Behind the label of a temporary stand only labels that were not known when it was first mentioned, as long as
      the table has not grown since. */
  ghost predicate Queued(pl: Plan, p: Code, t: Locs, i: nat)
  {
    forall u: nat, x :: (u in pl.ranges && CalmSince(pl, p, pl.ranges[u].starts, i)
                         && Lookups.SameChain(pl.hash, t, TempLabel(u), x)) ==> !KnownLabel(pl, x, pl.ranges[u].starts)
  }

  /** The table does not grow between the first mention of an argument and the quad that passes it. */
  ghost predicate CalmFor(pl: Plan, p: Code, i: nat)
    requires i < |p|
  {
    IsArg(p[i]) && p[i].arg1.ATemp? && p[i].arg1.t in pl.ranges ==> CalmSince(pl, p, pl.ranges[p[i].arg1.t].starts, i + 1)
  }

  ghost predicate Calm(pl: Plan, p: Code)
  {
    forall i: nat :: i < |p| ==> CalmFor(pl, p, i)
  }

  /** A name that is used inside a call is there at the start, or was asked for outside of all calls before. */
  ghost predicate NamesFirst(pl: Plan, p: Code)
  {
    forall i: nat, a :: i < |p| && a in pl.asks(i) && a.Var? && OpenAt(p, i) != [] ==>
                          a.name in pl.start.locs || exists j: nat :: j < i && OpenAt(p, j) == [] && AskedAt(pl, j, a.name)
  }

  /** What is found is there. */
  ghost predicate Has(pl: Plan, S: Alloc, t: Locs)
  {
    HashMap.Placed(pl.hash, t) && forall x :: HashMap.GetT(pl.hash, t, x).Some? ==> x in S.locs
  }

  // ----- requests -----

  lemma ChainMember(hash: Hash, t: Locs, k: string, x: string)
    requires HashMap.Placed(hash, t) && Lookups.SameChain(hash, t, k, x)
    ensures HashMap.GetT(hash, t, k).Some?
  {
    HashMap.FindSome(t.buckets[hash(k) % t.cap], k);
  }

  /** A label that is asked for is not lost, so that a label is put only if it is new. */
  lemma NotLost(pl: Plan, p: Code, S: Alloc, t: Locs, i: nat, a: Addr)
    requires i < |p| && LostIsOver(pl, p, S, t, i) && a in pl.asks(i)
    ensures LabelOf(a) in S.locs ==> HashMap.GetT(pl.hash, t, LabelOf(a)).Some?
  {
    hide HashMap.GetT, LabelOf;
    assert AskedAt(pl, i, LabelOf(a));
  }

  lemma AskHas(pl: Plan, p: Code, S: Alloc, S': AllocT, i: nat, a: Addr)
    requires i < |p| && Has(pl, S, S'.table) && LostIsOver(pl, p, S, S'.table, i) && a in pl.asks(i)
    ensures var A, B := Stored(pl.ranges, S, a), StoredT(pl.hash, pl.ranges, S', a);
            Has(pl, A, B.table) && LostIsOver(pl, p, A, B.table, i)
  {
    hide Stored, LabelOf, HashMap.GetT, HashMap.PutT, HashMap.Placed, Over, Lookups.Cuts;
    var A, B := Stored(pl.ranges, S, a), StoredT(pl.hash, pl.ranges, S', a);
    StoredKeeps(pl.ranges, S, a);
    StoredKeepsT(pl.hash, pl.ranges, S', a);
    if HashMap.GetT(pl.hash, S'.table, LabelOf(a)).None? {
      GrantedNew(pl.hash, pl.ranges, S', a);
      var v := Stored(pl.ranges, Bare(S'), a).locs[LabelOf(a)];
      forall x | HashMap.GetT(pl.hash, B.table, x).Some?
        ensures x in A.locs
      {
        Lookups.PutExactly(pl.hash, S'.table, LabelOf(a), v, x);
      }
    }
  }

  /** If the table does not grow, the new label goes behind labels that were known before. */
  lemma AskQueued(pl: Plan, p: Code, S: Alloc, S': AllocT, i: nat, a: Addr)
    requires i < |p| && Has(pl, S, S'.table) && LostIsOver(pl, p, S, S'.table, i) && a in pl.asks(i)
    requires Queued(pl, p, S'.table, i) && StoredT(pl.hash, pl.ranges, S', a).table.cap == S'.table.cap >= 2
    requires forall x :: KnownLabel(pl, x, i) ==> x in S.locs
    requires forall u: nat :: TempLabel(u) in S.locs && u in pl.ranges ==> pl.ranges[u].starts <= i
    ensures Queued(pl, p, StoredT(pl.hash, pl.ranges, S', a).table, i)
  {
    hide Stored, LabelOf, HashMap.GetT, HashMap.PutT, HashMap.Placed, Lookups.SameChain, CalmSince, TempLabel, AskedAt;
    var t, t', key := S'.table, StoredT(pl.hash, pl.ranges, S', a).table, LabelOf(a);
    if HashMap.GetT(pl.hash, t, key).None? {
      GrantedNew(pl.hash, pl.ranges, S', a);
      var v := Stored(pl.ranges, Bare(S'), a).locs[key];
      PutGrows(pl.hash, t, key, v);
      HashMap.PutParts(pl.hash, t, key, v);
      NotLost(pl, p, S, t, i, a);
      forall u: nat, x | u in pl.ranges && CalmSince(pl, p, pl.ranges[u].starts, i) && Lookups.SameChain(pl.hash, t', TempLabel(u), x)
        ensures !KnownLabel(pl, x, pl.ranges[u].starts)
      {
        Lookups.WriteBehind(pl.hash, t, key, v, TempLabel(u), x);
        if !Lookups.SameChain(pl.hash, t, TempLabel(u), x) {
          assert TempLabel(u) in S.locs && x !in S.locs;
          KnownEarlier(pl, x, pl.ranges[u].starts, i);
        }
      }
    }
  }

  lemma KnownEarlier(pl: Plan, x: string, s: nat, i: nat)
    requires s <= i
    ensures KnownLabel(pl, x, s) ==> KnownLabel(pl, x, i)
  {
  }

  /** Nothing the quad asks for is lost, and while its requests are granted nothing gets lost. */
  lemma {:induction false} AsksFiled(pl: Plan, p: Code, h: History, S: Alloc, S': AllocT, i: nat, addrs: seq<Addr>)
    requires i < |p| && Stocked(pl) && Beside(pl, h, S, S') && Right(pl, h) && (forall a :: a in addrs ==> a in pl.asks(i))
    requires Has(pl, S, S'.table) && LostIsOver(pl, p, S, S'.table, i)
    ensures SameAsks(pl, S, S', addrs)
    ensures var A, B := StoreAll(pl.ranges, S, addrs), StoreAllT(pl.hash, pl.ranges, S', addrs);
            Has(pl, A, B.table) && LostIsOver(pl, p, A, B.table, i)
    decreases |addrs|
  {
    hide Beside, Right, Stocked, Has, LostIsOver, Stored, StoredT, SameAsk, AskUses;
    if addrs == [] {
      assert SameAsks(pl, S, S', addrs);
    } else {
      var f, a := Front(addrs), addrs[|addrs| - 1];
      assert addrs == f + [a];
      AsksFiled(pl, p, h, S, S', i, f);
      AsksBeside(pl, h, S, S', f);
      var A, B := StoreAll(pl.ranges, S, f), StoreAllT(pl.hash, pl.ranges, S', f);
      LookedUp(pl, p, h + AskUses(pl.ranges, S, f), A, B, i, a);
      assert SameAsk(pl, S, S', addrs, |addrs| - 1) by { LastAsk(pl, S, S', addrs); }
      SameAsksMore(pl, S, S', addrs);
      AskHas(pl, p, A, B, i, a);
    }
  }

  lemma LastAsk(pl: Plan, S: Alloc, S': AllocT, addrs: seq<Addr>)
    requires addrs != []
    requires var f := Front(addrs);
             Same(pl, StoreAll(pl.ranges, S, f), StoreAllT(pl.hash, pl.ranges, S', f), LabelOf(addrs[|addrs| - 1]))
    ensures SameAsk(pl, S, S', addrs, |addrs| - 1)
  {
    hide Same, StoreAll, StoreAllT;
    assert addrs[..|addrs| - 1] == Front(addrs);
  }

  lemma LookedUp(pl: Plan, p: Code, h: History, S: Alloc, S': AllocT, i: nat, a: Addr)
    requires i < |p| && Stocked(pl) && Beside(pl, h, S, S') && LostIsOver(pl, p, S, S'.table, i) && a in pl.asks(i)
    ensures Same(pl, S, S', LabelOf(a))
  {
    hide Stocked, LostIsOver, HashMap.GetT, HashMap.Placed, LabelOf, TableOf, MapOf;
    NotLost(pl, p, S, S'.table, i, a);
    FoundIsThere(pl, h, LabelOf(a));
  }

  /** Putting what is not there does not make a table smaller. */
  lemma StoredCap(hash: Hash, ranges: map<nat, Range>, S: AllocT, a: Addr)
    requires S.table.cap >= 2
    ensures StoredT(hash, ranges, S, a).table.cap >= S.table.cap
  {
    hide Stored, LabelOf, HashMap.GetT, HashMap.PutT;
    if HashMap.GetT(hash, S.table, LabelOf(a)).None? {
      StoredKeeps(ranges, Bare(S), a);
      PutGrows(hash, S.table, LabelOf(a), Stored(ranges, Bare(S), a).locs[LabelOf(a)]);
    }
  }

  lemma {:induction false} StoredAllCap(hash: Hash, ranges: map<nat, Range>, S: AllocT, addrs: seq<Addr>)
    requires S.table.cap >= 2
    ensures StoreAllT(hash, ranges, S, addrs).table.cap >= S.table.cap
    decreases |addrs|
  {
    hide StoredT;
    if addrs != [] {
      StoredAllCap(hash, ranges, S, Front(addrs));
      StoredCap(hash, ranges, StoreAllT(hash, ranges, S, Front(addrs)), addrs[|addrs| - 1]);
    }
  }

  lemma {:induction false} AsksQueued(pl: Plan, p: Code, S: Alloc, S': AllocT, i: nat, addrs: seq<Addr>)
    requires i < |p| && (forall a :: a in addrs ==> a in pl.asks(i) && GoodAsk(p[i], a)) && RangesOf(p, pl.ranges)
    requires Has(pl, S, S'.table) && LostIsOver(pl, p, S, S'.table, i) && Queued(pl, p, S'.table, i)
    requires StoreAllT(pl.hash, pl.ranges, S', addrs).table.cap == S'.table.cap >= 2
    requires forall x :: KnownLabel(pl, x, i) ==> x in S.locs
    requires forall u: nat :: TempLabel(u) in S.locs && u in pl.ranges ==> pl.ranges[u].starts <= i
    ensures var A, B := StoreAll(pl.ranges, S, addrs), StoreAllT(pl.hash, pl.ranges, S', addrs);
            Has(pl, A, B.table) && LostIsOver(pl, p, A, B.table, i) && Queued(pl, p, B.table, i)
    decreases |addrs|
  {
    hide Queued, Has, LostIsOver, Stored, StoredT, KnownLabel, GoodAsk, RangesOf, TempLabel;
    if addrs != [] {
      var f, a := Front(addrs), addrs[|addrs| - 1];
      var A, B := StoreAll(pl.ranges, S, f), StoreAllT(pl.hash, pl.ranges, S', f);
      assert addrs == f + [a];
      StoredAllCap(pl.hash, pl.ranges, S', f);
      StoredCap(pl.hash, pl.ranges, B, a);
      AsksQueued(pl, p, S, S', i, f);
      AllStored(pl.ranges, S, f);
      forall u: nat | TempLabel(u) in A.locs && u in pl.ranges
        ensures pl.ranges[u].starts <= i
      {
        AllLabels(pl.ranges, S, f);
        if TempLabel(u) !in S.locs {
          var b :| b in f && LabelOf(b) == TempLabel(u);
          AskStarts(pl, p, i, b, u);
        }
      }
      AskHas(pl, p, A, B, i, a);
      AskQueued(pl, p, A, B, i, a);
    }
  }

  lemma AskStarts(pl: Plan, p: Code, i: nat, a: Addr, u: nat)
    requires i < |p| && GoodAsk(p[i], a) && LabelOf(a) == TempLabel(u) && RangesOf(p, pl.ranges)
    ensures Mentions(p[i], ATemp(u)) && u in pl.ranges && pl.ranges[u].starts <= i <= pl.ranges[u].ends
  {
    hide RangesOf, TempLabel;
    if a.Cgt? {
      TempLabelUnique(a.t, u);
      MentionRange(p, pl.ranges, i, u);
    }
  }

  // ----- the quad that passes an argument -----

  /** What stands behind the label of an argument when it is passed is over. */
  lemma BehindIsOver(pl: Plan, p: Code, home: Homes, spot: Spots, i: nat, u: nat, x: string)
    requires i < |p| && IsArg(p[i]) && p[i].arg1 == ATemp(u) && u in pl.ranges
    requires RangesOf(p, pl.ranges) && Asks(p, pl.asks) && Framed(p, home) && Spotted(p, spot) && NamesFirst(pl, p)
    requires !KnownLabel(pl, x, pl.ranges[u].starts) && KnownLabel(pl, x, i + 1)
    ensures Over(pl, p, x, i + 1)
  {
    hide Framed, Spotted, NamesFirst, Asks, RangesOf, TempLabel, GoodAsk, KnownLabel, AskedAt;
    var s := pl.ranges[u].starts;
    assert Mentions(p[i], ATemp(u));
    MentionRange(p, pl.ranges, i, u);
    FirstThere(p, pl.ranges, u);
    OrderlyAt(p, home, i);
    var j := AskedBetween(pl, x, s, i + 1);
    var a := AskerOf(pl, p, j, x);
    if a.Cgt? {
      TempIsOver(pl, p, home, spot, s, i, u, x, j, a.t);
    } else {
      NameIsKnown(pl, p, spot, s, i, u, j, a);
      assert false;
    }
  }

  lemma FirstThere(p: Code, ranges: map<nat, Range>, u: nat)
    requires RangesOf(p, ranges) && u in ranges
    ensures ranges[u].starts < |p| && Mentions(p[ranges[u].starts], ATemp(u))
  {
    assert Spans(p, |p|, TempKey(u), RangeOf(ranges, u));
  }

  lemma OrderlyAt(p: Code, home: Homes, i: nat)
    requires Framed(p, home) && i < |p| && NeedsCall(p[i])
    ensures OpenAt(p, i) != []
  {
    hide Housed, NestAt;
    assert Orderly(p, i);
  }

  lemma AskedBetween(pl: Plan, x: string, s: nat, n: nat) returns (j: nat)
    requires !KnownLabel(pl, x, s) && KnownLabel(pl, x, n)
    ensures s <= j < n && AskedAt(pl, j, x)
  {
    hide AskedAt;
    j :| j < n && AskedAt(pl, j, x);
  }

  lemma AskerOf(pl: Plan, p: Code, j: nat, x: string) returns (a: Addr)
    requires AskedAt(pl, j, x) && j < |p| && Asks(p, pl.asks)
    ensures a in pl.asks(j) && LabelOf(a) == x && GoodAsk(p[j], a)
  {
    hide GoodAsk, LabelOf;
    a :| a in pl.asks(j) && LabelOf(a) == x;
  }

  /** The label of a temporary is asked for where the temporary is mentioned. */
  lemma AskedIsMentioned(pl: Plan, p: Code, j: nat, t: nat)
    requires AskedAt(pl, j, TempLabel(t)) && j < |p| && Asks(p, pl.asks)
    ensures Mentions(p[j], ATemp(t))
  {
    hide TempLabel, Asks;
    var a := AskerOf(pl, p, j, TempLabel(t));
    if a.Cgt? {
      TempLabelUnique(a.t, t);
    }
  }

  lemma TempIsOver(pl: Plan, p: Code, home: Homes, spot: Spots, s: nat, i: nat, u: nat, x: string, j: nat, t: nat)
    requires s <= j <= i < |p| && IsArg(p[i]) && p[i].arg1 == ATemp(u) && OpenAt(p, i) != [] && Mentions(p[s], ATemp(u))
    requires Asks(p, pl.asks) && Framed(p, home) && Spotted(p, spot)
    requires x == TempLabel(t) && !KnownLabel(pl, x, s) && AskedAt(pl, j, x)
    ensures Over(pl, p, x, i + 1)
  {
    hide Framed, Spotted, Asks, TempLabel, AskedAt, NestAt;
    AskedIsMentioned(pl, p, j, t);
    var k := j;
    if IsCall(p[j]) && p[j].res == ATemp(t) {
      k := HintOf(p, home, j, t);
      MentionedIsAsked(pl, p, k, t);
      assert k >= s;
    }
    forall m: nat | i + 1 <= m < |p|
      ensures !AskedAt(pl, m, x)
    {
      InsideArgument(p, spot, s, k, i, u, t, m);
      if AskedAt(pl, m, x) {
        AskedIsMentioned(pl, p, m, t);
      }
    }
  }

  lemma MentionedIsAsked(pl: Plan, p: Code, j: nat, t: nat)
    requires j < |p| && Asks(p, pl.asks) && Mentions(p[j], ATemp(t))
    ensures AskedAt(pl, j, TempLabel(t))
  {
    hide TempLabel, GoodAsk;
    var a :| a in pl.asks(j) && a.Cgt? && a.t == t;
    assert LabelOf(a) == TempLabel(t);
  }

  /** The opening of a call mentions its result. */
  lemma HintOf(p: Code, home: Homes, i: nat, t: nat) returns (j: nat)
    requires i < |p| && Framed(p, home) && IsCall(p[i]) && p[i].res == ATemp(t)
    ensures j < i && IsHint(p[j]) && Mentions(p[j], ATemp(t))
  {
    hide NestAt, LastMention, SameCalls, Housed;
    assert Orderly(p, i);
    j := OpeningHinted(p, i, |OpenAt(p, i)| - 1);
  }

  /** A name first asked for inside an argument's code would have been known before. */
  lemma NameIsKnown(pl: Plan, p: Code, spot: Spots, s: nat, i: nat, u: nat, j: nat, a: Addr)
    requires s <= j <= i < |p| && IsArg(p[i]) && p[i].arg1 == ATemp(u) && OpenAt(p, i) != [] && Mentions(p[s], ATemp(u))
    requires Spotted(p, spot) && NamesFirst(pl, p) && a in pl.asks(j) && a.Var?
    ensures KnownLabel(pl, a.name, s)
  {
    hide AskedAt, NestAt;
    assert Mentions(p[i], ATemp(u));
    SpotOpen(p, s, u);
    StillOpen(p, s, j, i, OpenAt(p, i));
    if a.name !in pl.start.locs {
      var j' : nat :| j' < j && OpenAt(p, j') == [] && AskedAt(pl, j', a.name);
      if j' >= s {
        StillOpen(p, s, j', i, OpenAt(p, i));
      }
    }
  }

  // ----- quad by quad -----

  /** After the operands have been stored only an argument's place is written, over its label. */
  lemma AfterTable(pl: Plan, q: Quad, i: nat, S: AllocT, g: Gen, saved: seq<Reg>)
    ensures var t := AfterT(pl, q, i, S, g, saved).table;
            t == S.table || (IsArg(q) && q.arg1.ATemp? && exists v :: t == HashMap.PutT(pl.hash, S.table, TempLabel(q.arg1.t), v))
  {
    hide After, HashMap.PutT, TempLabel;
    AfterAlone(pl, q, i, Bare(S), S, g, saved);
    if PassUse(q, i, Bare(S), g) != [] {
      var v := PassUse(q, i, Bare(S), g)[0].val;
      assert AfterT(pl, q, i, S, g, saved).table == HashMap.PutT(pl.hash, S.table, TempLabel(q.arg1.t), v);
    }
  }

  lemma ArgFiled(pl: Plan, p: Code, home: Homes, spot: Spots, i: nat, S: Alloc, t: Locs, u: nat, v: Loc)
    requires i < |p| && IsArg(p[i]) && p[i].arg1 == ATemp(u) && u in pl.ranges && t.cap >= 2
    requires RangesOf(p, pl.ranges) && Asks(p, pl.asks) && Framed(p, home) && Spotted(p, spot) && NamesFirst(pl, p)
    requires Has(pl, S, t) && LostIsOver(pl, p, S, t, i) && Queued(pl, p, t, i) && CalmSince(pl, p, pl.ranges[u].starts, i)
    requires (forall x :: x in S.locs <==> KnownLabel(pl, x, i + 1)) && HashMap.GetT(pl.hash, t, TempLabel(u)).Some?
    requires HashMap.PutT(pl.hash, t, TempLabel(u), v).cap == t.cap
    ensures var t' := HashMap.PutT(pl.hash, t, TempLabel(u), v);
            Has(pl, S, t') && LostIsOver(pl, p, S, t', i + 1) && Queued(pl, p, t', i + 1)
  {
    hide HashMap.GetT, HashMap.PutT, HashMap.Placed, Lookups.SameChain, CalmSince, TempLabel, KnownLabel, RangesOf, Asks,
         Framed, Spotted, NamesFirst, Over;
    var key, t' := TempLabel(u), HashMap.PutT(pl.hash, t, TempLabel(u), v);
    PutGrows(pl.hash, t, key, v);
    HashMap.PutParts(pl.hash, t, key, v);
    Lookups.PutExactly(pl.hash, t, key, v, key);
    forall x
      ensures HashMap.GetT(pl.hash, t', x).Some? ==> x in S.locs
      ensures x in S.locs && HashMap.GetT(pl.hash, t', x).None? ==> Over(pl, p, x, i + 1)
    {
      Lookups.PutExactly(pl.hash, t, key, v, x);
      if x in S.locs && HashMap.GetT(pl.hash, t', x).None? {
        if HashMap.GetT(pl.hash, t, x).Some? {
          assert Lookups.SameChain(pl.hash, t, key, x) by { CutHere(pl.hash, t, key, x); }
          BehindIsOver(pl, p, home, spot, i, u, x);
        } else {
          StillOver(pl, p, x, i);
        }
      }
    }
    forall w: nat, x | w in pl.ranges && CalmSince(pl, p, pl.ranges[w].starts, i + 1)
                       && Lookups.SameChain(pl.hash, t', TempLabel(w), x)
      ensures !KnownLabel(pl, x, pl.ranges[w].starts)
    {
      Lookups.WriteBehind(pl.hash, t, key, v, TempLabel(w), x);
      CalmEarlier(pl, p, pl.ranges[w].starts, i);
    }
  }

  lemma CutHere(hash: Hash, t: Locs, k: string, x: string)
    requires Lookups.Cuts(hash, t, k, x) && !HashMap.NeedsRehash(t)
    ensures Lookups.SameChain(hash, t, k, x)
  {
  }

  lemma StillOver(pl: Plan, p: Code, x: string, i: nat)
    requires Over(pl, p, x, i)
    ensures Over(pl, p, x, i + 1)
  {
  }

  lemma CalmEarlier(pl: Plan, p: Code, s: nat, i: nat)
    requires CalmSince(pl, p, s, i + 1)
    ensures CalmSince(pl, p, s, i)
  {
    hide CapAt;
  }

  /** Where the table has just grown nothing is said yet. */
  lemma QueuedAnew(pl: Plan, p: Code, S: Alloc, t: Locs, i: nat)
    requires i < |p| && CapAt(pl, p, i + 1) != CapAt(pl, p, i) && Has(pl, S, t) && RangesOf(p, pl.ranges) && Asks(p, pl.asks)
    requires (forall x :: x in S.locs <==> KnownLabel(pl, x, i + 1)) && forall u: nat :: LocOf(pl.start, u) == None
    ensures Queued(pl, p, t, i + 1)
  {
    hide CapAt, Lookups.SameChain, HashMap.GetT, TempLabel, RangesOf, Asks, AskedAt, HashMap.Placed;
    var next := i + 1;
    forall u: nat, x
      ensures u in pl.ranges && CalmSince(pl, p, pl.ranges[u].starts, next) ==> !Lookups.SameChain(pl.hash, t, TempLabel(u), x)
    {
      if u in pl.ranges && Lookups.SameChain(pl.hash, t, TempLabel(u), x) {
        ChainMember(pl.hash, t, TempLabel(u), x);
        KnownStarts(pl, p, u, i);
      }
    }
  }

  /** A temporary whose label is known has been mentioned. */
  lemma KnownStarts(pl: Plan, p: Code, u: nat, i: nat)
    requires KnownLabel(pl, TempLabel(u), i + 1) && i < |p| && LocOf(pl.start, u) == None
    requires RangesOf(p, pl.ranges) && Asks(p, pl.asks)
    ensures u in pl.ranges && pl.ranges[u].starts <= i
  {
    hide TempLabel, RangesOf, Asks, AskedAt;
    var j: nat :| j < i + 1 && AskedAt(pl, j, TempLabel(u));
    AskedIsMentioned(pl, p, j, u);
    MentionRange(p, pl.ranges, j, u);
  }

  // ----- the whole pass -----

  /** A procedure as it is given, its table, and the shape of its code. */
  ghost predicate Filing(pl: Plan, p: Code, home: Homes, spot: Spots)
  {
    && Stocked(pl) && pl.table.cap >= 2 && RangesOf(p, pl.ranges) && Asks(p, pl.asks)
    && (forall u: nat :: LocOf(pl.start, u) == None)
    && Framed(p, home) && Spotted(p, spot) && NamesFirst(pl, p)
  }

  /** Before the quad at i: the pass has gone as if nothing were lost, what is lost is over, and the chains are in the
      order in which labels became known. */
  ghost predicate FiledAt(pl: Plan, p: Code, i: nat)
    requires i <= |p|
  {
    && Right(pl, UsesAt(pl, p, i)) && Abreast(pl, p, i) && CapAt(pl, p, i) >= 2
    && Filed(pl, p, CgAt(pl, p, i).alloc, CgAtT(pl, p, i).alloc.table, i)
    && Queued(pl, p, CgAtT(pl, p, i).alloc.table, i)
  }

  ghost predicate Filed(pl: Plan, p: Code, S: Alloc, t: Locs, i: nat)
  {
    Has(pl, S, t) && LostIsOver(pl, p, S, t, i)
  }

  lemma FilingParts(pl: Plan, p: Code, home: Homes, spot: Spots)
    requires Filing(pl, p, home, spot)
    ensures Stocked(pl) && pl.table.cap >= 2 && RangesOf(p, pl.ranges) && Asks(p, pl.asks)
    ensures (forall u: nat :: LocOf(pl.start, u) == None) && Framed(p, home) && Spotted(p, spot) && NamesFirst(pl, p)
  {
  }

  lemma GoodAsks(pl: Plan, p: Code, i: nat)
    requires Asks(p, pl.asks) && i < |p|
    ensures forall a :: a in pl.asks(i) ==> GoodAsk(p[i], a)
  {
    hide GoodAsk;
  }

  /** The requests of a quad. */
  lemma LoadFiled(pl: Plan, p: Code, home: Homes, spot: Spots, i: nat)
    requires i < |p| && Filing(pl, p, home, spot) && FiledAt(pl, p, i)
    ensures FindsAt(pl, p, i) && Right(pl, Midway(pl, p, i)) && AbreastLoaded(pl, p, i)
    ensures Filed(pl, p, Loaded(pl, p, i), LoadedT(pl, p, i).table, i) && LoadedT(pl, p, i).table.cap >= CapAt(pl, p, i)
  {
    hide Filing, Has, LostIsOver, Queued, Right, CgAt, CgAtT, StoreAll, StoreAllT, AskUses, UsesAt, SameAsks, Stocked;
    FilingParts(pl, p, home, spot);
    AsksFiled(pl, p, UsesAt(pl, p, i), CgAt(pl, p, i).alloc, CgAtT(pl, p, i).alloc, i, pl.asks(i));
    LoadLevel(pl, p, i);
    StoredAllCap(pl.hash, pl.ranges, CgAtT(pl, p, i).alloc, pl.asks(i));
  }

  lemma LoadQueued(pl: Plan, p: Code, home: Homes, spot: Spots, i: nat)
    requires i < |p| && Filing(pl, p, home, spot) && FiledAt(pl, p, i) && LoadedT(pl, p, i).table.cap == CapAt(pl, p, i)
    ensures Queued(pl, p, LoadedT(pl, p, i).table, i)
  {
    hide Filing, Has, LostIsOver, Queued, Right, CgAt, CgAtT, StoreAll, StoreAllT, Abreast, UsesAt, KnownLabel, Asks,
         RangesOf, TempLabel, GoodAsk;
    FilingParts(pl, p, home, spot);
    GoodAsks(pl, p, i);
    LabelsKnown(pl, p, i);
    forall u: nat | TempLabel(u) in CgAt(pl, p, i).alloc.locs && u in pl.ranges
      ensures pl.ranges[u].starts <= i
    {
      KnownNext(pl, TempLabel(u), i);
      KnownStarts(pl, p, u, i);
    }
    AsksQueued(pl, p, CgAt(pl, p, i).alloc, CgAtT(pl, p, i).alloc, i, pl.asks(i));
  }

  /** The label of an argument is found when its new place is written. */
  lemma ArgFound(pl: Plan, p: Code, home: Homes, spot: Spots, i: nat, u: nat)
    requires i < |p| && Filing(pl, p, home, spot) && IsArg(p[i]) && p[i].arg1 == ATemp(u)
    ensures u in pl.ranges && pl.ranges[u].starts <= i
    ensures HashMap.GetT(pl.hash, LoadedT(pl, p, i).table, TempLabel(u)).Some?
  {
    hide Filing, Stocked, CgAtT, StoreAllT, TempLabel, RangesOf, GoodAsk, HashMap.GetT, HashMap.Placed, TableOf, MapOf;
    FilingParts(pl, p, home, spot);
    assert Mentions(p[i], ATemp(u));
    MentionRange(p, pl.ranges, i, u);
    var a :| a in pl.asks(i) && a.Cgt? && a.t == u;
    assert LabelOf(a) == TempLabel(u);
    PassPlaced(pl, p, i);
    AllStoredT(pl.hash, pl.ranges, CgAtT(pl, p, i).alloc, pl.asks(i));
  }

  /** Whatever is put, chains stay in order. */
  lemma {:induction false} PassPlaced(pl: Plan, p: Code, i: nat)
    requires i <= |p| && Stocked(pl)
    ensures HashMap.Placed(pl.hash, CgAtT(pl, p, i).alloc.table)
  {
    hide HashMap.Placed, StoreAllT, SavedT, AfterT, Effect, HashMap.PutT, TempLabel, HashMap.GetT, HashMap.Exact;
    if i == 0 {
      HashMap.ExactPlaced(pl.hash, pl.table);
    } else {
      PassPlaced(pl, p, i - 1);
      var S, g := LoadedT(pl, p, i - 1), CgAtT(pl, p, i - 1).gen;
      AllStoredT(pl.hash, pl.ranges, CgAtT(pl, p, i - 1).alloc, pl.asks(i - 1));
      AfterTable(pl, p[i - 1], i - 1, S, g, SavedT(pl, p, i - 1));
      if AfterT(pl, p[i - 1], i - 1, S, g, SavedT(pl, p, i - 1)).table != S.table {
        var v :| AfterT(pl, p[i - 1], i - 1, S, g, SavedT(pl, p, i - 1)).table
            == HashMap.PutT(pl.hash, S.table, TempLabel(p[i - 1].arg1.t), v);
        HashMap.PutPlaced(pl.hash, S.table, TempLabel(p[i - 1].arg1.t), v);
      }
    }
  }

  lemma SameLabels(pl: Plan, p: Code, S: Alloc, S': Alloc, t: Locs, i: nat)
    requires (forall x :: x in S'.locs <==> x in S.locs) && Filed(pl, p, S, t, i)
    ensures Filed(pl, p, S', t, i) && Filed(pl, p, S', t, i + 1)
  {
    hide HashMap.GetT, HashMap.Placed, AskedAt;
  }

  lemma QueuedOn(pl: Plan, p: Code, t: Locs, i: nat)
    requires Queued(pl, p, t, i)
    ensures Queued(pl, p, t, i + 1)
  {
    hide CalmSince, Lookups.SameChain, KnownLabel, TempLabel;
    var next := i + 1;
    forall u: nat, x | u in pl.ranges && CalmSince(pl, p, pl.ranges[u].starts, next)
                       && Lookups.SameChain(pl.hash, t, TempLabel(u), x)
      ensures !KnownLabel(pl, x, pl.ranges[u].starts)
    {
      CalmEarlier(pl, p, pl.ranges[u].starts, i);
    }
  }

  /** What the quad itself writes. */
  lemma QuadFiled(pl: Plan, p: Code, home: Homes, spot: Spots, i: nat)
    requires i < |p| && Filing(pl, p, home, spot) && CalmFor(pl, p, i) && FiledAt(pl, p, i)
    requires Filed(pl, p, Loaded(pl, p, i), LoadedT(pl, p, i).table, i) && LoadedT(pl, p, i).table.cap >= CapAt(pl, p, i)
    ensures var t' := CgAtT(pl, p, i + 1).alloc.table;
            && t'.cap >= 2 && Filed(pl, p, CgAt(pl, p, i + 1).alloc, t', i + 1) && Queued(pl, p, t', i + 1)
  {
    hide Filing, Has, LostIsOver, Queued, Right, CgAt, Loaded, LoadedT, Abreast, UsesAt, KnownLabel, Asks, RangesOf,
         TempLabel, AfterT, SavedT, Effect, HashMap.PutT, HashMap.GetT, CalmSince, Filed, Framed, Spotted, NamesFirst;
    FilingParts(pl, p, home, spot);
    LabelsKnown(pl, p, i);
    AfterLabels(pl, p, i);
    var S, T, t' := Loaded(pl, p, i), LoadedT(pl, p, i), CgAtT(pl, p, i + 1).alloc.table;
    AfterTable(pl, p[i], i, T, CgAtT(pl, p, i).gen, SavedT(pl, p, i));
    if t' == T.table {
      SameLabels(pl, p, S, CgAt(pl, p, i + 1).alloc, t', i);
      if CapAt(pl, p, i + 1) == CapAt(pl, p, i) {
        LoadQueued(pl, p, home, spot, i);
        QueuedOn(pl, p, t', i);
      } else {
        QueuedAnew(pl, p, S, t', i) by { FiledHas(pl, p, S, t', i); }
      }
    } else {
      var u := p[i].arg1.t;
      var v :| t' == HashMap.PutT(pl.hash, T.table, TempLabel(u), v);
      ArgFound(pl, p, home, spot, i, u);
      CalmHere(pl, p, i, u);
      PutGrows(pl.hash, T.table, TempLabel(u), v);
      LoadQueued(pl, p, home, spot, i);
      assert Has(pl, S, T.table) && LostIsOver(pl, p, S, T.table, i) by { FiledHas(pl, p, S, T.table, i); }
      ArgFiled(pl, p, home, spot, i, S, T.table, u, v);
      FiledBoth(pl, p, S, CgAt(pl, p, i + 1).alloc, t', i + 1);
    }
  }

  lemma FiledHas(pl: Plan, p: Code, S: Alloc, t: Locs, i: nat)
    requires Filed(pl, p, S, t, i)
    ensures Has(pl, S, t) && LostIsOver(pl, p, S, t, i)
  {
  }

  lemma FiledBoth(pl: Plan, p: Code, S: Alloc, S': Alloc, t: Locs, i: nat)
    requires (forall x :: x in S'.locs <==> x in S.locs) && Has(pl, S, t) && LostIsOver(pl, p, S, t, i)
    ensures Filed(pl, p, S', t, i)
  {
    hide HashMap.GetT, HashMap.Placed, AskedAt, Over;
  }

  lemma CalmHere(pl: Plan, p: Code, i: nat, u: nat)
    requires i < |p| && CalmFor(pl, p, i) && IsArg(p[i]) && p[i].arg1 == ATemp(u) && u in pl.ranges && pl.ranges[u].starts <= i
    ensures CalmSince(pl, p, pl.ranges[u].starts, i) && CapAt(pl, p, i + 1) == CapAt(pl, p, i)
  {
    hide CapAt;
    assert CalmSince(pl, p, pl.ranges[u].starts, i + 1);
    CalmEarlier(pl, p, pl.ranges[u].starts, i);
  }

  /** One quad, all of it. */
  lemma NextFiled(pl: Plan, p: Code, home: Homes, spot: Spots, i: nat)
    requires i < |p| && Filing(pl, p, home, spot) && CalmFor(pl, p, i) && FiledAt(pl, p, i)
    ensures FiledAt(pl, p, i + 1) && FindsAt(pl, p, i)
  {
    hide Filing, CalmFor, Right, CgAt, CgAtT, Loaded, LoadedT, Abreast, AbreastLoaded, UsesAt, Filed, Queued, FindsAt, Midway;
    LoadFiled(pl, p, home, spot, i);
    QuadFiled(pl, p, home, spot, i);
    FilingParts(pl, p, home, spot);
    NextLevel(pl, p, i);
  }

  lemma {:induction false} AlwaysFiled(pl: Plan, p: Code, home: Homes, spot: Spots, i: nat)
    requires i <= |p| && Filing(pl, p, home, spot) && Calm(pl, p)
    ensures FiledAt(pl, p, i) && forall j: nat :: j < i ==> FindsAt(pl, p, j)
  {
    hide Filing, CalmFor, FiledAt, FindsAt;
    if i == 0 {
      StartFiled(pl, p, home, spot);
    } else {
      AlwaysFiled(pl, p, home, spot, i - 1);
      NextFiled(pl, p, home, spot, i - 1);
    }
  }

  lemma StartFiled(pl: Plan, p: Code, home: Homes, spot: Spots)
    requires Filing(pl, p, home, spot)
    ensures FiledAt(pl, p, 0)
  {
    hide Right, Abreast, TempLabel, HashMap.GetT, Framed, Spotted, NamesFirst, Lookups.SameChain, RangesOf, HashMap.Placed,
         HashMap.Exact, CalmSince, KnownLabel;
    FirstLevel(pl, p);
    HashMap.ExactPlaced(pl.hash, pl.table);
    assert CgAt(pl, p, 0).alloc == pl.start && CgAtT(pl, p, 0).alloc.table == pl.table;
    forall u: nat, x
      ensures !Lookups.SameChain(pl.hash, pl.table, TempLabel(u), x)
    {
      assert LocOf(pl.start, u) == None;
      if Lookups.SameChain(pl.hash, pl.table, TempLabel(u), x) {
        ChainMember(pl.hash, pl.table, TempLabel(u), x);
      }
    }
  }

  /** If the table does not grow between the first mention of an argument and the quad that passes it, nothing that is
      asked for again is cut off: what stands behind the argument's label was stored inside the argument's own code. */
  lemma CalmFinds(pl: Plan, p: Code, home: Homes, spot: Spots)
    requires Filing(pl, p, home, spot) && Calm(pl, p)
    ensures NothingCut(pl, p)
  {
    hide Filing, Calm, FiledAt, FindsAt, NothingCut;
    FilingParts(pl, p, home, spot);
    AlwaysFiled(pl, p, home, spot, |p|);
    PassExact(pl, p);
  }

  // ----- few labels -----

  /** All labels of the procedure, and those there at the start, are fewer than make the table grow. */
  ghost predicate FewLabels(pl: Plan, p: Code)
  {
    10 * |CgAt(pl, p, |p|).alloc.locs| < 7 * pl.table.cap
  }

  lemma SmallerMap(a: map<string, Loc>, b: map<string, Loc>)
    requires forall x :: x in a ==> x in b
    ensures |a| <= |b|
  {
    assert |a| == |a.Keys| && |b| == |b.Keys|;
    SubsetSize(a.Keys, b.Keys);
  }

  /** What the table counts is what it holds. */
  lemma StartLen(pl: Plan)
    requires Stocked(pl)
    ensures pl.table.len <= |pl.start.locs|
  {
    hide HashMap.GetT, HashMap.Placed, HashMap.DistinctKeys;
    var es := HashMap.Entries(pl.table.buckets);
    HashMap.ExactPlaced(pl.hash, pl.table);
    HashMap.LenCountsKeys(pl.hash, pl.table);
    forall e | e in es
      ensures e.0 in pl.start.locs
    {
      HashMap.GetIsFind(pl.hash, pl.table, e.0);
      HashMap.FindSome(es, e.0);
    }
    SubsetSize(set e | e in es :: e.0, pl.start.locs.Keys);
  }

  /** While it does not grow the table counts no more than there are labels. */
  ghost predicate Small(pl: Plan, S: Alloc, t: Locs)
  {
    t.cap == pl.table.cap && t.len <= |S.locs|
  }

  lemma PutSmall(pl: Plan, t: Locs, key: string, v: Loc)
    requires 10 * t.len < 7 * t.cap
    ensures var t' := HashMap.PutT(pl.hash, t, key, v);
            t'.cap == t.cap && t'.len == if HashMap.GetT(pl.hash, t, key).Some? then t.len else t.len + 1
  {
    HashMap.PutParts(pl.hash, t, key, v);
  }

  lemma AskSmall(pl: Plan, p: Code, S: Alloc, S': AllocT, i: nat, a: Addr)
    requires i < |p| && LostIsOver(pl, p, S, S'.table, i) && a in pl.asks(i) && Small(pl, S, S'.table)
    requires 10 * |Stored(pl.ranges, S, a).locs| < 7 * pl.table.cap
    ensures Small(pl, Stored(pl.ranges, S, a), StoredT(pl.hash, pl.ranges, S', a).table)
  {
    hide LabelOf, HashMap.GetT, HashMap.PutT, LostIsOver, Pick, Offset, TempLabel;
    NotLost(pl, p, S, S'.table, i, a);
    StoredKeeps(pl.ranges, S, a);
    SmallerMap(S.locs, Stored(pl.ranges, S, a).locs);
    if HashMap.GetT(pl.hash, S'.table, LabelOf(a)).None? {
      StoredAlone(pl.ranges, S, Emptied(S, S'), a);
      StoredKeeps(pl.ranges, Bare(S'), a);
      PutSmall(pl, S'.table, LabelOf(a), Stored(pl.ranges, Bare(S'), a).locs[LabelOf(a)]);
    }
  }

  function Emptied(S: Alloc, S': AllocT): AllocT
  {
    AllocT(S.stacks, S'.table, S.lStack)
  }

  lemma {:induction false} AsksSmall(pl: Plan, p: Code, S: Alloc, S': AllocT, i: nat, addrs: seq<Addr>)
    requires i < |p| && (forall a :: a in addrs ==> a in pl.asks(i)) && Small(pl, S, S'.table)
    requires Has(pl, S, S'.table) && LostIsOver(pl, p, S, S'.table, i)
    requires 10 * |StoreAll(pl.ranges, S, addrs).locs| < 7 * pl.table.cap
    ensures var A, B := StoreAll(pl.ranges, S, addrs), StoreAllT(pl.hash, pl.ranges, S', addrs);
            Has(pl, A, B.table) && LostIsOver(pl, p, A, B.table, i) && Small(pl, A, B.table)
    decreases |addrs|
  {
    hide Has, LostIsOver, Small, Stored, StoredT;
    if addrs != [] {
      var f, a := Front(addrs), addrs[|addrs| - 1];
      var A, B := StoreAll(pl.ranges, S, f), StoreAllT(pl.hash, pl.ranges, S', f);
      assert addrs == f + [a];
      StoredKeeps(pl.ranges, A, a);
      SmallerMap(A.locs, Stored(pl.ranges, A, a).locs);
      AsksSmall(pl, p, S, S', i, f);
      AskHas(pl, p, A, B, i, a);
      AskSmall(pl, p, A, B, i, a);
    }
  }

  /** The labels of a prefix of the pass are among all labels. */
  lemma LabelsGrow(pl: Plan, p: Code, i: nat)
    requires i <= |p| && Asks(p, pl.asks)
    ensures |CgAt(pl, p, i).alloc.locs| <= |CgAt(pl, p, |p|).alloc.locs|
    ensures i < |p| ==> |Loaded(pl, p, i).locs| <= |CgAt(pl, p, |p|).alloc.locs|
  {
    hide CgAt, Loaded, KnownLabel, Asks;
    LabelsKnown(pl, p, i);
    LabelsKnown(pl, p, |p|);
    var all := CgAt(pl, p, |p|).alloc.locs;
    forall x
      ensures x in CgAt(pl, p, i).alloc.locs ==> x in all
      ensures i < |p| && x in Loaded(pl, p, i).locs ==> x in all
    {
      KnownEarlier(pl, x, i, |p|);
      if i < |p| {
        KnownEarlier(pl, x, i + 1, |p|);
      }
    }
    SmallerMap(CgAt(pl, p, i).alloc.locs, all);
    if i < |p| {
      SmallerMap(Loaded(pl, p, i).locs, all);
    }
  }

  lemma QuadSmall(pl: Plan, p: Code, home: Homes, spot: Spots, i: nat)
    requires i < |p| && Filing(pl, p, home, spot) && FewLabels(pl, p) && FiledAt(pl, p, i)
    requires Small(pl, CgAt(pl, p, i).alloc, CgAtT(pl, p, i).alloc.table)
    ensures Small(pl, CgAt(pl, p, i + 1).alloc, CgAtT(pl, p, i + 1).alloc.table)
  {
    hide Filing, Has, LostIsOver, Queued, Right, CgAt, StoreAll, StoreAllT, Abreast, UsesAt, Asks, TempLabel, AfterT, SavedT, Effect,
         HashMap.PutT, HashMap.GetT;
    FilingParts(pl, p, home, spot);
    LabelsGrow(pl, p, i);
    AfterLabels(pl, p, i);
    var S, T, t' := Loaded(pl, p, i), LoadedT(pl, p, i), CgAtT(pl, p, i + 1).alloc.table;
    AsksSmall(pl, p, CgAt(pl, p, i).alloc, CgAtT(pl, p, i).alloc, i, pl.asks(i));
    assert Small(pl, S, T.table);
    SmallerMap(S.locs, CgAt(pl, p, i + 1).alloc.locs);
    AfterTable(pl, p[i], i, T, CgAtT(pl, p, i).gen, SavedT(pl, p, i));
    if t' != T.table {
      var u := p[i].arg1.t;
      var v :| t' == HashMap.PutT(pl.hash, T.table, TempLabel(u), v);
      ArgFound(pl, p, home, spot, i, u);
      PutSmall(pl, T.table, TempLabel(u), v);
    }
  }

  lemma {:induction false} AlwaysSmall(pl: Plan, p: Code, home: Homes, spot: Spots, i: nat)
    requires i <= |p| && Filing(pl, p, home, spot) && FewLabels(pl, p)
    ensures FiledAt(pl, p, i) && forall j: nat :: j <= i ==> CapAt(pl, p, j) == pl.table.cap
    ensures Small(pl, CgAt(pl, p, i).alloc, CgAtT(pl, p, i).alloc.table)
  {
    hide Filing, FewLabels, FiledAt, CgAt, CgAtT;
    if i == 0 {
      StartFiled(pl, p, home, spot);
      StartSmall(pl, p, home, spot);
    } else {
      AlwaysSmall(pl, p, home, spot, i - 1);
      QuadSmall(pl, p, home, spot, i - 1);
      NextFiled(pl, p, home, spot, i - 1) by { StillCalm(pl, p, i - 1); }
    }
  }

  lemma StartSmall(pl: Plan, p: Code, home: Homes, spot: Spots)
    requires Filing(pl, p, home, spot)
    ensures Small(pl, CgAt(pl, p, 0).alloc, CgAtT(pl, p, 0).alloc.table)
  {
    FilingParts(pl, p, home, spot);
    StartLen(pl);
  }

  lemma StillCalm(pl: Plan, p: Code, i: nat)
    requires i < |p| && forall j: nat :: j <= i + 1 ==> CapAt(pl, p, j) == pl.table.cap
    ensures CalmFor(pl, p, i)
  {
    hide CapAt;
  }

  /** With fewer labels than make the table grow, fewer than 90 in a new one, every lookup finds what was put there. */
  lemma FewLabelsFind(pl: Plan, p: Code, home: Homes, spot: Spots)
    requires Filing(pl, p, home, spot) && FewLabels(pl, p)
    ensures Calm(pl, p) && NothingCut(pl, p)
  {
    hide Filing, FewLabels, FiledAt, CapAt, CalmFor, NothingCut, CgAt, CgAtT;
    forall i: nat | i < |p|
      ensures CalmFor(pl, p, i)
    {
      AlwaysSmall(pl, p, home, spot, |p|);
      StillCalm(pl, p, i);
    }
    CalmFinds(pl, p, home, spot);
  }
}
