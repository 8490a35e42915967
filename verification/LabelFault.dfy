/** How a local variable loses its place: the hash map of locations grows just when an argument's new place is written
    over its label, and the local's label comes to stand behind it. */
module LabelFault {
  import opened Ast
  import opened Quads
  import opened Liveness
  import opened LiveRanges
  import opened Emit
  import opened Procedure
  import opened Nests
  import opened RegAlloc
  import opened Frames
  import opened Calls
  import opened CallSim
  import opened CallAlloc
  import opened CallTable
  import opened CallLabels
  import HashMap
  import Lookups

  // ----- until the first argument is passed nothing is lost -----

  lemma {:induction false} RefinesLen(hash: Hash, t: Locs, m: map<string, Loc>)
    requires HashMap.Refines(hash, t, m)
    ensures t.len == |m|
  {
    hide HashMap.GetT, HashMap.Placed, HashMap.DistinctKeys;
    var es := HashMap.Entries(t.buckets);
    HashMap.ExactPlaced(hash, t);
    HashMap.LenCountsKeys(hash, t);
    var keys := set e | e in es :: e.0;
    forall x
      ensures x in keys <==> x in m
    {
      HashMap.GetIsFind(hash, t, x);
      HashMap.FindSome(es, x);
      assert x in keys ==> exists e :: e in es && e.0 == x;
    }
    assert keys == m.Keys;
  }

  lemma StoredRefines(pl: Plan, S: Alloc, S': AllocT, a: Addr)
    requires S'.stacks == S.stacks && S'.lStack == S.lStack && HashMap.Refines(pl.hash, S'.table, S.locs)
    ensures var A, B := Stored(pl.ranges, S, a), StoredT(pl.hash, pl.ranges, S', a);
            B.stacks == A.stacks && B.lStack == A.lStack && HashMap.Refines(pl.hash, B.table, A.locs)
    ensures Same(pl, S, S', LabelOf(a))
  {
    hide Stored, LabelOf, HashMap.GetT, HashMap.PutT, HashMap.Exact;
    var key := LabelOf(a);
    assert HashMap.GetT(pl.hash, S'.table, key) == if key in S.locs then Some(S.locs[key]) else None;
    if key in S.locs {
      StoredPresent(pl.ranges, S, a);
    } else {
      StoredAlone(pl.ranges, S, S', a);
      var v := Stored(pl.ranges, Bare(S'), a).locs[key];
      HashMap.OneRefines(pl.hash, S'.table, S.locs, HashMap.OpPut(key, v));
    }
  }

  lemma {:induction false} AsksRefine(pl: Plan, S: Alloc, S': AllocT, addrs: seq<Addr>)
    requires S'.stacks == S.stacks && S'.lStack == S.lStack && HashMap.Refines(pl.hash, S'.table, S.locs)
    ensures var A, B := StoreAll(pl.ranges, S, addrs), StoreAllT(pl.hash, pl.ranges, S', addrs);
            B.stacks == A.stacks && B.lStack == A.lStack && HashMap.Refines(pl.hash, B.table, A.locs)
    ensures SameAsks(pl, S, S', addrs)
    decreases |addrs|
  {
    hide Stored, StoredT, HashMap.Refines, Same;
    if addrs != [] {
      var f, a := Front(addrs), addrs[|addrs| - 1];
      assert addrs[..|addrs| - 1] == f;
      AsksRefine(pl, S, S', f);
      StoredRefines(pl, StoreAll(pl.ranges, S, f), StoreAllT(pl.hash, pl.ranges, S', f), a);
      SameAsksMore(pl, S, S', addrs);
    }
  }

  ghost predicate Refined(pl: Plan, S: Alloc, S': AllocT)
  {
    S'.stacks == S.stacks && S'.lStack == S.lStack && HashMap.Refines(pl.hash, S'.table, S.locs)
  }

  /** Up to the first argument the table is the map of what has been put there. */
  lemma {:induction false} BeforeArgs(pl: Plan, p: Code, i: nat)
    requires i <= |p| && Stocked(pl) && Asks(p, pl.asks) && forall j: nat :: j < i ==> !IsArg(p[j])
    ensures Abreast(pl, p, i) && Right(pl, UsesAt(pl, p, i)) && Refined(pl, CgAt(pl, p, i).alloc, CgAtT(pl, p, i).alloc)
    ensures i < |p| ==> FindsAt(pl, p, i) && AbreastLoaded(pl, p, i) && Refined(pl, Loaded(pl, p, i), LoadedT(pl, p, i))
  {
    hide Beside, Right, HashMap.Refines, Asks, After, StoreAll, StoreAllT, UsesAt, Effect, SavedAt, SavedT, SameAsks, AskUses,
         Midway, AfterT;
    if i == 0 {
      FirstLevel(pl, p);
    } else {
      BeforeArgs(pl, p, i - 1);
      LoadLevel(pl, p, i - 1);
      NextLevel(pl, p, i - 1);
      AfterPlain(pl, p, i - 1);
    }
    if i < |p| {
      AsksRefine(pl, CgAt(pl, p, i).alloc, CgAtT(pl, p, i).alloc, pl.asks(i));
      LoadLevel(pl, p, i);
    }
  }

  /** A quad that passes no argument writes nothing. */
  lemma AfterPlain(pl: Plan, p: Code, i: nat)
    requires i < |p| && !IsArg(p[i]) && Refined(pl, Loaded(pl, p, i), LoadedT(pl, p, i))
    requires Abreast(pl, p, i + 1)
    ensures Refined(pl, CgAt(pl, p, i + 1).alloc, CgAtT(pl, p, i + 1).alloc)
  {
    hide HashMap.Refines, MarkAll, Close, Brackets, Loaded, LoadedT, CgAt, UsesAt, SavedAt, Effect, SavedT, TableOf, MapOf;
    AfterTable(pl, p[i], i, LoadedT(pl, p, i), CgAtT(pl, p, i).gen, SavedT(pl, p, i));
    assert CgAt(pl, p, i + 1).alloc.locs == Loaded(pl, p, i).locs by { PlainLocs(pl, p, i); }
  }

  lemma PlainLocs(pl: Plan, p: Code, i: nat)
    requires i < |p| && !IsArg(p[i])
    ensures CgAt(pl, p, i + 1).alloc.locs == Loaded(pl, p, i).locs
  {
    hide MarkAll, Close, Brackets, Loaded, SavedAt, Effect;
  }

  // ----- the loss -----

  /** Nothing that is asked for in between is the label. */
  lemma {:induction false} StaysUnfound(hash: Hash, ranges: map<nat, Range>, S: AllocT, addrs: seq<Addr>, x: string)
    requires HashMap.Placed(hash, S.table) && HashMap.GetT(hash, S.table, x).None? && forall a :: a in addrs ==> LabelOf(a) != x
    ensures var T := StoreAllT(hash, ranges, S, addrs); HashMap.Placed(hash, T.table) && HashMap.GetT(hash, T.table, x).None?
    decreases |addrs|
  {
    hide Stored, LabelOf, HashMap.GetT, HashMap.PutT, HashMap.Placed, Lookups.Cuts;
    if addrs != [] {
      var f, a := Front(addrs), addrs[|addrs| - 1];
      assert addrs == f + [a];
      StaysUnfound(hash, ranges, S, f, x);
      var T := StoreAllT(hash, ranges, S, f);
      StoredKeepsT(hash, ranges, T, a);
      if HashMap.GetT(hash, T.table, LabelOf(a)).None? {
        StoredKeeps(ranges, Bare(T), a);
        Lookups.PutExactly(hash, T.table, LabelOf(a), Stored(ranges, Bare(T), a).locs[LabelOf(a)], x);
      }
    }
  }

  /** From the quad at i to the one at m nobody asks for the label and no argument is passed. */
  ghost predicate LeftAlone(pl: Plan, p: Code, x: string, i: nat, m: nat)
  {
    i <= m <= |p| && forall j: nat :: i <= j < m ==> !AskedAt(pl, j, x) && !IsArg(p[j])
  }

  lemma {:induction false} StillUnfound(pl: Plan, p: Code, x: string, i: nat, m: nat)
    requires Stocked(pl) && LeftAlone(pl, p, x, i, m) && HashMap.GetT(pl.hash, CgAtT(pl, p, i).alloc.table, x).None?
    ensures HashMap.GetT(pl.hash, CgAtT(pl, p, m).alloc.table, x).None?
    decreases m
  {
    hide HashMap.GetT, HashMap.Placed, StoreAllT, AfterT, SavedT, Effect, LabelOf, Stocked;
    if i < m {
      StillUnfound(pl, p, x, i, m - 1);
      PassPlaced(pl, p, m - 1);
      forall a | a in pl.asks(m - 1)
        ensures LabelOf(a) != x
      {
        assert !AskedAt(pl, m - 1, x);
      }
      StaysUnfound(pl.hash, pl.ranges, CgAtT(pl, p, m - 1).alloc, pl.asks(m - 1), x);
      AfterTable(pl, p[m - 1], m - 1, LoadedT(pl, p, m - 1), CgAtT(pl, p, m - 1).gen, SavedT(pl, p, m - 1));
    }
  }

  /** What is asked for though the table has lost it is not found. */
  lemma NotFoundAt(pl: Plan, p: Code, x: string, m: nat)
    requires m < |p| && Stocked(pl) && Asks(p, pl.asks) && HashMap.GetT(pl.hash, CgAtT(pl, p, m).alloc.table, x).None?
    requires x in CgAt(pl, p, m).alloc.locs && AskedAt(pl, m, x)
    ensures !FindsAt(pl, p, m)
  {
    hide HashMap.GetT, HashMap.Placed, CgAt, CgAtT, LabelOf, Stocked, Asks;
    var n := FirstAsk(pl.asks(m), x);
    var f := pl.asks(m)[..n];
    PassPlaced(pl, p, m);
    StaysUnfound(pl.hash, pl.ranges, CgAtT(pl, p, m).alloc, f, x);
    AllStored(pl.ranges, CgAt(pl, p, m).alloc, f);
    assert !SameAsk(pl, CgAt(pl, p, m).alloc, CgAtT(pl, p, m).alloc, pl.asks(m), n);
  }

  lemma {:induction false} FirstAsk(addrs: seq<Addr>, x: string) returns (n: nat)
    requires exists a :: a in addrs && LabelOf(a) == x
    ensures n < |addrs| && LabelOf(addrs[n]) == x && forall a :: a in addrs[..n] ==> LabelOf(a) != x
    decreases |addrs|
  {
    hide LabelOf;
    if a :| a in Front(addrs) && LabelOf(a) == x {
      n := FirstAsk(Front(addrs), x);
      assert addrs[..n] == Front(addrs)[..n];
    } else {
      n := |addrs| - 1;
      assert addrs == Front(addrs) + [addrs[n]];
    }
  }

  /** The first argument of a procedure is passed when so many labels are known that the table has to grow, and a label
      that comes into the same bucket from a higher one is asked for later: the later request does not find it. */
  lemma FirstArgCuts(pl: Plan, p: Code, i: nat, u: nat, x: string, m: nat)
    requires Stocked(pl) && Asks(p, pl.asks) && i < m < |p| && IsArg(p[i]) && p[i].arg1 == ATemp(u) && OpenAt(p, i) != []
    requires (forall j: nat :: j < i ==> !IsArg(p[j])) && LeftAlone(pl, p, x, i + 1, m) && AskedAt(pl, m, x)
    requires x in Loaded(pl, p, i).locs
    requires var t := LoadedT(pl, p, i).table;
             && 7 * t.cap <= 10 * |Loaded(pl, p, i).locs| < 7 * HashMap.Grown(t.cap)
             && pl.hash(TempLabel(u)) % t.cap < pl.hash(x) % t.cap
             && pl.hash(TempLabel(u)) % HashMap.Grown(t.cap) == pl.hash(x) % HashMap.Grown(t.cap)
    ensures HashMap.GetT(pl.hash, LoadedT(pl, p, i).table, x).Some?
    ensures HashMap.GetT(pl.hash, CgAtT(pl, p, m).alloc.table, x).None? && !FindsAt(pl, p, m) && !NothingCut(pl, p)
  {
    hide HashMap.GetT, HashMap.PutT, HashMap.Exact, Loaded, LoadedT, CgAt, CgAtT, TempLabel, Asks, NestAt, Abreast, AbreastLoaded,
         Right, UsesAt, NothingCut, FindsAt, KnownLabel;
    var S, T := Loaded(pl, p, i), LoadedT(pl, p, i);
    BeforeArgs(pl, p, i);
    RefinesLen(pl.hash, T.table, S.locs);
    assert HashMap.GetT(pl.hash, T.table, x) == Some(S.locs[x]);
    MentionedIsAsked(pl, p, i, u) by { assert Mentions(p[i], ATemp(u)); }
    LabelsKnown(pl, p, i);
    KnownNext(pl, TempLabel(u), i);
    assert HashMap.GetT(pl.hash, T.table, TempLabel(u)) == Some(S.locs[TempLabel(u)]);
    var v := ArgWritten(pl, p, i, u);
    Lookups.LostByGrowth(pl.hash, T.table, TempLabel(u), v, x);
    StillUnfound(pl, p, x, i + 1, m);
    LabelsKnown(pl, p, m);
    KnownEarlier(pl, x, i + 1, m);
    NotFoundAt(pl, p, x, m);
    PassExact(pl, p);
  }

  lemma ArgWritten(pl: Plan, p: Code, i: nat, u: nat) returns (v: Loc)
    requires i < |p| && IsArg(p[i]) && p[i].arg1 == ATemp(u) && OpenAt(p, i) != []
    ensures CgAtT(pl, p, i + 1).alloc.table == HashMap.PutT(pl.hash, LoadedT(pl, p, i).table, TempLabel(u), v)
  {
    hide LoadedT, TempLabel, HashMap.PutT, Effect, NestAt, SavedT, CgAtT, Reserve, Offset;
    OpenCalls(pl, p, i);
    var S, g := LoadedT(pl, p, i), CgAtT(pl, p, i).gen;
    v := Placed(Bare(S), TempLabel(u), Calls.Passed(TopCall(g)), i, 0).locs[TempLabel(u)];
    assert CgAtT(pl, p, i + 1).alloc == AfterT(pl, p[i], i, S, g, SavedT(pl, p, i)) by { NextT(pl, p, i); }
  }

  lemma NextT(pl: Plan, p: Code, i: nat)
    requires i < |p|
    ensures CgAtT(pl, p, i + 1).alloc == AfterT(pl, p[i], i, LoadedT(pl, p, i), CgAtT(pl, p, i).gen, SavedT(pl, p, i))
  {
    hide LoadedT, AfterT, Effect, SavedT;
  }

  /** The record has as many calls as are open. */
  lemma {:induction false} OpenCalls(pl: Plan, p: Code, i: nat)
    requires i <= |p|
    ensures |CgAtT(pl, p, i).gen.calls| == |OpenAt(p, i)|
  {
    hide LoadedT, AfterT, SavedT;
    if i > 0 {
      OpenCalls(pl, p, i - 1);
    }
  }

  // ----- the size of the table until then -----

  lemma AskCap(pl: Plan, S: Alloc, S': AllocT, a: Addr)
    requires S'.stacks == S.stacks && S'.lStack == S.lStack && HashMap.Refines(pl.hash, S'.table, S.locs)
    requires 10 * (|Stored(pl.ranges, S, a).locs| - 1) < 7 * S'.table.cap
    ensures StoredT(pl.hash, pl.ranges, S', a).table.cap == S'.table.cap
  {
    hide LabelOf, HashMap.GetT, HashMap.PutT, HashMap.Exact, Stored;
    var key := LabelOf(a);
    RefinesLen(pl.hash, S'.table, S.locs);
    assert HashMap.GetT(pl.hash, S'.table, key) == if key in S.locs then Some(S.locs[key]) else None;
    if key !in S.locs {
      StoredAlone(pl.ranges, S, S', a);
      PutSmall(pl, S'.table, key, Stored(pl.ranges, Bare(S'), a).locs[key]);
    }
  }

  lemma {:induction false} AsksCap(pl: Plan, S: Alloc, S': AllocT, addrs: seq<Addr>)
    requires Refined(pl, S, S') && 10 * (|StoreAll(pl.ranges, S, addrs).locs| - 1) < 7 * S'.table.cap
    ensures StoreAllT(pl.hash, pl.ranges, S', addrs).table.cap == S'.table.cap
    decreases |addrs|
  {
    hide Stored, StoredT, HashMap.Refines;
    if addrs != [] {
      var f, a := Front(addrs), addrs[|addrs| - 1];
      StoredKeeps(pl.ranges, StoreAll(pl.ranges, S, f), a);
      SmallerMap(StoreAll(pl.ranges, S, f).locs, StoreAll(pl.ranges, S, addrs).locs);
      AsksCap(pl, S, S', f);
      AsksRefine(pl, S, S', f);
      AskCap(pl, StoreAll(pl.ranges, S, f), StoreAllT(pl.hash, pl.ranges, S', f), a);
    }
  }

  /** While labels are few enough the table keeps its size. */
  lemma {:induction false} CapBefore(pl: Plan, p: Code, i: nat, n: nat)
    requires i <= n < |p| && Stocked(pl) && Asks(p, pl.asks) && (forall j: nat :: j < n ==> !IsArg(p[j]))
    requires 10 * (|Loaded(pl, p, n).locs| - 1) < 7 * pl.table.cap
    ensures CapAt(pl, p, i) == pl.table.cap && LoadedT(pl, p, i).table.cap == pl.table.cap
  {
    hide Asks, Stocked, CgAt, CgAtT, Loaded, LoadedT, Refined, Abreast, AbreastLoaded, Right, UsesAt, FindsAt;
    if i > 0 {
      CapBefore(pl, p, i - 1, n);
      NextCap(pl, p, i - 1);
    } else {
      StartCap(pl, p);
    }
    BeforeArgs(pl, p, i);
    MoreLabels(pl, p, i, n);
    LoadCap(pl, p, i);
  }

  lemma StartCap(pl: Plan, p: Code)
    ensures CapAt(pl, p, 0) == pl.table.cap
  {
  }

  lemma LoadCap(pl: Plan, p: Code, i: nat)
    requires i < |p| && Refined(pl, CgAt(pl, p, i).alloc, CgAtT(pl, p, i).alloc) && CapAt(pl, p, i) == pl.table.cap
    requires 10 * (|Loaded(pl, p, i).locs| - 1) < 7 * pl.table.cap
    ensures LoadedT(pl, p, i).table.cap == pl.table.cap
  {
    hide CgAt, CgAtT, StoreAll, StoreAllT, Refined;
    AsksCap(pl, CgAt(pl, p, i).alloc, CgAtT(pl, p, i).alloc, pl.asks(i));
  }

  lemma NextCap(pl: Plan, p: Code, i: nat)
    requires i < |p| && !IsArg(p[i])
    ensures CapAt(pl, p, i + 1) == LoadedT(pl, p, i).table.cap
  {
    hide LoadedT, AfterT, SavedT, Effect;
    AfterTable(pl, p[i], i, LoadedT(pl, p, i), CgAtT(pl, p, i).gen, SavedT(pl, p, i));
  }

  lemma MoreLabels(pl: Plan, p: Code, i: nat, n: nat)
    requires i <= n < |p| && Asks(p, pl.asks)
    ensures |Loaded(pl, p, i).locs| <= |Loaded(pl, p, n).locs|
  {
    hide Loaded, KnownLabel, Asks, CgAt;
    LabelsKnown(pl, p, i);
    LabelsKnown(pl, p, n);
    forall x | x in Loaded(pl, p, i).locs
      ensures x in Loaded(pl, p, n).locs
    {
      KnownEarlier(pl, x, i + 1, n + 1);
    }
    SmallerMap(Loaded(pl, p, i).locs, Loaded(pl, p, n).locs);
  }

  // ----- a program -----

  /** The hash of strings, on 64 bits. */
  function Djb2(s: string): nat
  {
    Djb2From(s, 5481)
  }

  function Djb2From(s: string, h: nat): nat
  {
    if s == [] then h else Djb2From(s[1..], (33 * h + s[0] as int) % 0x1_0000_0000_0000_0000)
  }

  const LOCAL := "nu"

  function Zeros(n: nat, rest: Stmt): Stmt
  {
    if n == 0 then rest else Seq(Eval(Const(0)), Zeros(n - 1, rest))
  }

  function CallF(): Stmt
  {
    Eval(Expr.Call(Ident("f", true), ECons(Ident(LOCAL, false), ENil), true))
  }

  /** Eight times `0;`, and then `let nu = 0; f(nu); f(nu);`. */
  function LossyBody(): Stmt
  {
    Zeros(8, Seq(Let(LOCAL, Some(Const(0))), Seq(CallF(), CallF())))
  }

  function Clear(t: nat): Quad
  {
    Q1(Copy, ATemp(t), AConst(0))
  }

  function ZeroQuads(n: nat, c: nat): (r: Code)
    ensures |r| == n && forall i :: 0 <= i < n ==> r[i] == Clear(c + 1 + i)
  {
    if n == 0 then [] else [Clear(c + 1)] + ZeroQuads(n - 1, c + 1)
  }

  function CallQuads(t: nat): Code
  {
    [Q1(HintCall, ANone, ANone), Q1(Copy, ATemp(t), AName(LOCAL, false)), Q1(Arg, ANone, ATemp(t)),
     Q1(Copy, ATemp(t + 1), AName("f", true)), Quad(PCall, ANone, ATemp(t + 1), AConst(1))]
  }

  function LetQuads(): Code
  {
    [Q1(HintLocal, AName(LOCAL, false), ANone), Clear(9), Q1(Copy, AName(LOCAL, false), ATemp(9))]
  }

  function LossyCode(): Code
  {
    ZeroQuads(8, 0) + (LetQuads() + (CallQuads(10) + CallQuads(12)))
  }

  lemma ZeroIs(c: nat)
    ensures StmtCode(Eval(Const(0)), c, 0, 0, 0) == Emitted([Clear(c + 1)], ATemp(c + 1), c + 1, 0)
  {
  }

  lemma {:induction false} ZerosCode(n: nat, rest: Stmt, c: nat)
    ensures StmtCode(Zeros(n, rest), c, 0, 0, 0).code == ZeroQuads(n, c) + StmtCode(rest, c + n, 0, 0, 0).code
    decreases n
  {
    hide StmtCode;
    if n > 0 {
      ZerosCode(n - 1, rest, c + 1);
      ZeroIs(c);
      StmtParts(Zeros(n, rest), c, 0, 0, 0);
    } else {
      assert ZeroQuads(0, c) + StmtCode(rest, c, 0, 0, 0).code == StmtCode(rest, c, 0, 0, 0).code;
    }
  }

  lemma CallFCode(c: nat)
    ensures StmtCode(CallF(), c, 0, 0, 0) == Emitted(CallQuads(c + 1), ANone, c + 2, 0)
  {
    var args := ECons(Ident(LOCAL, false), ENil);
    assert ArgsCode(ENil, c + 1, 0).code == [];
    assert ArgsCode(args, c, 0).code == [Q1(Copy, ATemp(c + 1), AName(LOCAL, false)), Q1(Arg, ANone, ATemp(c + 1))];
    assert ExprCode(Ident("f", true), c + 1, 0).code == [Q1(Copy, ATemp(c + 2), AName("f", true))];
  }

  lemma LossyIs()
    ensures ProcCode(LossyBody(), 0) == LossyCode()
  {
    hide ExprCode;
    var rest := Seq(Let(LOCAL, Some(Const(0))), Seq(CallF(), CallF()));
    ZerosCode(8, rest, 0);
    CallFCode(9);
    CallFCode(11);
    LetIs();
  }

  lemma LetIs()
    ensures StmtCode(Let(LOCAL, Some(Const(0))), 8, 0, 0, 0) == Emitted(LetQuads(), ATemp(9), 9, 0)
  {
  }

  // ----- the pass over it -----

  function NameAsk(a: Operand): seq<Addr>
  {
    if a.AName? then [Var(a.name, 8, a.isFn)] else []
  }

  /** Every operand in turn, names as well as temporaries. */
  function NamedAsks(p: Code): nat -> seq<Addr>
  {
    (i: nat) => if i < |p| && p[i].Quad? then NameAsk(p[i].res) + NameAsk(p[i].arg1) + QuadAsks(p[i]) else []
  }

  /** `f` and n other globals. */
  function Globals(n: nat): (r: HashMap.Chain<string, Loc>)
    ensures |r| == n + 1
  {
    if n == 0 then [("f", InData("f"))] else Globals(n - 1) + [("g_" + Decimal(n), InData("g_" + Decimal(n)))]
  }

  function GlobalLocs(n: nat): map<string, Loc>
  {
    map x | x in set e | e in Globals(n) :: e.0 :: InData(x)
  }

  function GlobalTable(n: nat): Locs
  {
    HashMap.Refill(Djb2, 128, Globals(n))
  }

  function LossyPlan(ranges: map<nat, Range>): Plan
  {
    Plan(ranges, Alloc(map[], GlobalLocs(78), 0), Djb2, GlobalTable(78), NamedAsks(LossyCode()), (i: nat) => [])
  }

  lemma {:induction false} GlobalNames(n: nat, k: nat)
    requires k <= n
    ensures Globals(n)[k] == if k == 0 then ("f", InData("f")) else ("g_" + Decimal(k), InData("g_" + Decimal(k)))
    decreases n
  {
    hide Decimal;
    if k < n {
      GlobalNames(n - 1, k);
    }
  }

  lemma GlobalsDistinct(n: nat)
    ensures HashMap.DistinctKeys(Globals(n))
    ensures forall e :: e in Globals(n) ==> e.1 == InData(e.0) && e.0 != [] && e.0[0] in ['f', 'g']
  {
    hide Globals, Decimal;
    forall i: nat, j: nat | i < j < |Globals(n)|
      ensures Globals(n)[i].0 != Globals(n)[j].0
    {
      GlobalNames(n, i);
      GlobalNames(n, j);
      if i > 0 && Globals(n)[i].0 == Globals(n)[j].0 {
        assert ("g_" + Decimal(i))[2..] == Decimal(i) && ("g_" + Decimal(j))[2..] == Decimal(j);
        DecimalUnique(i, j);
      }
    }
    forall i: nat | i < |Globals(n)|
      ensures var e := Globals(n)[i]; e.1 == InData(e.0) && e.0 != [] && e.0[0] in ['f', 'g']
    {
      GlobalNames(n, i);
    }
  }

  lemma GlobalsStocked(n: nat)
    requires n < 89
    ensures HashMap.Refines(Djb2, GlobalTable(n), GlobalLocs(n)) && GlobalTable(n).cap == 128 && |GlobalLocs(n)| == n + 1
  {
    hide Globals, HashMap.Refill, HashMap.GetT, HashMap.DistinctKeys, HashMap.Exact;
    var es := Globals(n);
    GlobalsDistinct(n);
    Lookups.RefillCap(Djb2, 128, es);
    HashMap.KeyCount(es);
    assert GlobalLocs(n).Keys == set e | e in es :: e.0;
    HashMap.RefillHolds(Djb2, 128, es, "f");
    forall x
      ensures HashMap.GetT(Djb2, GlobalTable(n), x) == if x in GlobalLocs(n) then Some(GlobalLocs(n)[x]) else None
    {
      HashMap.RefillHolds(Djb2, 128, es, x);
      FoundEntry(es, x);
    }
  }

  lemma {:induction false} FoundEntry(es: HashMap.Chain<string, Loc>, x: string)
    requires forall e :: e in es ==> e.1 == InData(e.0)
    ensures HashMap.Find(es, x) == if x in set e | e in es :: e.0 then Some(InData(x)) else None
  {
    if es != [] {
      assert es == [es[0]] + es[1..];
      FoundEntry(es[1..], x);
    }
  }

  lemma PlanIs(ranges: map<nat, Range>)
    ensures var pl := LossyPlan(ranges);
            && pl.hash == Djb2 && pl.table == GlobalTable(78) && pl.table.cap == 128 && pl.start.locs == GlobalLocs(78)
            && pl.asks == NamedAsks(LossyCode()) && Stocked(pl) && |GlobalLocs(78)| == 79
  {
    hide GlobalLocs, GlobalTable, LossyCode, HashMap.Refines, NamedAsks;
    GlobalsStocked(78);
  }

  lemma TempStart(t: nat)
    ensures TempLabel(t)[0] == 'c'
  {
  }

  function TailQuads(): Code
  {
    LetQuads() + (CallQuads(10) + CallQuads(12))
  }

  lemma LossyAt(i: nat)
    requires i < |LossyCode()|
    ensures |LossyCode()| == 21 && LossyCode()[i].Quad?
    ensures LossyCode()[i] == if i < 8 then Clear(i + 1) else TailQuads()[i - 8]
  {
    assert i < 8 || i - 8 in {0, 1, 2, 3, 4, 5, 6} || i - 8 in {7, 8, 9, 10, 11, 12};
  }

  lemma TailNames(k: nat)
    requires k < 13
    ensures var q := TailQuads()[k];
            && (q.res.AName? ==> q.res.name == LOCAL) && (q.arg1.AName? ==> q.arg1.name == (if q.arg1.isFn then "f" else LOCAL))
  {
    assert k in {0, 1, 2, 3, 4, 5, 6} || k in {7, 8, 9, 10, 11, 12};
  }

  lemma PlainNames()
    ensures PlainName(LOCAL) && PlainName("f")
  {
    forall t: nat
      ensures TempLabel(t) != LOCAL && TempLabel(t) != "f"
    {
      TempStart(t);
      assert LOCAL[0] == 'n' && "f"[0] == 'f';
    }
  }

  lemma LossyAsks()
    ensures Asks(LossyCode(), NamedAsks(LossyCode()))
  {
    hide LossyCode, QuadAsks, TempLabel, TailQuads, Mentions;
    var p := LossyCode();
    PlainNames();
    forall i: nat | i < |p|
      ensures forall a :: a in NamedAsks(p)(i) ==> GoodAsk(p[i], a)
      ensures forall t: nat :: Mentions(p[i], ATemp(t)) ==> exists a :: a in NamedAsks(p)(i) && a.Cgt? && a.t == t
    {
      QuadAsksGood(p[i]);
      LossyAt(i);
      if i >= 8 {
        TailNames(i - 8);
      }
      forall t: nat | Mentions(p[i], ATemp(t))
        ensures exists a :: a in NamedAsks(p)(i) && a.Cgt? && a.t == t
      {
        assert Cgt(t, 8, []) in NamedAsks(p)(i);
      }
    }
  }

  function TempSet(n: nat): (r: set<string>)
  {
    if n == 0 then {} else TempSet(n - 1) + {TempLabel(n)}
  }

  lemma {:induction false} TempSetSize(n: nat)
    ensures |TempSet(n)| == n && forall x :: x in TempSet(n) <==> exists t: nat :: 1 <= t <= n && x == TempLabel(t)
  {
    hide TempLabel;
    if n > 0 {
      TempSetSize(n - 1);
      if TempLabel(n) in TempSet(n - 1) {
        var t: nat :| 1 <= t <= n - 1 && TempLabel(n) == TempLabel(t);
        TempLabelUnique(n, t);
      }
    }
  }

  /** What has been asked for when the first argument is passed. */
  lemma AskedSoFar(ranges: map<nat, Range>, x: string)
    ensures (exists j: nat :: j < 14 && AskedAt(LossyPlan(ranges), j, x)) <==> x == LOCAL || x in TempSet(10)
  {
    hide TempLabel, LossyCode, TailQuads, TempSet, AskedAt, LossyPlan;
    TempSetSize(10);
    forall j: nat | j < 14
      ensures AskedAt(LossyPlan(ranges), j, x) ==> x == LOCAL || x in TempSet(10)
    {
      if AskedAt(LossyPlan(ranges), j, x) {
        AskedEarly(ranges, j, x);
      }
    }
    if x == LOCAL {
      EarlyAsks(8);
      AskedHere(ranges, 8, Var(LOCAL, 8, false));
    } else if x in TempSet(10) {
      var t: nat :| 1 <= t <= 10 && x == TempLabel(t);
      var j := if t <= 8 then t - 1 else if t == 9 then 9 else 12;
      EarlyAsks(j);
      AskedHere(ranges, j, Cgt(t, 8, []));
    }
  }

  lemma AskedHere(ranges: map<nat, Range>, j: nat, a: Addr)
    requires a in NamedAsks(LossyCode())(j)
    ensures AskedAt(LossyPlan(ranges), j, LabelOf(a))
  {
    hide LossyCode, TempLabel, GlobalLocs, GlobalTable, NamedAsks;
  }

  lemma EarlyAsks(j: nat)
    requires j < 14
    ensures var asks := NamedAsks(LossyCode())(j);
            && (j < 8 ==> asks == [Cgt(j + 1, 8, [])])
            && (j == 8 ==> asks == [Var(LOCAL, 8, false)])
            && (j == 9 ==> asks == [Cgt(9, 8, [])])
            && (j == 10 ==> asks == [Var(LOCAL, 8, false), Cgt(9, 8, [])])
            && (j == 11 ==> asks == [])
            && (j == 12 ==> asks == [Var(LOCAL, 8, false), Cgt(10, 8, [])])
            && (j == 13 ==> asks == [Cgt(10, 8, [])])
  {
    hide LossyCode;
    assert |LossyCode()| == 21 by { LossyAt(0) by { SizeIs(); } }
    LossyAt(j);
  }

  lemma SizeIs()
    ensures |LossyCode()| == 21
  {
  }

  lemma AskedEarly(ranges: map<nat, Range>, j: nat, x: string)
    requires j < 14 && AskedAt(LossyPlan(ranges), j, x)
    ensures x == LOCAL || x in TempSet(10)
  {
    hide TempLabel, LossyCode, TempSet, GlobalLocs, GlobalTable, NamedAsks;
    EarlyAsks(j);
    TempSetSize(10);
    var a :| a in NamedAsks(LossyCode())(j) && LabelOf(a) == x;
  }

  lemma {:induction false} Djb2Step(s: string, h: nat)
    requires s != [] && 33 * h + s[0] as int < 0x1_0000_0000_0000_0000
    ensures Djb2From(s, h) == Djb2From(s[1..], 33 * h + s[0] as int)
  {
  }

  lemma TwoHashes()
    ensures Djb2(LOCAL) == 5972556 && Djb2(TempLabel(10)) == 6503695884
  {
    hide Djb2From;
    assert LOCAL[1..] == "u" && "u"[1..] == "";
    Djb2Step(LOCAL, 5481);
    Djb2Step("u", 180983);
    assert Decimal(1) == "1" && Decimal(10) == "10" && TempLabel(10) == "c_10";
    assert "c_10"[1..] == "_10" && "_10"[1..] == "10" && "10"[1..] == "0" && "0"[1..] == "";
    Djb2Step("c_10", 5481);
    Djb2Step("_10", 180972);
    Djb2Step("10", 5972171);
    Djb2Step("0", 197081692);
    assert forall h: nat :: Djb2From("", h) == h by { Djb2Ends(); }
  }

  lemma Djb2Ends()
    ensures forall h: nat :: Djb2From("", h) == h
  {
  }

  lemma LossyLabels(ranges: map<nat, Range>)
    ensures |LossyCode()| == 21 && |Loaded(LossyPlan(ranges), LossyCode(), 13).locs| == 90
    ensures LOCAL in Loaded(LossyPlan(ranges), LossyCode(), 13).locs
  {
    hide LossyCode, LossyPlan, NamedAsks, GlobalLocs, GlobalTable, Loaded, TempSet, TempLabel, AskedAt, Asks, Stocked;
    SizeIs();
    var pl, p := LossyPlan(ranges), LossyCode();
    var locs := Loaded(pl, p, 13).locs;
    LossyAsks();
    PlanIs(ranges);
    LabelsKnown(pl, p, 13);
    TempSetSize(10);
    var names := {LOCAL} + TempSet(10);
    forall x
      ensures x in locs <==> x in GlobalLocs(78) || x in names
      ensures x in GlobalLocs(78) ==> x !in names
    {
      AskedSoFar(ranges, x);
      assert x in locs <==> KnownLabel(pl, x, 14);
      if x in GlobalLocs(78) {
        NotGlobal(x);
      }
    }
    assert LOCAL !in TempSet(10) by { PlainNames(); }
    assert locs.Keys == GlobalLocs(78).Keys + names;
    Disjoint(GlobalLocs(78).Keys, names);
  }

  lemma NotGlobal(x: string)
    requires x in GlobalLocs(78)
    ensures x != LOCAL && x !in TempSet(10)
  {
    hide Globals, TempLabel, TempSet, HashMap.DistinctKeys;
    GlobalsDistinct(78);
    TempSetSize(10);
    var e :| e in Globals(78) && e.0 == x;
    if x in TempSet(10) {
      var t: nat :| x == TempLabel(t);
      TempStart(t);
    }
  }

  lemma LossyShape(i: nat)
    requires i < 21
    ensures |LossyCode()| == 21
    ensures IsArg(LossyCode()[i]) ==> i in {13, 18} && LossyCode()[13].arg1 == ATemp(10)
    ensures IsHint(LossyCode()[i]) <==> i in {11, 16}
    ensures IsCall(LossyCode()[i]) <==> i in {15, 20}
    ensures i == 13 ==> IsArg(LossyCode()[i])
  {
    hide LossyCode;
    SizeIs();
    LossyAt(i);
    LossyAt(13);
    assert i < 8 || i - 8 in {0, 1, 2, 3, 4, 5, 6} || i - 8 in {7, 8, 9, 10, 11, 12};
  }

  lemma {:induction false} NoneOpen(i: nat)
    requires i <= 11 && |LossyCode()| == 21
    ensures NestAt(LossyCode(), i) == Nest(0, [], [])
  {
    hide LossyCode;
    if i > 0 {
      NoneOpen(i - 1);
      LossyShape(i - 1);
    }
  }

  lemma OneOpen()
    ensures |LossyCode()| == 21 && OpenAt(LossyCode(), 13) != []
  {
    hide LossyCode;
    SizeIs();
    NoneOpen(11);
    LossyShape(11);
    LossyShape(12);
    var p := LossyCode();
    assert NestAt(p, 12) == Enter(p[11], NestAt(p, 11)) && NestAt(p, 13) == Enter(p[12], NestAt(p, 12));
  }

  lemma LateAsks(j: nat)
    requires 14 <= j < 18
    ensures var asks := NamedAsks(LossyCode())(j);
            && (j == 14 ==> asks == [Var("f", 8, true), Cgt(11, 8, [])])
            && (j == 15 ==> asks == [Cgt(11, 8, [])])
            && (j == 16 ==> asks == [])
            && (j == 17 ==> asks == [Var(LOCAL, 8, false), Cgt(12, 8, [])])
  {
    hide LossyCode;
    SizeIs();
    LossyAt(j);
  }

  lemma LaterAsks(ranges: map<nat, Range>)
    ensures LeftAlone(LossyPlan(ranges), LossyCode(), LOCAL, 14, 17) && AskedAt(LossyPlan(ranges), 17, LOCAL)
  {
    hide LossyCode, LossyPlan, GlobalLocs, GlobalTable, TempLabel, Stocked, NamedAsks;
    SizeIs();
    PlainNames();
    PlanIs(ranges);
    forall j: nat | 14 <= j < 17
      ensures !AskedAt(LossyPlan(ranges), j, LOCAL) && !IsArg(LossyCode()[j])
    {
      LateAsks(j);
      LossyShape(j);
    }
    LateAsks(17);
    AskedHere(ranges, 17, Var(LOCAL, 8, false));
  }

  lemma LossyCap(ranges: map<nat, Range>)
    ensures |LossyCode()| == 21 && LoadedT(LossyPlan(ranges), LossyCode(), 13).table.cap == 128
  {
    hide LossyCode, LossyPlan, GlobalLocs, GlobalTable, NamedAsks, Loaded, LoadedT, CgAtT, Stocked, Asks;
    LossyLabels(ranges);
    LossyAsks();
    PlanIs(ranges);
    forall j: nat | j < 13
      ensures !IsArg(LossyCode()[j])
    {
      LossyShape(j);
    }
    CapBefore(LossyPlan(ranges), LossyCode(), 13, 13);
  }

  lemma LossyCuts(ranges: map<nat, Range>)
    ensures var p, pl := LossyCode(), LossyPlan(ranges);
            && |p| == 21 && Stocked(pl) && Asks(p, pl.asks)
            && HashMap.GetT(pl.hash, LoadedT(pl, p, 13).table, LOCAL).Some?
            && HashMap.GetT(pl.hash, CgAtT(pl, p, 17).alloc.table, LOCAL).None?
            && !FindsAt(pl, p, 17) && !NothingCut(pl, p)
  {
    hide LossyCode, LossyPlan, GlobalLocs, GlobalTable, NamedAsks, Loaded, LoadedT, CgAt, CgAtT, TempLabel, NestAt,
         LeftAlone, AskedAt, HashMap.GetT, FindsAt, NothingCut, Djb2, Stocked, Asks;
    var p, pl := LossyCode(), LossyPlan(ranges);
    LossyLabels(ranges);
    LossyAsks();
    PlanIs(ranges);
    forall j: nat | j < 13
      ensures !IsArg(p[j])
    {
      LossyShape(j);
    }
    LossyShape(13);
    OneOpen();
    assert Djb2(TempLabel(10)) % 128 < Djb2(LOCAL) % 128 && Djb2(TempLabel(10)) % 192 == Djb2(LOCAL) % 192 by { TwoHashes(); }
    LaterAsks(ranges);
    LossyCap(ranges);
    FirstArgCuts(pl, p, 13, 10, LOCAL, 17);
  }

  /** In a procedure `0; 0; 0; 0; 0; 0; 0; 0; let nu = 0; f(nu); f(nu);` of a program with 79 globals the second call
      does not find the local variable that the first one found, and gets a new slot for it. */
  lemma LocalLost(ranges: map<nat, Range>)
    ensures var p, pl := ProcCode(LossyBody(), 0), LossyPlan(ranges);
            && |p| == 21 && Stocked(pl) && Asks(p, pl.asks)
            && HashMap.GetT(pl.hash, LoadedT(pl, p, 13).table, LOCAL).Some?
            && HashMap.GetT(pl.hash, CgAtT(pl, p, 17).alloc.table, LOCAL).None?
            && !FindsAt(pl, p, 17) && !NothingCut(pl, p)
    ensures var S := CgAtT(LossyPlan(ranges), LossyCode(), 17).alloc;
            |LossyCode()| == 21 && StoredT(Djb2, ranges, S, Var(LOCAL, 8, false)).lStack == S.lStack + 8
  {
    hide ProcCode, LossyCode, LossyPlan, LoadedT, CgAtT, HashMap.GetT, FindsAt, NothingCut, Djb2, Stocked, Asks, StoredT;
    LossyIs();
    LossyCuts(ranges);
    PlanIs(ranges);
    NewSlot(Djb2, ranges, CgAtT(LossyPlan(ranges), LossyCode(), 17).alloc, Var(LOCAL, 8, false));
  }

  lemma NewSlot(hash: Hash, ranges: map<nat, Range>, S: AllocT, a: Addr)
    requires a.Var? && !a.inData && HashMap.GetT(hash, S.table, a.name).None?
    ensures StoredT(hash, ranges, S, a).lStack == S.lStack + a.size
  {
    hide HashMap.GetT;
  }
}
