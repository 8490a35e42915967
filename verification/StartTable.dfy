/** The hash map of locations where a procedure starts: the globals of the one before, and the parameters. */
module StartTable {
  import opened Ast
  import opened Nests
  import opened RegAlloc
  import opened Frames
  import HashMap
  import Lookups

  // ----- from one procedure to the next -----

  const CAPACITY: nat := 128

  /** The locations in the data segment. */
  function InSegment(es: HashMap.Chain<string, Loc>): HashMap.Chain<string, Loc>
  {
    if es == [] then []
    else
      var n := |es| - 1;
      InSegment(es[..n]) + if es[n].1.InData? then [es[n]] else []
  }

  /** A new map with the old one's locations in the data segment. */
  function Relocated(hash: Hash, t: Locs): Locs
  {
    HashMap.Refill(hash, CAPACITY, InSegment(HashMap.Entries(t.buckets)))
  }

  lemma {:induction false} RefillStays(hash: Hash, cap: nat, es: HashMap.Chain<string, Loc>)
    requires cap >= 1 && 10 * |es| < 7 * cap + 10
    ensures HashMap.Refill(hash, cap, es).cap == cap && HashMap.Refill(hash, cap, es).len <= |es|
  {
    if es != [] {
      RefillStays(hash, cap, es[..|es| - 1]);
    }
  }

  /** The new map has room for 128 chains, and it does not grow while it is filled with up to 90 locations. */
  lemma StartRoom(hash: Hash, t: Locs)
    ensures Relocated(hash, t).cap >= 128
    ensures |InSegment(HashMap.Entries(t.buckets))| <= 90 ==> Relocated(hash, t).cap == 128
  {
    var es := InSegment(HashMap.Entries(t.buckets));
    HashMap.RefillCap(hash, CAPACITY, es);
    if |es| <= 90 {
      RefillStays(hash, CAPACITY, es);
    }
  }

  function OnlyData(a: Option<Loc>): Option<Loc>
  {
    if a.Some? && a.value.InData? then a else None
  }

  lemma {:induction false} SegmentOf(es: HashMap.Chain<string, Loc>)
    ensures forall e :: e in InSegment(es) <==> e in es && e.1.InData?
  {
    if es != [] {
      var n := |es| - 1;
      SegmentOf(es[..n]);
      assert es == es[..n] + [es[n]];
    }
  }

  lemma {:induction false} SegmentDistinct(es: HashMap.Chain<string, Loc>)
    requires HashMap.DistinctKeys(es)
    ensures HashMap.DistinctKeys(InSegment(es))
  {
    if es != [] {
      var n := |es| - 1;
      SegmentDistinct(es[..n]);
      SegmentOf(es[..n]);
      forall i | 0 <= i < |InSegment(es[..n])|
        ensures InSegment(es[..n])[i].0 != es[n].0
      {
        assert InSegment(es[..n])[i] in es[..n];
      }
      HashMap.DistinctAppend(InSegment(es[..n]), [es[n]]);
    }
  }

  lemma {:induction false} SegmentFound(es: HashMap.Chain<string, Loc>, x: string)
    requires HashMap.DistinctKeys(es)
    ensures HashMap.Find(InSegment(es), x) == OnlyData(HashMap.Find(es, x))
  {
    hide HashMap.Find;
    if es == [] {
      assert HashMap.Find(es, x) == None by { NothingFound(x); }
    } else {
      var n := |es| - 1;
      SegmentFound(es[..n], x);
      assert es == es[..n] + [es[n]];
      HashMap.FindAppend(es[..n], [es[n]], x);
      HashMap.FindAppend(InSegment(es[..n]), [es[n]], x);
      assert HashMap.Find(es[..n], es[n].0).None? by { HashMap.FindSome(es[..n], es[n].0); }
      assert InSegment(es[..n]) + [] == InSegment(es[..n]);
      FindOne(es[n], x);
    }
  }

  lemma NothingFound(x: string)
    ensures HashMap.Find<string, Loc>([], x) == None
  {
  }

  lemma FindOne(e: (string, Loc), x: string)
    ensures HashMap.Find([e], x) == if e.0 == x then Some(e.1) else None
  {
  }

  /** Exactly the locations in the data segment go over to the next procedure, whatever rehashing that takes. */
  lemma RelocationKeeps(hash: Hash, t: Locs, x: string)
    requires HashMap.Placed(hash, t)
    ensures HashMap.Exact(hash, Relocated(hash, t))
    ensures HashMap.GetT(hash, Relocated(hash, t), x) == OnlyData(HashMap.GetT(hash, t, x))
  {
    hide HashMap.Refill, HashMap.GetT, HashMap.Exact, HashMap.Placed, HashMap.DistinctKeys;
    var es := HashMap.Entries(t.buckets);
    assert t.buckets[..t.cap] == t.buckets;
    HashMap.EntriesDistinct(hash, t, t.cap);
    SegmentFound(es, x);
    SegmentDistinct(es);
    HashMap.GetIsFind(hash, t, x);
    HashMap.RefillHolds(hash, CAPACITY, InSegment(es), x);
  }

  /** The map a procedure starts with. */
  method ResetLocMap(prev: HashMap.ChainedMap<string, Loc>) returns (m: HashMap.ChainedMap<string, Loc>)
    requires HashMap.Shaped(prev.State())
    ensures fresh(m) && m.hash == prev.hash && HashMap.Shaped(m.State()) && m.State() == Relocated(prev.hash, prev.State())
  {
    hide HashMap.Refill, HashMap.PutT, HashMap.Exact;
    m := new HashMap.ChainedMap(prev.hash, CAPACITY);
    ghost var hash := prev.hash;
    NoneYet(hash, prev.buckets);
    for i := 0 to prev.cap
      invariant fresh(m) && m.hash == hash && HashMap.Shaped(m.State())
      invariant m.State() == HashMap.Refill(hash, CAPACITY, InSegment(HashMap.Entries(prev.buckets[..i])))
    {
      var chain := prev.buckets[i];
      ghost var before := HashMap.Entries(prev.buckets[..i]);
      assert before + chain[..0] == before;
      for j := 0 to |chain|
        invariant m.hash == hash && HashMap.Shaped(m.State())
        invariant m.State() == HashMap.Refill(hash, CAPACITY, InSegment(before + chain[..j]))
      {
        NextEntry(before, chain, j);
        ghost var es := InSegment(before + chain[..j]);
        assert es + [] == es;
        if chain[j].1.InData? {
          HashMap.RefillNext(hash, CAPACITY, es, chain[j]);
          m.Put(chain[j].0, chain[j].1);
        }
      }
      assert before + chain[..|chain|] == HashMap.Entries(prev.buckets[..i + 1]) by { NextBucket(prev.buckets, i); }
    }
    assert prev.buckets[..prev.cap] == prev.buckets;
  }

  lemma NoneYet(hash: Hash, buckets: seq<HashMap.Chain<string, Loc>>)
    ensures HashMap.Fresh(CAPACITY) == HashMap.Refill(hash, CAPACITY, InSegment(HashMap.Entries(buckets[..0])))
  {
  }

  lemma NextEntry(before: HashMap.Chain<string, Loc>, chain: HashMap.Chain<string, Loc>, j: nat)
    requires j < |chain|
    ensures InSegment(before + chain[..j + 1]) == InSegment(before + chain[..j]) + if chain[j].1.InData? then [chain[j]] else []
  {
    var es := before + chain[..j + 1];
    assert es[..|es| - 1] == before + chain[..j] && es[|es| - 1] == chain[j];
  }

  lemma NextBucket(buckets: seq<HashMap.Chain<string, Loc>>, i: nat)
    requires i < |buckets|
    ensures HashMap.Entries(buckets[..i]) + buckets[i][..|buckets[i]|] == HashMap.Entries(buckets[..i + 1])
  {
    assert buckets[..i + 1][..i] == buckets[..i] && buckets[i][..|buckets[i]|] == buckets[i];
  }

  // ----- parameters -----

  /** A parameter that comes in a register and is spilled: the other locations are still found if and only if the
      parameter's label is the last of its chain when its slot is written, in the table as it is then. */
  lemma SpillExact(hash: Hash, S: AllocT, x: string, size: nat, k: nat, pad: nat)
    requires HashMap.Exact(hash, S.table) && HashMap.GetT(hash, S.table, x).None? && k < |PARAM_ORDER|
    ensures var t1 := PlacedT(hash, S, x, k, 0, pad).table;
            LastThen(hash, t1, x) <==>
            forall y :: y != x ==> HashMap.GetT(hash, ReceivedT(hash, S, x, size, k, pad).table, y) == HashMap.GetT(hash, S.table, y)
  {
    hide HashMap.GetT, HashMap.PutT, HashMap.Exact, HashMap.Placed, HashMap.Roomy, HashMap.Write, HashMap.LastIn, Offset, Reserve;
    var t1, v1, v2 := PlacedT(hash, S, x, k, 0, pad).table, InReg(PARAM_ORDER[k]), OnStack(Offset(0 - S.lStack - size), size);
    var t2 := ReceivedT(hash, S, x, size, k, pad).table;
    assert t1 == HashMap.PutT(hash, S.table, x, v1) && t2 == HashMap.PutT(hash, t1, x, v2);
    forall y
      ensures HashMap.GetT(hash, t1, y) == if y == x then Some(v1) else HashMap.GetT(hash, S.table, y)
      ensures HashMap.Exact(hash, t1)
    {
      HashMap.PutAbsent(hash, S.table, x, v1, y);
    }
    HashMap.PutAbsent(hash, S.table, x, v1, x);
    HashMap.ExactPlaced(hash, t1);
    HashMap.PutParts(hash, t1, x, v2);
    forall y
      ensures HashMap.GetT(hash, HashMap.Roomy(hash, t1), y) == HashMap.GetT(hash, t1, y)
      ensures HashMap.Placed(hash, HashMap.Roomy(hash, t1))
    {
      Lookups.RoomyKeeps(hash, t1, y);
    }
    Lookups.RoomyKeeps(hash, t1, x);
    HashMap.OverwriteExact(hash, HashMap.Roomy(hash, t1), x, v2);
  }

  /** The label is last in its chain, in the table into which it is written. */
  predicate LastThen(hash: Hash, t: Locs, x: string)
  {
    var t1 := HashMap.Roomy(hash, t); HashMap.LastIn(t1.buckets[hash(x) % t1.cap], x)
  }

  /** The parameters of a procedure, in order. */
  function ReceiveAllT(hash: Hash, S: AllocT, params: seq<(string, nat)>, pad: nat): AllocT
  {
    if params == [] then S
    else
      var n := |params| - 1;
      ReceivedT(hash, ReceiveAllT(hash, S, Front(params), pad), params[n].0, params[n].1, n, pad)
  }

  /** Every parameter that is spilled finds its label last. */
  ghost predicate SpillsLast(hash: Hash, S: AllocT, params: seq<(string, nat)>, pad: nat)
  {
    forall n: nat :: n < |params| && n < |PARAM_ORDER| ==>
      LastThen(hash, PlacedT(hash, ReceiveAllT(hash, S, params[..n], pad), params[n].0, n, 0, pad).table, params[n].0)
  }

  /** One parameter: the table stays the map of the locations given. */
  lemma ReceivedRefines(hash: Hash, S: Alloc, S': AllocT, x: string, size: nat, k: nat, pad: nat)
    requires S'.stacks == S.stacks && S'.lStack == S.lStack && HashMap.Refines(hash, S'.table, S.locs) && x !in S.locs
    requires k < |PARAM_ORDER| ==> LastThen(hash, PlacedT(hash, S', x, k, 0, pad).table, x)
    ensures var A, B := Received(S, x, size, k, pad), ReceivedT(hash, S', x, size, k, pad);
            B.stacks == A.stacks && B.lStack == A.lStack && HashMap.Refines(hash, B.table, A.locs)
  {
    hide HashMap.GetT, HashMap.PutT, HashMap.Exact, HashMap.Roomy, HashMap.LastIn, Offset, Reserve;
    var v := if k < |PARAM_ORDER| then InReg(PARAM_ORDER[k]) else InCaller(Offset(8 + pad + 8 * (k + 1 - |PARAM_ORDER|)));
    assert HashMap.GetT(hash, S'.table, x) == None;
    HashMap.OneRefines(hash, S'.table, S.locs, HashMap.OpPut(x, v));
    var t1 := PlacedT(hash, S', x, k, 0, pad).table;
    if k < |PARAM_ORDER| {
      HashMap.OneRefines(hash, t1, S.locs[x := v], HashMap.OpPut(x, OnStack(Offset(0 - S.lStack - size), size)));
      assert S.locs[x := v][x := OnStack(Offset(0 - S.lStack - size), size)] == S.locs[x := OnStack(Offset(0 - S.lStack - size), size)];
    }
  }

  /** So the pass starts with a table that finds every parameter and every global where it is. */
  lemma {:induction false} ParametersStocked(hash: Hash, S: Alloc, S': AllocT, params: seq<(string, nat)>, pad: nat)
    requires S'.stacks == S.stacks && S'.lStack == S.lStack && HashMap.Refines(hash, S'.table, S.locs)
    requires (forall i, j :: 0 <= i < j < |params| ==> params[i].0 != params[j].0)
    requires (forall i :: 0 <= i < |params| ==> params[i].0 !in S.locs) && SpillsLast(hash, S', params, pad)
    ensures var A, B := ReceiveAll(S, params, pad), ReceiveAllT(hash, S', params, pad);
            && B.stacks == A.stacks && B.lStack == A.lStack && HashMap.Refines(hash, B.table, A.locs)
            && forall x :: x in A.locs ==> x in S.locs || exists i :: 0 <= i < |params| && params[i].0 == x
    decreases |params|
  {
    hide HashMap.Refines, Received, ReceivedT, LastThen, PlacedT, SpillsLast;
    if params != [] {
      var n, f := |params| - 1, Front(params);
      FewerSpills(hash, S', params, pad);
      ParametersStocked(hash, S, S', f, pad);
      var A := ReceiveAll(S, f, pad);
      ReceivedGrows(A, params[n].0, params[n].1, n, pad);
      ReceivedRefines(hash, A, ReceiveAllT(hash, S', f, pad), params[n].0, params[n].1, n, pad);
    }
  }

  lemma FewerSpills(hash: Hash, S: AllocT, params: seq<(string, nat)>, pad: nat)
    requires params != [] && SpillsLast(hash, S, params, pad)
    ensures SpillsLast(hash, S, Front(params), pad)
    ensures var n := |params| - 1;
            n < |PARAM_ORDER| ==>
              LastThen(hash, PlacedT(hash, ReceiveAllT(hash, S, Front(params), pad), params[n].0, n, 0, pad).table, params[n].0)
  {
    hide LastThen, ReceiveAllT, PlacedT;
    var f := Front(params);
    assert params[..|params| - 1] == f;
    forall n: nat | n < |f| && n < |PARAM_ORDER|
      ensures LastThen(hash, PlacedT(hash, ReceiveAllT(hash, S, f[..n], pad), f[n].0, n, 0, pad).table, f[n].0)
    {
      assert f[..n] == params[..n] && f[n] == params[n];
    }
  }

  /** Where putting the parameter's label does not fill the table, it is last: it has just been put. */
  lemma JustPut(hash: Hash, t: Locs, x: string, v: Loc)
    requires HashMap.GetT(hash, t, x).None? && !HashMap.NeedsRehash(t) && !HashMap.NeedsRehash(HashMap.PutT(hash, t, x, v))
    ensures LastThen(hash, HashMap.PutT(hash, t, x, v), x)
  {
    HashMap.PutParts(hash, t, x, v);
    HashMap.PutNew(t.buckets[hash(x) % t.cap], x, v);
  }
}
