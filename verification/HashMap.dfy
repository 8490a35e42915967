/** The chained hash map: a new table is filled through `put` itself, which may rehash again. */
module HashMap {
  import opened Ast

  type Chain<K, V> = seq<(K, V)>

  datatype Table<K, V> = Table(cap: nat, len: nat, buckets: seq<Chain<K, V>>)

  // ----- chains -----

  function Find<K(==), V>(c: Chain<K, V>, k: K): Option<V>
  {
    if c == [] then None else if c[0].0 == k then Some(c[0].1) else Find(c[1..], k)
  }

  /** Writing to a chain: at the bucket that holds the key, or at a new one. What followed is cut off. */
  function ChainPut<K(==), V>(c: Chain<K, V>, k: K, v: V): (r: Chain<K, V>)
    ensures |r| <= |c| + 1
  {
    if c == [] || c[0].0 == k then [(k, v)] else [c[0]] + ChainPut(c[1..], k, v)
  }

  function ChainPop<K(==), V>(c: Chain<K, V>, k: K): (r: Chain<K, V>)
  {
    if c == [] then [] else if c[0].0 == k then c[1..] else [c[0]] + ChainPop(c[1..], k)
  }

  function Entries<K, V>(bs: seq<Chain<K, V>>): Chain<K, V>
  {
    if bs == [] then [] else Entries(bs[..|bs| - 1]) + bs[|bs| - 1]
  }

  ghost predicate DistinctKeys<K, V>(c: Chain<K, V>)
  {
    forall i, j :: 0 <= i < j < |c| ==> c[i].0 != c[j].0
  }

  // ----- the table -----

  function Empties<K, V>(n: nat): (r: seq<Chain<K, V>>)
    ensures |r| == n && forall i :: 0 <= i < n ==> r[i] == []
  {
    seq(n, _ => [])
  }

  function Fresh<K, V>(cap: nat): Table<K, V>
  {
    Table(cap, 0, Empties(cap))
  }

  /** Load of at least 0.7. */
  predicate NeedsRehash<K, V>(t: Table<K, V>)
  {
    10 * t.len >= 7 * t.cap
  }

  /** One and a half times, truncated; 1 stays 1. */
  function Grown(cap: nat): nat
  {
    cap * 3 / 2
  }

  predicate Shaped<K, V>(t: Table<K, V>)
  {
    t.cap >= 1 && |t.buckets| == t.cap
  }

  function Count<K, V>(t: Table<K, V>): nat
  {
    |Entries(t.buckets)|
  }

  function Write<K(==), V>(hash: K -> nat, t: Table<K, V>, k: K, v: V): (r: Table<K, V>)
    requires Shaped(t)
    ensures Shaped(r) && r.cap == t.cap
  {
    var i := hash(k) % t.cap;
    Table(t.cap, if Find(t.buckets[i], k).Some? then t.len else t.len + 1, t.buckets[i := ChainPut(t.buckets[i], k, v)])
  }

  lemma {:induction false} EntriesLength<K, V>(bs: seq<Chain<K, V>>, i: nat, c: Chain<K, V>)
    requires i < |bs|
    ensures |Entries(bs[i := c])| == |Entries(bs)| - |bs[i]| + |c|
    decreases |bs|
  {
    var n := |bs| - 1;
    if i < n {
      EntriesLength(bs[..n], i, c);
      assert bs[i := c][..n] == bs[..n][i := c];
    } else {
      assert bs[i := c][..n] == bs[..n];
    }
  }

  lemma {:induction false} EmptyEntries<K, V>(n: nat)
    ensures Entries<K, V>(Empties(n)) == []
  {
    if n > 0 {
      EmptyEntries<K, V>(n - 1);
      assert Empties<K, V>(n)[..n - 1] == Empties<K, V>(n - 1);
    }
  }

  /** The table after `put`. It ends for any capacity of at least 1, because refilling n entries puts them
      into tables of fewer than n. */
  function PutT<K(==), V>(hash: K -> nat, t: Table<K, V>, k: K, v: V): (r: Table<K, V>)
    requires Shaped(t)
    ensures Shaped(r) && Count(r) <= Count(t) + 1
    decreases Count(t), 1
  {
    var t1 := if NeedsRehash(t) then RehashT(hash, t) else t;
    var i := hash(k) % t1.cap;
    EntriesLength(t1.buckets, i, ChainPut(t1.buckets[i], k, v));
    Write(hash, t1, k, v)
  }

  function RehashT<K(==), V>(hash: K -> nat, t: Table<K, V>): (r: Table<K, V>)
    requires Shaped(t)
    ensures Shaped(r) && Count(r) <= Count(t)
    decreases Count(t), 0, 1
  {
    Refill(hash, Grown(t.cap), Entries(t.buckets))
  }

  /** A new table with these entries put into it one after the other. */
  function Refill<K(==), V>(hash: K -> nat, cap: nat, es: Chain<K, V>): (r: Table<K, V>)
    requires cap >= 1
    ensures Shaped(r) && Count(r) <= |es|
    decreases |es|, 0, 0
  {
    if es == [] then EmptyEntries<K, V>(cap); Fresh(cap)
    else
      var n := |es| - 1;
      PutT(hash, Refill(hash, cap, es[..n]), es[n].0, es[n].1)
  }

  function PopT<K(==), V>(hash: K -> nat, t: Table<K, V>, k: K): (r: Table<K, V>)
    requires Shaped(t)
    ensures Shaped(r)
  {
    var i := hash(k) % t.cap;
    if Find(t.buckets[i], k).None? then t
    else Table(t.cap, if t.len > 0 then t.len - 1 else 0, t.buckets[i := ChainPop(t.buckets[i], k)])
  }

  function GetT<K(==), V>(hash: K -> nat, t: Table<K, V>, k: K): Option<V>
    requires Shaped(t)
  {
    Find(t.buckets[hash(k) % t.cap], k)
  }

  // ----- what every operation keeps -----

  /** Every key is in its own bucket and in no chain twice. */
  ghost predicate Placed<K, V>(hash: K -> nat, t: Table<K, V>)
    requires Shaped(t)
  {
    forall i :: 0 <= i < t.cap ==>
      DistinctKeys(t.buckets[i]) && forall j :: 0 <= j < |t.buckets[i]| ==> hash(t.buckets[i][j].0) % t.cap == i
  }

  /** `len` is the number of entries. */
  ghost predicate Exact<K, V>(hash: K -> nat, t: Table<K, V>)
    requires Shaped(t)
  {
    Placed(hash, t) && t.len == Count(t)
  }

  lemma {:induction false} FindSome<K, V>(c: Chain<K, V>, k: K)
    ensures Find(c, k).Some? ==> exists i :: 0 <= i < |c| && c[i].0 == k
    ensures forall i :: 0 <= i < |c| && c[i].0 == k ==> Find(c, k).Some?
  {
    if c != [] && c[0].0 != k {
      FindSome(c[1..], k);
      assert forall i :: 1 <= i < |c| ==> c[i] == c[1..][i - 1];
    }
  }

  lemma {:induction false} FindAppend<K, V>(a: Chain<K, V>, b: Chain<K, V>, k: K)
    ensures Find(a + b, k) == if Find(a, k).Some? then Find(a, k) else Find(b, k)
  {
    if a == [] {
      assert a + b == b;
    } else {
      assert (a + b)[1..] == a[1..] + b;
      FindAppend(a[1..], b, k);
    }
  }

  /** A new key goes to the end of its chain. */
  lemma {:induction false} PutNew<K, V>(c: Chain<K, V>, k: K, v: V)
    requires Find(c, k).None?
    ensures ChainPut(c, k, v) == c + [(k, v)]
  {
    if c != [] {
      PutNew(c[1..], k, v);
    }
  }

  lemma DistinctAppend<K, V>(a: Chain<K, V>, b: Chain<K, V>)
    requires DistinctKeys(a) && DistinctKeys(b)
    requires forall i, j :: 0 <= i < |a| && 0 <= j < |b| ==> a[i].0 != b[j].0
    ensures DistinctKeys(a + b)
  {
  }

  /** Keys in the first n buckets are those whose bucket is among them. */
  lemma {:induction false} EntriesFind<K, V>(hash: K -> nat, t: Table<K, V>, n: nat, k: K)
    requires Shaped(t) && Placed(hash, t) && n <= t.cap
    ensures var i := hash(k) % t.cap;
            Find(Entries(t.buckets[..n]), k) == if i < n then Find(t.buckets[i], k) else None
    decreases n
  {
    if n > 0 {
      var i := hash(k) % t.cap;
      assert t.buckets[..n][..n - 1] == t.buckets[..n - 1];
      EntriesFind(hash, t, n - 1, k);
      FindAppend(Entries(t.buckets[..n - 1]), t.buckets[n - 1], k);
      FindSome(t.buckets[n - 1], k);
    }
  }

  lemma {:induction false} EntriesDistinct<K, V>(hash: K -> nat, t: Table<K, V>, n: nat)
    requires Shaped(t) && Placed(hash, t) && n <= t.cap
    ensures DistinctKeys(Entries(t.buckets[..n]))
    decreases n
  {
    if n > 0 {
      var before, last := Entries(t.buckets[..n - 1]), t.buckets[n - 1];
      assert t.buckets[..n][..n - 1] == t.buckets[..n - 1];
      EntriesDistinct(hash, t, n - 1);
      forall i, j | 0 <= i < |before| && 0 <= j < |last|
        ensures before[i].0 != last[j].0
      {
        FindSome(before, before[i].0);
        EntriesFind(hash, t, n - 1, before[i].0);
      }
      DistinctAppend(before, last);
    }
  }

  /** Looking up in the table is looking up among all its entries. */
  lemma GetIsFind<K, V>(hash: K -> nat, t: Table<K, V>, k: K)
    requires Shaped(t) && Placed(hash, t)
    ensures GetT(hash, t, k) == Find(Entries(t.buckets), k)
  {
    EntriesFind(hash, t, t.cap, k);
    assert t.buckets[..t.cap] == t.buckets;
  }

  /** Writing a key that is not there. */
  lemma WriteNew<K, V>(hash: K -> nat, t: Table<K, V>, k: K, v: V, j: K)
    requires Shaped(t) && Exact(hash, t) && GetT(hash, t, k).None?
    ensures var r := Write(hash, t, k, v);
            Exact(hash, r) && Count(r) == Count(t) + 1
            && GetT(hash, r, j) == if j == k then Some(v) else GetT(hash, t, j)
  {
    var i := hash(k) % t.cap;
    var c := t.buckets[i];
    PutNew(c, k, v);
    EntriesLength(t.buckets, i, c + [(k, v)]);
    FindAppend(c, [(k, v)], j);
    forall m | 0 <= m < |c|
      ensures c[m].0 != k
    {
      FindSome(c, k);
    }
    DistinctAppend(c, [(k, v)]);
  }

  /** Putting an absent key, with whatever rehashing that takes, adds exactly this binding. */
  lemma {:induction false} PutAbsent<K, V>(hash: K -> nat, t: Table<K, V>, k: K, v: V, j: K)
    requires Shaped(t) && Exact(hash, t) && GetT(hash, t, k).None?
    ensures var r := PutT(hash, t, k, v);
            Exact(hash, r) && Count(r) == Count(t) + 1
            && GetT(hash, r, j) == if j == k then Some(v) else GetT(hash, t, j)
    decreases Count(t), 1
  {
    hide Exact, Placed, Write, Entries;
    if NeedsRehash(t) {
      ExactPlaced(hash, t);
      RehashKeeps(hash, t, j);
      RehashKeeps(hash, t, k);
      WriteNew(hash, RehashT(hash, t), k, v, j);
    } else {
      WriteNew(hash, t, k, v, j);
    }
  }

  lemma ExactPlaced<K, V>(hash: K -> nat, t: Table<K, V>)
    requires Shaped(t) && Exact(hash, t)
    ensures Placed(hash, t)
  {
  }

  /** Rehashing changes no binding and makes `len` exact. */
  lemma {:induction false} RehashKeeps<K, V>(hash: K -> nat, t: Table<K, V>, j: K)
    requires Shaped(t) && Placed(hash, t)
    ensures var r := RehashT(hash, t);
            Exact(hash, r) && Count(r) == Count(t) && GetT(hash, r, j) == GetT(hash, t, j)
    decreases Count(t), 0, 1
  {
    hide Exact, Placed;
    EntriesDistinct(hash, t, t.cap);
    assert t.buckets[..t.cap] == t.buckets;
    GetIsFind(hash, t, j);
    RefillHolds(hash, Grown(t.cap), Entries(t.buckets), j);
  }

  lemma {:induction false} RefillHolds<K, V>(hash: K -> nat, cap: nat, es: Chain<K, V>, j: K)
    requires cap >= 1 && DistinctKeys(es)
    ensures var r := Refill(hash, cap, es);
            Exact(hash, r) && Count(r) == |es| && GetT(hash, r, j) == Find(es, j)
    decreases |es|, 0, 0
  {
    if es == [] {
      EmptyEntries<K, V>(cap);
    } else {
      var n := |es| - 1;
      var (k, v) := es[n];
      RefillHolds(hash, cap, es[..n], j);
      RefillHolds(hash, cap, es[..n], k);
      FindSome(es[..n], k);
      PutAbsent(hash, Refill(hash, cap, es[..n]), k, v, j);
      FindAppend(es[..n], [(k, v)], j);
      assert es == es[..n] + [es[n]];
    }
  }

  // ----- removing -----

  lemma {:induction false} PopFind<K, V>(c: Chain<K, V>, k: K, j: K)
    requires DistinctKeys(c) && Find(c, k).Some?
    ensures var r := ChainPop(c, k);
            Find(r, j) == (if j == k then None else Find(c, j)) && |r| == |c| - 1 && DistinctKeys(r)
    ensures forall m :: 0 <= m < |ChainPop(c, k)| ==> ChainPop(c, k)[m] in c
  {
    var r := ChainPop(c, k);
    FindSome(c[1..], k);
    if c[0].0 != k {
      PopFind(c[1..], k, j);
      assert forall m :: 1 <= m < |r| ==> r[m] == ChainPop(c[1..], k)[m - 1];
    }
  }

  /** Popping removes exactly this binding. */
  lemma PopRemoves<K, V>(hash: K -> nat, t: Table<K, V>, k: K, j: K)
    requires Shaped(t) && Exact(hash, t)
    ensures var r := PopT(hash, t, k);
            Exact(hash, r) && GetT(hash, r, j) == if j == k then None else GetT(hash, t, j)
  {
    var i := hash(k) % t.cap;
    var c := t.buckets[i];
    if Find(c, k).Some? {
      PopFind(c, k, k);
      PopFind(c, k, j);
      EntriesLength(t.buckets, i, ChainPop(c, k));
    }
  }

  // ----- overwriting -----

  /** The key stands at the end of the chain. */
  predicate LastIn<K(==), V>(c: Chain<K, V>, k: K)
  {
    c != [] && c[|c| - 1].0 == k
  }

  /** Overwriting keeps what comes before the key and loses what comes after it. */
  lemma {:induction false} PutOver<K, V>(c: Chain<K, V>, k: K, v: V, m: nat)
    requires DistinctKeys(c) && m < |c| && c[m].0 == k
    ensures ChainPut(c, k, v) == c[..m] + [(k, v)]
    decreases m
  {
    if m > 0 {
      PutOver(c[1..], k, v, m - 1);
      assert c[..m] == [c[0]] + c[1..][..m - 1];
    } else {
      assert c[..m] == [];
    }
  }

  /** Overwriting a key that is present leaves the other bindings alone if and only if the key is the last
      one of its chain at that moment. */
  lemma OverwriteExact<K(!new), V>(hash: K -> nat, t: Table<K, V>, k: K, v: V)
    requires Shaped(t) && Placed(hash, t) && GetT(hash, t, k).Some?
    ensures GetT(hash, Write(hash, t, k, v), k) == Some(v)
    ensures LastIn(t.buckets[hash(k) % t.cap], k) <==>
            forall j: K :: j != k ==> GetT(hash, Write(hash, t, k, v), j) == GetT(hash, t, j)
  {
    var i := hash(k) % t.cap;
    var c := t.buckets[i];
    FindSome(c, k);
    var m :| 0 <= m < |c| && c[m].0 == k;
    PutOver(c, k, v, m);
    FindAppend(c[..m], [(k, v)], k);
    FindSome(c[..m], k);
    if m == |c| - 1 {
      forall j: K | j != k
        ensures GetT(hash, Write(hash, t, k, v), j) == GetT(hash, t, j)
      {
        FindAppend(c[..m], [(k, v)], j);
        FindAppend(c[..m], [c[m]], j);
        assert c == c[..m] + [c[m]];
      }
    } else {
      var j := c[|c| - 1].0;
      FindSome(c, j);
      FindAppend(c[..m], [(k, v)], j);
      FindSome(c[..m], j);
      assert GetT(hash, Write(hash, t, k, v), j) != GetT(hash, t, j);
    }
  }

  /** The table into which `put` writes: the same, or rehashed. */
  function Roomy<K(==), V>(hash: K -> nat, t: Table<K, V>): (r: Table<K, V>)
    requires Shaped(t)
    ensures Shaped(r)
  {
    if NeedsRehash(t) then RehashT(hash, t) else t
  }

  lemma WriteLast<K, V>(hash: K -> nat, t: Table<K, V>, k: K, v: V, j: K)
    requires Shaped(t) && Exact(hash, t) && LastIn(t.buckets[hash(k) % t.cap], k)
    ensures var r := Write(hash, t, k, v);
            Exact(hash, r) && Count(r) == Count(t) && GetT(hash, r, j) == if j == k then Some(v) else GetT(hash, t, j)
  {
    hide Entries;
    var i := hash(k) % t.cap;
    var c := t.buckets[i];
    var m := |c| - 1;
    PutOver(c, k, v, m);
    FindAppend(c[..m], [(k, v)], j);
    FindAppend(c[..m], [c[m]], j);
    assert c == c[..m] + [c[m]];
    FindSome(c, k);
    FindSome(c[..m], k);
    EntriesLength(t.buckets, i, ChainPut(c, k, v));
  }

  /** Putting a key that is present and last in its chain changes exactly this binding. */
  lemma PutLast<K, V>(hash: K -> nat, t: Table<K, V>, k: K, v: V, j: K)
    requires Shaped(t) && Exact(hash, t) && GetT(hash, t, k).Some?
    requires var t1 := Roomy(hash, t); LastIn(t1.buckets[hash(k) % t1.cap], k)
    ensures var r := PutT(hash, t, k, v);
            Exact(hash, r) && Count(r) == Count(t) && GetT(hash, r, j) == if j == k then Some(v) else GetT(hash, t, j)
  {
    hide Exact, Placed, Write, RehashT, Entries;
    if NeedsRehash(t) {
      ExactPlaced(hash, t);
      RehashKeeps(hash, t, j);
    }
    WriteLast(hash, Roomy(hash, t), k, v, j);
  }

  /** Whatever is written, every key stays in its own bucket and in no chain twice. */
  lemma WritePlaced<K, V>(hash: K -> nat, t: Table<K, V>, k: K, v: V)
    requires Shaped(t) && Placed(hash, t)
    ensures Placed(hash, Write(hash, t, k, v))
  {
    var i := hash(k) % t.cap;
    var c := t.buckets[i];
    FindSome(c, k);
    if Find(c, k).Some? {
      var m :| 0 <= m < |c| && c[m].0 == k;
      PutOver(c, k, v, m);
      PrefixPlaced(c, m, k, v);
    } else {
      PutNew(c, k, v);
      DistinctAppend(c, [(k, v)]);
    }
  }

  lemma PrefixPlaced<K, V>(c: Chain<K, V>, m: nat, k: K, v: V)
    requires m < |c| && DistinctKeys(c) && c[m].0 == k
    ensures DistinctKeys(c[..m] + [(k, v)])
    ensures forall i :: 0 <= i <= m ==> (c[..m] + [(k, v)])[i].0 == c[i].0
  {
  }

  lemma PutPlaced<K, V>(hash: K -> nat, t: Table<K, V>, k: K, v: V)
    requires Shaped(t) && Placed(hash, t)
    ensures Placed(hash, PutT(hash, t, k, v))
  {
    hide Exact, Placed, Write, RehashT, Entries;
    if NeedsRehash(t) {
      RehashKeeps(hash, t, k);
      ExactPlaced(hash, RehashT(hash, t));
    }
    WritePlaced(hash, Roomy(hash, t), k, v);
  }

  /** The map is rehashed at a load of 0.7, to one and a half times the capacity. */
  lemma RehashRate<K, V>(t: Table<K, V>)
    requires t.cap >= 1
    ensures NeedsRehash(t) <==> t.len as real / t.cap as real >= 0.7
    ensures Grown(t.cap) == (t.cap as real * 1.5).Floor
  {
    var len, cap := t.len as real, t.cap as real;
    RatioAtLeast(len, cap);
    assert 10.0 * len >= 7.0 * cap <==> 10 * t.len >= 7 * t.cap;
  }

  lemma RatioAtLeast(a: real, b: real)
    requires b > 0.0
    ensures a / b >= 0.7 <==> 10.0 * a >= 7.0 * b
  {
    var q := a / b;
    assert a == q * b;
    if q >= 0.7 {
      assert (q - 0.7) * b >= 0.0;
    } else {
      assert (0.7 - q) * b > 0.0;
    }
  }

  lemma {:induction false} PutCap<K, V>(hash: K -> nat, t: Table<K, V>, k: K, v: V)
    requires Shaped(t)
    ensures PutT(hash, t, k, v).cap >= t.cap
    decreases Count(t), 1
  {
    hide Write, Entries;
    if NeedsRehash(t) {
      RehashCap(hash, t);
    }
  }

  lemma {:induction false} RehashCap<K, V>(hash: K -> nat, t: Table<K, V>)
    requires Shaped(t)
    ensures RehashT(hash, t).cap >= Grown(t.cap)
    decreases Count(t), 0, 1
  {
    RefillCap(hash, Grown(t.cap), Entries(t.buckets));
  }

  lemma {:induction false} RefillCap<K, V>(hash: K -> nat, cap: nat, es: Chain<K, V>)
    requires cap >= 1
    ensures Refill(hash, cap, es).cap >= cap
    decreases |es|, 0, 0
  {
    if es != [] {
      var n := |es| - 1;
      RefillCap(hash, cap, es[..n]);
      PutCap(hash, Refill(hash, cap, es[..n]), es[n].0, es[n].1);
    }
  }

  /** No more than one entry above a load of 0.7. */
  predicate Light<K, V>(t: Table<K, V>)
  {
    10 * t.len < 7 * t.cap + 10
  }

  /** Putting keeps the load there, from capacity 4 on. */
  lemma LoadKept<K, V>(hash: K -> nat, t: Table<K, V>, k: K, v: V)
    requires Shaped(t) && Exact(hash, t) && t.cap >= 4 && Light(t)
    ensures Light(PutT(hash, t, k, v)) && PutT(hash, t, k, v).cap >= t.cap
  {
    hide Placed, RehashT, Entries;
    if NeedsRehash(t) {
      ExactPlaced(hash, t);
      RehashKeeps(hash, t, k);
      RehashCap(hash, t);
    }
  }

  /** The number of keys is the number of entries. */
  lemma {:induction false} KeyCount<K, V>(c: Chain<K, V>)
    requires DistinctKeys(c)
    ensures |set e | e in c :: e.0| == |c|
  {
    if c != [] {
      var n := |c| - 1;
      KeyCount(c[..n]);
      assert c == c[..n] + [c[n]];
      var rest := set e | e in c[..n] :: e.0;
      assert (set e | e in c :: e.0) == rest + {c[n].0};
      assert c[n].0 !in rest;
    }
  }

  /** `len` counts the keys. */
  lemma LenCountsKeys<K, V>(hash: K -> nat, t: Table<K, V>)
    requires Shaped(t) && Exact(hash, t)
    ensures t.len == |set e | e in Entries(t.buckets) :: e.0|
  {
    EntriesDistinct(hash, t, t.cap);
    assert t.buckets[..t.cap] == t.buckets;
    KeyCount(Entries(t.buckets));
  }

  // ----- any history -----

  datatype Op<K, V> = OpPut(key: K, val: V) | OpPop(key: K)

  function RunTable<K(==), V>(hash: K -> nat, t: Table<K, V>, ops: seq<Op<K, V>>): (r: Table<K, V>)
    requires Shaped(t)
    ensures Shaped(r)
    decreases |ops|
  {
    if ops == [] then t
    else RunTable(hash, if ops[0].OpPut? then PutT(hash, t, ops[0].key, ops[0].val) else PopT(hash, t, ops[0].key),
        ops[1..])
  }

  /** The same operations on a mathematical map. */
  function RunMap<K, V>(m: map<K, V>, ops: seq<Op<K, V>>): map<K, V>
    decreases |ops|
  {
    if ops == [] then m
    else RunMap(if ops[0].OpPut? then m[ops[0].key := ops[0].val] else m - {ops[0].key}, ops[1..])
  }

  /** Every put is of a key that is absent, or last in its chain when it is written. */
  predicate Careful<K(==), V>(hash: K -> nat, t: Table<K, V>, ops: seq<Op<K, V>>)
    requires Shaped(t)
    decreases |ops|
  {
    ops == [] ||
    match ops[0]
    case OpPut(k, v) =>
      var t1 := Roomy(hash, t);
      && (GetT(hash, t, k).None? || LastIn(t1.buckets[hash(k) % t1.cap], k))
      && Careful(hash, PutT(hash, t, k, v), ops[1..])
    case OpPop(k) => Careful(hash, PopT(hash, t, k), ops[1..])
  }

  ghost predicate Refines<K(!new), V>(hash: K -> nat, t: Table<K, V>, m: map<K, V>)
    requires Shaped(t)
  {
    Exact(hash, t) && forall k: K :: GetT(hash, t, k) == if k in m then Some(m[k]) else None
  }

  /** Over any such history the table is the mathematical map. */
  lemma {:induction false} HistoryRefines<K(!new), V>(hash: K -> nat, t: Table<K, V>, m: map<K, V>, ops: seq<Op<K, V>>)
    requires Shaped(t) && Refines(hash, t, m) && Careful(hash, t, ops)
    ensures Refines(hash, RunTable(hash, t, ops), RunMap(m, ops))
    decreases |ops|
  {
    hide Exact, PutT, PopT, LastIn, Roomy, GetT;
    if ops != [] {
      OneRefines(hash, t, m, ops[0]);
      match ops[0]
      case OpPut(k, v) => HistoryRefines(hash, PutT(hash, t, k, v), m[k := v], ops[1..]);
      case OpPop(k) => HistoryRefines(hash, PopT(hash, t, k), m - {k}, ops[1..]);
    }
  }

  lemma OneRefines<K(!new), V>(hash: K -> nat, t: Table<K, V>, m: map<K, V>, op: Op<K, V>)
    requires Shaped(t) && Refines(hash, t, m) && Careful(hash, t, [op])
    ensures op.OpPut? ==> Refines(hash, PutT(hash, t, op.key, op.val), m[op.key := op.val])
    ensures op.OpPop? ==> Refines(hash, PopT(hash, t, op.key), m - {op.key})
  {
    hide Exact, PutT, PopT, LastIn, GetT;
    match op
    case OpPut(k, v) =>
      forall j: K
        ensures Exact(hash, PutT(hash, t, k, v))
        ensures GetT(hash, PutT(hash, t, k, v), j) == if j == k then Some(v) else GetT(hash, t, j)
      {
        if GetT(hash, t, k).None? {
          PutAbsent(hash, t, k, v, j);
        } else {
          PutLast(hash, t, k, v, j);
        }
      }
      assert Exact(hash, PutT(hash, t, k, v)) && GetT(hash, PutT(hash, t, k, v), k) == Some(v);
    case OpPop(k) =>
      forall j: K
        ensures GetT(hash, PopT(hash, t, k), j) == if j == k then None else GetT(hash, t, j)
      {
        PopRemoves(hash, t, k, j);
      }
      PopRemoves(hash, t, k, k);
  }

  // ----- the map object -----

  class ChainedMap<K(==), V> {
    const hash: K -> nat
    var cap: nat
    var len: nat
    var buckets: seq<Chain<K, V>>

    constructor (hash: K -> nat, inicap: nat)
      requires inicap >= 1
      ensures this.hash == hash && State() == Fresh(inicap) && Exact(hash, State())
    {
      this.hash, cap, len, buckets := hash, inicap, 0, Empties(inicap);
      new;
      EmptyEntries<K, V>(inicap);
    }

    function State(): Table<K, V>
      reads this
    {
      Table(cap, len, buckets)
    }

    method Has(key: K) returns (r: bool)
      requires Shaped(State())
      ensures r == GetT(hash, State(), key).Some?
    {
      var chain := buckets[hash(key) % cap];
      var j := 0;
      assert chain[0..] == chain;
      while j < |chain|
        invariant 0 <= j <= |chain| && Find(chain, key) == Find(chain[j..], key)
      {
        if chain[j].0 == key {
          return true;
        }
        j := j + 1;
      }
      r := false;
    }

    method Get(key: K) returns (v: V)
      requires Shaped(State()) && GetT(hash, State(), key).Some?
      ensures Some(v) == GetT(hash, State(), key)
    {
      var chain := buckets[hash(key) % cap];
      var j := 0;
      assert chain[0..] == chain;
      while chain[j].0 != key
        invariant 0 <= j < |chain| && Find(chain, key) == Find(chain[j..], key)
        decreases |chain| - j
      {
        j := j + 1;
      }
      v := chain[j].1;
    }

    method Put(key: K, val: V)
      requires Shaped(State())
      modifies this
      ensures State() == PutT(hash, old(State()), key, val)
      decreases Count(State()), 2
    {
      hide PutT, RehashT, Entries, Find, ChainPut;
      PutParts(hash, State(), key, val);
      if NeedsRehash(State()) {
        Rehash();
      }
      var idx := hash(key) % cap;
      var j := Slot(buckets[idx], key, val);
      if j == |buckets[idx]| {
        len := len + 1;
      }
      buckets := buckets[idx := buckets[idx][..j] + [(key, val)]];
    }

    /** The bucket of a chain that holds the key, or where a new one goes. */
    static method Slot(chain: Chain<K, V>, key: K, ghost val: V) returns (j: nat)
      ensures j <= |chain| && (j == |chain| <==> Find(chain, key).None?)
      ensures ChainPut(chain, key, val) == chain[..j] + [(key, val)]
    {
      j := 0;
      assert chain[0..] == chain && chain[..0] == [];
      while j < |chain| && chain[j].0 != key
        invariant 0 <= j <= |chain|
        invariant Find(chain, key) == Find(chain[j..], key)
        invariant ChainPut(chain, key, val) == chain[..j] + ChainPut(chain[j..], key, val)
      {
        assert chain[j..][1..] == chain[j + 1..] && chain[..j + 1] == chain[..j] + [chain[j]];
        j := j + 1;
      }
    }

    /** A larger set of buckets, filled from the old one by `Put`. */
    method Rehash()
      requires Shaped(State())
      modifies this
      ensures State() == RehashT(hash, old(State()))
      decreases Count(State()), 1
    {
      hide Refill, PutT, RehashT;
      RehashParts(hash, State());
      var copyCap, copy := cap, buckets;
      len, cap := 0, Grown(cap);
      buckets := Empties(cap);
      ghost var start := cap;
      EmptyEntries<K, V>(cap);
      for i := 0 to copyCap
        invariant cap >= 1 && |buckets| == cap
        invariant State() == Refill(hash, start, Entries(copy[..i]))
      {
        assert copy[..i + 1][..i] == copy[..i];
        PutChain(copy[i], Entries(copy[..i]), start) by { PrefixLength(copy, i); }
      }
      assert copy[..copyCap] == copy;
    }

    /** The entries of one old bucket. */
    method PutChain(chain: Chain<K, V>, ghost before: Chain<K, V>, ghost start: nat)
      requires Shaped(State()) && start >= 1 && State() == Refill(hash, start, before)
      modifies this
      ensures State() == Refill(hash, start, before + chain)
      decreases |before| + |chain|, 0
    {
      hide PutT, Refill, RehashT, Entries;
      assert before + chain[..0] == before;
      for j := 0 to |chain|
        invariant Shaped(State()) && State() == Refill(hash, start, before + chain[..j])
      {
        ghost var es := before + chain[..j];
        RefillNext(hash, start, es, chain[j]);
        assert before + chain[..j + 1] == es + [chain[j]];
        assert Count(State()) <= |es|;
        Put(chain[j].0, chain[j].1);
      }
      assert chain[..|chain|] == chain;
    }

    method Pop(key: K)
      requires Shaped(State()) && (GetT(hash, State(), key).Some? ==> len > 0)
      modifies this
      ensures State() == PopT(hash, old(State()), key)
    {
      var idx := hash(key) % cap;
      var has := Has(key);
      if !has {
        return;
      }
      var chain := buckets[idx];
      var j := 0;
      assert chain[0..] == chain && chain[..0] == [];
      while chain[j].0 != key
        invariant 0 <= j < |chain| && Find(chain, key) == Find(chain[j..], key)
        invariant ChainPop(chain, key) == chain[..j] + ChainPop(chain[j..], key)
        decreases |chain| - j
      {
        assert chain[j..][1..] == chain[j + 1..] && chain[..j + 1] == chain[..j] + [chain[j]];
        j := j + 1;
      }
      len := len - 1;
      buckets := buckets[idx := chain[..j] + chain[j + 1..]];
    }
  }

  lemma PutParts<K, V>(hash: K -> nat, t: Table<K, V>, k: K, v: V)
    requires Shaped(t)
    ensures PutT(hash, t, k, v) == Write(hash, Roomy(hash, t), k, v)
  {
  }

  lemma RehashParts<K, V>(hash: K -> nat, t: Table<K, V>)
    requires Shaped(t)
    ensures RehashT(hash, t) == Refill(hash, Grown(t.cap), Entries(t.buckets))
    ensures Refill<K, V>(hash, Grown(t.cap), []) == Fresh<K, V>(Grown(t.cap))
    ensures Entries(t.buckets[..0]) == []
  {
  }

  lemma RefillNext<K, V>(hash: K -> nat, cap: nat, es: Chain<K, V>, e: (K, V))
    requires cap >= 1
    ensures Refill(hash, cap, es + [e]) == PutT(hash, Refill(hash, cap, es), e.0, e.1)
  {
    assert (es + [e])[..|es|] == es;
  }

  /** The entries up to the end of a bucket are no more than all. */
  lemma {:induction false} PrefixLength<K, V>(bs: seq<Chain<K, V>>, i: nat)
    requires i < |bs|
    ensures |Entries(bs[..i])| + |bs[i]| <= |Entries(bs)|
    decreases |bs|
  {
    var n := |bs| - 1;
    if i < n {
      PrefixLength(bs[..n], i);
      assert bs[..n][..i] == bs[..i];
    }
  }
}
