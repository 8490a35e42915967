/** When lookups in the chained table are answered as by a mathematical map, although writing over a key cuts off
    what follows it in its chain. */
module Lookups {
  import opened Ast
  import opened HashMap

  datatype Use<K, V> = Ask(key: K) | Set(key: K, val: V)

  function AfterT<K(==), V>(hash: K -> nat, t: Table<K, V>, h: seq<Use<K, V>>): (r: Table<K, V>)
    requires Shaped(t)
    ensures Shaped(r)
  {
    if h == [] then t
    else
      var n := |h| - 1;
      var t1 := AfterT(hash, t, h[..n]);
      if h[n].Set? then PutT(hash, t1, h[n].key, h[n].val) else t1
  }

  function AfterM<K, V>(m: map<K, V>, h: seq<Use<K, V>>): map<K, V>
  {
    if h == [] then m
    else
      var n := |h| - 1;
      var m1 := AfterM(m, h[..n]);
      if h[n].Set? then m1[h[n].key := h[n].val] else m1
  }

  function Lookup<K, V>(m: map<K, V>, k: K): Option<V>
  {
    if k in m then Some(m[k]) else None
  }

  /** Every question is answered by the table as by the map. */
  ghost predicate Answered<K(!new), V>(hash: K -> nat, t: Table<K, V>, m: map<K, V>, h: seq<Use<K, V>>)
    requires Shaped(t)
  {
    forall n :: 0 <= n < |h| && h[n].Ask? ==> GetT(hash, AfterT(hash, t, h[..n]), h[n].key) == Lookup(AfterM(m, h[..n]), h[n].key)
  }

  // ----- what one write does -----

  /** In the chain j stands somewhere after k. */
  ghost predicate Behind<K, V>(c: Chain<K, V>, k: K, j: K)
  {
    exists a, b :: 0 <= a < b < |c| && c[a].0 == k && c[b].0 == j
  }

  /** Writing to k cuts j off: it is behind k in the table as it is after any rehash. */
  ghost predicate Cuts<K, V>(hash: K -> nat, t: Table<K, V>, k: K, j: K)
    requires Shaped(t)
  {
    var t1 := Roomy(hash, t);
    Behind(t1.buckets[hash(k) % t1.cap], k, j)
  }

  lemma RoomyKeeps<K, V>(hash: K -> nat, t: Table<K, V>, j: K)
    requires Shaped(t) && Placed(hash, t)
    ensures Placed(hash, Roomy(hash, t)) && GetT(hash, Roomy(hash, t), j) == GetT(hash, t, j)
  {
    hide Placed, Exact, RehashT;
    if NeedsRehash(t) {
      RehashKeeps(hash, t, j);
      ExactPlaced(hash, RehashT(hash, t));
    }
  }

  lemma NotFound<K, V>(c: Chain<K, V>, k: K)
    requires forall i :: 0 <= i < |c| ==> c[i].0 != k
    ensures Find(c, k).None?
  {
    FindSome(c, k);
  }

  /** Up to the key the chain stays, and what stands behind it is not before it. */
  lemma BeforeKey<K, V>(c: Chain<K, V>, m: nat, k: K, j: K)
    requires DistinctKeys(c) && m < |c| && c[m].0 == k && j != k
    ensures Behind(c, k, j) ==> Find(c[..m], j).None?
    ensures !Behind(c, k, j) ==> Find(c[m..], j).None?
  {
    hide Find;
    if Behind(c, k, j) {
      var a, b :| 0 <= a < b < |c| && c[a].0 == k && c[b].0 == j;
      assert a == m;
      NotFound(c[..m], j);
    } else {
      assert forall i :: 0 < i < |c| - m ==> c[m..][i] == c[m + i];
      NotFound(c[m..], j);
    }
  }

  /** One chain after a write: the key has its value, what stood behind it is gone, and all else is as before. */
  lemma ChainExactly<K, V>(c: Chain<K, V>, k: K, v: V, j: K)
    requires DistinctKeys(c)
    ensures Find(ChainPut(c, k, v), j) == if j == k then Some(v) else if Behind(c, k, j) then None else Find(c, j)
  {
    hide Find, ChainPut, DistinctKeys;
    FindSome(c, k);
    FindOne(k, v, j);
    if Find(c, k).None? {
      PutNew(c, k, v);
      FindAppend(c, [(k, v)], j);
    } else {
      var m :| 0 <= m < |c| && c[m].0 == k;
      PutOver(c, k, v, m);
      FindAppend(c[..m], [(k, v)], j);
      FindAppend(c[..m], c[m..], j);
      assert c == c[..m] + c[m..];
      if j == k {
        KeyOnce(c, m, k);
      } else {
        BeforeKey(c, m, k, j);
      }
    }
  }

  lemma FindOne<K, V>(k: K, v: V, j: K)
    ensures Find([(k, v)], j) == if j == k then Some(v) else None
  {
  }

  lemma KeyOnce<K, V>(c: Chain<K, V>, m: nat, k: K)
    requires DistinctKeys(c) && m < |c| && c[m].0 == k
    ensures Find(c[..m], k).None?
  {
    hide Find;
    NotFound(c[..m], k);
  }

  /** Putting a key with whatever rehashing that takes: exactly what stood behind it is lost. */
  lemma PutExactly<K, V>(hash: K -> nat, t: Table<K, V>, k: K, v: V, j: K)
    requires Shaped(t) && Placed(hash, t)
    ensures Placed(hash, PutT(hash, t, k, v))
    ensures GetT(hash, PutT(hash, t, k, v), j) ==
            if j == k then Some(v) else if Cuts(hash, t, k, j) then None else GetT(hash, t, j)
  {
    hide RehashT, NeedsRehash, Behind;
    PutPlaced(hash, t, k, v);
    RoomyKeeps(hash, t, j);
    PutParts(hash, t, k, v);
    var t1 := Roomy(hash, t);
    ChainExactly(t1.buckets[hash(k) % t1.cap], k, v, j);
    OtherBucket(hash, t1, k, j);
  }

  lemma OtherBucket<K, V>(hash: K -> nat, t: Table<K, V>, k: K, j: K)
    requires Shaped(t) && Placed(hash, t)
    ensures hash(k) % t.cap != hash(j) % t.cap ==> !Behind(t.buckets[hash(k) % t.cap], k, j)
  {
  }

  /** What is cut off was there, and is not the key itself. */
  lemma CutWasThere<K, V>(hash: K -> nat, t: Table<K, V>, k: K, j: K)
    requires Shaped(t) && Placed(hash, t) && Cuts(hash, t, k, j)
    ensures GetT(hash, t, j).Some? && GetT(hash, t, k).Some? && j != k
  {
    hide RehashT;
    RoomyKeeps(hash, t, j);
    RoomyKeeps(hash, t, k);
    var t1 := Roomy(hash, t);
    OtherBucket(hash, t1, k, j);
    FindSome(t1.buckets[hash(k) % t1.cap], j);
    FindSome(t1.buckets[hash(k) % t1.cap], k);
  }

  // ----- a history step by step -----

  lemma OneMore<K, V>(hash: K -> nat, t: Table<K, V>, m: map<K, V>, h: seq<Use<K, V>>, n: nat)
    requires Shaped(t) && n < |h|
    ensures AfterT(hash, t, h[..n + 1]) ==
            if h[n].Set? then PutT(hash, AfterT(hash, t, h[..n]), h[n].key, h[n].val) else AfterT(hash, t, h[..n])
    ensures AfterM(m, h[..n + 1]) == if h[n].Set? then AfterM(m, h[..n])[h[n].key := h[n].val] else AfterM(m, h[..n])
  {
    assert h[..n + 1][..n] == h[..n];
  }

  lemma Appended<K, V>(hash: K -> nat, t: Table<K, V>, m: map<K, V>, h: seq<Use<K, V>>, u: Use<K, V>)
    requires Shaped(t)
    ensures AfterT(hash, t, h + [u]) == if u.Set? then PutT(hash, AfterT(hash, t, h), u.key, u.val) else AfterT(hash, t, h)
    ensures AfterM(m, h + [u]) == if u.Set? then AfterM(m, h)[u.key := u.val] else AfterM(m, h)
  {
    assert (h + [u])[..|h|] == h;
  }

  lemma AnsweredMore<K(!new), V>(hash: K -> nat, t: Table<K, V>, m: map<K, V>, h: seq<Use<K, V>>, u: Use<K, V>)
    requires Shaped(t)
    ensures Answered(hash, t, m, h + [u]) <==>
            Answered(hash, t, m, h) && (u.Ask? ==> GetT(hash, AfterT(hash, t, h), u.key) == Lookup(AfterM(m, h), u.key))
  {
    var all := h + [u];
    assert forall n :: 0 <= n < |h| ==> all[n] == h[n] && all[..n] == h[..n];
    assert all[|h|] == u && all[..|h|] == h;
    if Answered(hash, t, m, all) {
      forall n | 0 <= n < |h| && h[n].Ask?
        ensures GetT(hash, AfterT(hash, t, h[..n]), h[n].key) == Lookup(AfterM(m, h[..n]), h[n].key)
      {
        assert all[n].Ask?;
      }
    }
  }

  /** What the table finds is what the map has. */
  ghost predicate Partial<K(!new), V>(hash: K -> nat, t: Table<K, V>, m: map<K, V>)
    requires Shaped(t)
  {
    Placed(hash, t) && forall k: K :: GetT(hash, t, k).Some? ==> k in m && m[k] == GetT(hash, t, k).value
  }

  lemma {:induction false} AlwaysPartial<K(!new), V>(hash: K -> nat, t: Table<K, V>, m: map<K, V>, h: seq<Use<K, V>>)
    requires Shaped(t) && Partial(hash, t, m)
    ensures Partial(hash, AfterT(hash, t, h), AfterM(m, h))
  {
    hide PutT, GetT, Placed, Cuts;
    if h != [] {
      var n := |h| - 1;
      var t1, m1 := AfterT(hash, t, h[..n]), AfterM(m, h[..n]);
      AlwaysPartial(hash, t, m, h[..n]);
      if h[n].Set? {
        PutExactly(hash, t1, h[n].key, h[n].val, h[n].key);
        forall k: K | GetT(hash, PutT(hash, t1, h[n].key, h[n].val), k).Some?
          ensures k == h[n].key || (k in m1 && m1[k] == GetT(hash, PutT(hash, t1, h[n].key, h[n].val), k).value)
        {
          PutExactly(hash, t1, h[n].key, h[n].val, k);
        }
      }
    }
  }

  ghost predicate Lost<K(!new), V>(hash: K -> nat, t: Table<K, V>, m: map<K, V>, x: K)
    requires Shaped(t)
  {
    x in m && GetT(hash, t, x).None?
  }

  ghost predicate Unset<K, V>(h: seq<Use<K, V>>, from: nat, to: nat, x: K)
  {
    forall i :: from <= i < to && i < |h| && h[i].Set? ==> h[i].key != x
  }

  /** What is lost was cut off by a write and has not been written since. */
  lemma {:induction false} LostAt<K(!new), V>(hash: K -> nat, t: Table<K, V>, m: map<K, V>, h: seq<Use<K, V>>, n: nat, x: K)
    returns (j: nat)
    requires Shaped(t) && Refines(hash, t, m) && n <= |h| && Lost(hash, AfterT(hash, t, h[..n]), AfterM(m, h[..n]), x)
    ensures j < n && h[j].Set? && Cuts(hash, AfterT(hash, t, h[..j]), h[j].key, x) && Unset(h, j + 1, n, x)
    decreases n
  {
    hide PutT, GetT, Placed, Exact, Cuts;
    if n == 0 {
      NothingLost(hash, t, m, h, x);
      assert false;
    } else {
      var t1, m1 := AfterT(hash, t, h[..n - 1]), AfterM(m, h[..n - 1]);
      OneMore(hash, t, m, h, n - 1);
      StartPartial(hash, t, m);
      AlwaysPartial(hash, t, m, h[..n - 1]);
      if h[n - 1].Set? {
        PutExactly(hash, t1, h[n - 1].key, h[n - 1].val, x);
      }
      if h[n - 1].Set? && Cuts(hash, t1, h[n - 1].key, x) {
        j := n - 1;
      } else {
        assert Lost(hash, t1, m1, x);
        j := LostAt(hash, t, m, h, n - 1, x);
      }
    }
  }

  lemma NothingLost<K(!new), V>(hash: K -> nat, t: Table<K, V>, m: map<K, V>, h: seq<Use<K, V>>, x: K)
    requires Shaped(t) && Refines(hash, t, m)
    ensures !Lost(hash, AfterT(hash, t, h[..0]), AfterM(m, h[..0]), x)
  {
    hide GetT, Exact;
    assert x in m ==> GetT(hash, t, x) == Some(m[x]);
  }

  lemma StartPartial<K(!new), V>(hash: K -> nat, t: Table<K, V>, m: map<K, V>)
    requires Shaped(t) && Refines(hash, t, m)
    ensures Partial(hash, t, m)
  {
    hide GetT, Placed;
  }

  /** What a write cuts off stays lost until it is written. */
  lemma {:induction false} StaysLost<K(!new), V>(hash: K -> nat, t: Table<K, V>, m: map<K, V>, h: seq<Use<K, V>>, j: nat, n: nat,
                                                 x: K)
    requires Shaped(t) && Partial(hash, t, m) && j < n <= |h| && h[j].Set?
    requires Cuts(hash, AfterT(hash, t, h[..j]), h[j].key, x) && Unset(h, j + 1, n, x)
    ensures Lost(hash, AfterT(hash, t, h[..n]), AfterM(m, h[..n]), x)
    decreases n
  {
    hide PutT, GetT, Placed, Cuts;
    var t1, m1 := AfterT(hash, t, h[..n - 1]), AfterM(m, h[..n - 1]);
    OneMore(hash, t, m, h, n - 1);
    AlwaysPartial(hash, t, m, h[..n - 1]);
    if n == j + 1 {
      CutWasThere(hash, t1, h[j].key, x);
    } else {
      StaysLost(hash, t, m, h, j, n - 1, x);
    }
    if h[n - 1].Set? {
      PutExactly(hash, t1, h[n - 1].key, h[n - 1].val, x);
    }
  }

  // ----- exactly when every answer is right -----

  /** From n on, x is asked for before it is written. */
  ghost predicate AskedNext<K, V>(h: seq<Use<K, V>>, n: nat, x: K)
  {
    exists i :: n <= i < |h| && h[i] == Ask(x) && Unset(h, n, i, x)
  }

  lemma AskedHere<K, V>(h: seq<Use<K, V>>, n: nat, i: nat, x: K)
    requires n <= i < |h| && h[i] == Ask(x) && Unset(h, n, i, x)
    ensures AskedNext(h, n, x)
  {
  }

  /** No write cuts off a key that is asked for before it is written again. */
  ghost predicate Safe<K(!new), V>(hash: K -> nat, t: Table<K, V>, h: seq<Use<K, V>>)
    requires Shaped(t)
  {
    forall n, x: K :: 0 <= n < |h| && h[n].Set? && Cuts(hash, AfterT(hash, t, h[..n]), h[n].key, x) ==> !AskedNext(h, n + 1, x)
  }

  /** Over any history, whatever rehashing it causes: the table answers as the map does if and only if no write
      cuts off a key that is asked for before it is written again. */
  lemma AnswersExact<K(!new), V>(hash: K -> nat, t: Table<K, V>, m: map<K, V>, h: seq<Use<K, V>>)
    requires Shaped(t) && Refines(hash, t, m)
    ensures Answered(hash, t, m, h) <==> Safe(hash, t, h)
  {
    hide GetT, PutT, Cuts, Refines, AfterT, AfterM;
    StartPartial(hash, t, m);
    if Safe(hash, t, h) {
      forall n | 0 <= n < |h| && h[n].Ask?
        ensures GetT(hash, AfterT(hash, t, h[..n]), h[n].key) == Lookup(AfterM(m, h[..n]), h[n].key)
      {
        AlwaysPartial(hash, t, m, h[..n]);
        if Lost(hash, AfterT(hash, t, h[..n]), AfterM(m, h[..n]), h[n].key) {
          var j := LostAt(hash, t, m, h, n, h[n].key);
          AskedHere(h, j + 1, n, h[n].key);
        }
      }
    }
    if Answered(hash, t, m, h) {
      forall n, x: K | 0 <= n < |h| && h[n].Set? && Cuts(hash, AfterT(hash, t, h[..n]), h[n].key, x)
        ensures !AskedNext(h, n + 1, x)
      {
        if i :| n + 1 <= i < |h| && h[i] == Ask(x) && Unset(h, n + 1, i, x) {
          StaysLost(hash, t, m, h, n, i, x);
        }
      }
    }
  }

  // ----- while the table does not grow -----

  ghost predicate Roomed<K, V>(hash: K -> nat, t: Table<K, V>, h: seq<Use<K, V>>)
    requires Shaped(t)
  {
    forall n :: 0 <= n < |h| && h[n].Set? ==> !NeedsRehash(AfterT(hash, t, h[..n]))
  }

  ghost predicate SameChain<K, V>(hash: K -> nat, t: Table<K, V>, k: K, x: K)
    requires Shaped(t)
  {
    Behind(t.buckets[hash(k) % t.cap], k, x)
  }

  /** While no write rehashes, a key stands behind another only if it was put when the other was there. */
  lemma {:induction false} BehindLater<K, V>(hash: K -> nat, t: Table<K, V>, h: seq<Use<K, V>>, n: nat, k: K, x: K)
    returns (j: nat)
    requires Shaped(t) && Placed(hash, t) && Roomed(hash, t, h) && n <= |h| && GetT(hash, t, k).None?
    requires Placed(hash, AfterT(hash, t, h[..n])) && SameChain(hash, AfterT(hash, t, h[..n]), k, x)
    ensures j < n && h[j].Set? && h[j].key == x
    ensures var t1 := AfterT(hash, t, h[..j]); GetT(hash, t1, x).None? && GetT(hash, t1, k).Some?
    decreases n
  {
    hide PutT, Placed, NeedsRehash;
    if n == 0 {
      assert h[..0] == [];
      FindSome(t.buckets[hash(k) % t.cap], k);
      assert false;
    } else {
      var t1 := AfterT(hash, t, h[..n - 1]);
      OneMore(hash, t, map[], h, n - 1);
      PlacedAfter(hash, t, h[..n - 1]);
      if h[n - 1].Set? {
        assert !NeedsRehash(t1);
        PutParts(hash, t1, h[n - 1].key, h[n - 1].val);
        WriteBehind(hash, t1, h[n - 1].key, h[n - 1].val, k, x);
      }
      if SameChain(hash, t1, k, x) {
        j := BehindLater(hash, t, h, n - 1, k, x);
      } else {
        j := n - 1;
      }
    }
  }

  lemma {:induction false} PlacedAfter<K, V>(hash: K -> nat, t: Table<K, V>, h: seq<Use<K, V>>)
    requires Shaped(t) && Placed(hash, t)
    ensures Placed(hash, AfterT(hash, t, h))
  {
    hide Placed, PutT;
    if h != [] {
      var n := |h| - 1;
      PlacedAfter(hash, t, h[..n]);
      if h[n].Set? {
        PutPlaced(hash, AfterT(hash, t, h[..n]), h[n].key, h[n].val);
      }
    }
  }

  lemma WriteBehind<K, V>(hash: K -> nat, t: Table<K, V>, y: K, v: V, k: K, x: K)
    requires Shaped(t) && Placed(hash, t) && SameChain(hash, Write(hash, t, y, v), k, x)
    ensures SameChain(hash, t, k, x) || (x == y && GetT(hash, t, x).None? && GetT(hash, t, k).Some?)
  {
    var i := hash(y) % t.cap;
    var c := t.buckets[i];
    if hash(k) % t.cap == i {
      var c' := ChainPut(c, y, v);
      var a, b :| 0 <= a < b < |c'| && c'[a].0 == k && c'[b].0 == x;
      FindSome(c, y);
      FindSome(c, k);
      if Find(c, y).None? {
        PutNew(c, y, v);
        assert c'[a] == c[a];
        if b < |c| {
          assert c[b].0 == x;
        }
      } else {
        var m :| 0 <= m < |c| && c[m].0 == y;
        PutOver(c, y, v, m);
        assert c[a].0 == k && c[b].0 == x;
      }
    }
  }

  // ----- when the table grows -----

  /** Filling a table that has room for all of it keeps the order of each chain. */
  lemma {:induction false} RefillOrder<K, V>(hash: K -> nat, cap: nat, es: Chain<K, V>, a: nat, b: nat)
    requires cap >= 1 && DistinctKeys(es) && 10 * |es| < 7 * cap && a < b < |es|
    requires hash(es[a].0) % cap == hash(es[b].0) % cap
    ensures Refill(hash, cap, es).cap == cap && SameChain(hash, Refill(hash, cap, es), es[a].0, es[b].0)
    decreases |es|
  {
    hide PutT, NeedsRehash, Placed;
    var n := |es| - 1;
    var t := Refill(hash, cap, es[..n]);
    RefillHolds(hash, cap, es[..n], es[n].0);
    FindSome(es[..n], es[n].0);
    RefillCap(hash, cap, es[..n]);
    RefillNext(hash, cap, es[..n], es[n]);
    assert es == es[..n] + [es[n]];
    PutParts(hash, t, es[n].0, es[n].1);
    assert !NeedsRehash(t) by { FullEnough(hash, t, n, cap); }
    if b < n {
      RefillOrder(hash, cap, es[..n], a, b);
      WriteKeeps(hash, t, es[n].0, es[n].1, es[a].0, es[b].0);
    } else {
      RefillHolds(hash, cap, es[..n], es[a].0);
      FindSome(es[..n], es[a].0);
      assert es[..n][a].0 == es[a].0;
      WriteBehindNew(hash, t, es[n].0, es[n].1, es[a].0);
    }
  }

  lemma FullEnough<K, V>(hash: K -> nat, t: Table<K, V>, n: nat, cap: nat)
    requires Shaped(t) && Exact(hash, t) && Count(t) == n && t.cap == cap && 10 * n < 7 * cap
    ensures !NeedsRehash(t)
  {
  }

  lemma {:induction false} RefillCap<K, V>(hash: K -> nat, cap: nat, es: Chain<K, V>)
    requires cap >= 1 && DistinctKeys(es) && 10 * |es| < 7 * cap
    ensures Refill(hash, cap, es).cap == cap
    decreases |es|
  {
    hide PutT, NeedsRehash, Placed;
    if es != [] {
      var n := |es| - 1;
      RefillCap(hash, cap, es[..n]);
      RefillHolds(hash, cap, es[..n], es[n].0);
      RefillNext(hash, cap, es[..n], es[n]);
      assert es == es[..n] + [es[n]];
      FullEnough(hash, Refill(hash, cap, es[..n]), n, cap);
      PutParts(hash, Refill(hash, cap, es[..n]), es[n].0, es[n].1);
    }
  }

  /** A new key goes to the end, so what stood in order stays in order. */
  lemma WriteKeeps<K, V>(hash: K -> nat, t: Table<K, V>, y: K, v: V, k: K, x: K)
    requires Shaped(t) && GetT(hash, t, y).None? && SameChain(hash, t, k, x)
    ensures SameChain(hash, Write(hash, t, y, v), k, x)
  {
    var c := t.buckets[hash(y) % t.cap];
    PutNew(c, y, v);
    if hash(k) % t.cap == hash(y) % t.cap {
      var a, b :| 0 <= a < b < |c| && c[a].0 == k && c[b].0 == x;
      assert (c + [(y, v)])[a].0 == k && (c + [(y, v)])[b].0 == x;
    }
  }

  lemma WriteBehindNew<K, V>(hash: K -> nat, t: Table<K, V>, y: K, v: V, k: K)
    requires Shaped(t) && GetT(hash, t, y).None? && GetT(hash, t, k).Some? && hash(k) % t.cap == hash(y) % t.cap
    ensures SameChain(hash, Write(hash, t, y, v), k, y)
  {
    var c := t.buckets[hash(y) % t.cap];
    PutNew(c, y, v);
    FindSome(c, k);
    var a :| 0 <= a < |c| && c[a].0 == k;
    assert (c + [(y, v)])[a].0 == k && (c + [(y, v)])[|c|].0 == y;
  }

  /** The entries of a table bucket by bucket: a key of a lower bucket comes first. */
  lemma {:induction false} EntriesOrder<K, V>(hash: K -> nat, t: Table<K, V>, n: nat, k: K, x: K) returns (a: nat, b: nat)
    requires Shaped(t) && Placed(hash, t) && n <= t.cap && hash(k) % t.cap < hash(x) % t.cap < n
    requires GetT(hash, t, k).Some? && GetT(hash, t, x).Some?
    ensures var es := Entries(t.buckets[..n]); a < b < |es| && es[a].0 == k && es[b].0 == x
    decreases n
  {
    hide Placed, DistinctKeys;
    var before, last := Entries(t.buckets[..n - 1]), t.buckets[n - 1];
    assert t.buckets[..n][..n - 1] == t.buckets[..n - 1];
    if hash(x) % t.cap < n - 1 {
      a, b := EntriesOrder(hash, t, n - 1, k, x);
      assert (before + last)[a] == before[a] && (before + last)[b] == before[b];
    } else {
      EntriesFind(hash, t, n - 1, k);
      FindSome(before, k);
      FindSome(last, x);
      a :| 0 <= a < |before| && before[a].0 == k;
      var m: nat :| m < |last| && last[m].0 == x;
      b := |before| + m;
      assert (before + last)[a] == before[a] && (before + last)[b] == last[m];
    }
  }

  /** Writing over a key when the table is just full enough to grow loses every key that comes into the same bucket of
      the larger table from a higher bucket of the smaller one. */
  lemma LostByGrowth<K, V>(hash: K -> nat, t: Table<K, V>, k: K, v: V, x: K)
    requires Shaped(t) && Exact(hash, t) && NeedsRehash(t) && 10 * t.len < 7 * Grown(t.cap) && Grown(t.cap) >= 1
    requires GetT(hash, t, k).Some? && GetT(hash, t, x).Some?
    requires hash(k) % t.cap < hash(x) % t.cap && hash(k) % Grown(t.cap) == hash(x) % Grown(t.cap)
    ensures GetT(hash, PutT(hash, t, k, v), x).None?
  {
    hide PutT, Refill, Placed, DistinctKeys;
    var es := Entries(t.buckets);
    ExactPlaced(hash, t);
    assert t.buckets[..t.cap] == t.buckets;
    EntriesDistinct(hash, t, t.cap);
    var a, b := EntriesOrder(hash, t, t.cap, k, x);
    RefillOrder(hash, Grown(t.cap), es, a, b);
    RehashParts(hash, t);
    assert SameChain(hash, Roomy(hash, t), k, x);
    PutExactly(hash, t, k, v, x);
  }
}
