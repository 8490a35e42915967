/** Registers a quad takes for itself: what is stored while they are held gets others, and all else is as if they were
    taken and given back one after the other. */
module Holding {
  import opened Ast
  import opened LiveRanges
  import opened Nests
  import opened RegAlloc
  import opened CallAlloc
  import opened CallTable
  import HashMap

  /** Given back, the last one taken first. */
  function DropBack(k: Stacks, regs: seq<Reg>): Stacks
    decreases |regs|
  {
    if regs == [] then k else DropBack(Drop(k, regs[|regs| - 1]), Front(regs))
  }

  /** The same request, made while these registers are held. */
  function Hold(a: Addr, held: seq<Reg>): Addr
  {
    if a.Cgt? then a.(held := held) else a
  }

  function HoldAll(addrs: seq<Addr>, held: seq<Reg>): (r: seq<Addr>)
    ensures |r| == |addrs|
  {
    if addrs == [] then [] else HoldAll(Front(addrs), held) + [Hold(addrs[|addrs| - 1], held)]
  }

  lemma SameStacks(k: Stacks, k': Stacks)
    requires k.Keys == k'.Keys && forall r :: StackOf(k, r) == StackOf(k', r)
    ensures k == k'
  {
    forall r | r in k
      ensures k[r] == k'[r]
    {
      assert StackOf(k, r) == StackOf(k', r);
    }
  }

  // ----- taking and giving back -----

  lemma {:induction false} ReservedKeys(k: Stacks, regs: seq<Reg>, pos: nat)
    ensures ReserveAll(k, regs, pos).Keys == k.Keys + set r | r in regs
  {
    if regs != [] {
      ReservedKeys(k, Front(regs), pos);
      FrontIn(regs);
    }
  }

  lemma {:induction false} DropBackOnce(k: Stacks, regs: seq<Reg>, r: Reg)
    requires Distinct(regs)
    ensures StackOf(DropBack(k, regs), r) == if r in regs then Front(StackOf(k, r)) else StackOf(k, r)
    ensures DropBack(k, regs).Keys == k.Keys + set q | q in regs
    decreases |regs|
  {
    if regs != [] {
      FrontIn(regs);
      DropBackOnce(Drop(k, regs[|regs| - 1]), Front(regs), r);
    }
  }

  lemma OneBracket(k: Stacks, q: Reg, pos: nat, r: Reg)
    ensures var k' := Drop(Reserve(k, q, pos), q);
            && StackOf(k', r) == (if r == q then Front(StackOf(Reserve(k, q, pos), q)) else StackOf(k, r))
            && k'.Keys == k.Keys + {q}
  {
    hide InUse;
    ReserveOne(k, q, pos, r);
  }

  lemma {:induction false} BracketsKeys(k: Stacks, regs: seq<Reg>, pos: nat, r: Reg)
    requires Distinct(regs)
    ensures StackOf(Brackets(k, regs, pos), r) == if r in regs then Front(StackOf(Reserve(k, r, pos), r)) else StackOf(k, r)
    ensures Brackets(k, regs, pos).Keys == k.Keys + set q | q in regs
  {
    hide Reserve, StackOf, Drop;
    if regs != [] {
      var q, k1 := regs[|regs| - 1], Brackets(k, Front(regs), pos);
      FrontIn(regs);
      BracketsKeys(k, Front(regs), pos, r);
      BracketsKeys(k, Front(regs), pos, q);
      OneBracket(k1, q, pos, r);
      ReserveSame(k1, k, q, pos);
    }
  }

  /** Taken together and given back in reverse, or one after the other: the same. */
  lemma HeldBrackets(k: Stacks, regs: seq<Reg>, pos: nat)
    requires Distinct(regs)
    ensures DropBack(ReserveAll(k, regs, pos), regs) == Brackets(k, regs, pos)
  {
    hide StackOf, Reserve;
    var held := ReserveAll(k, regs, pos);
    ReservedKeys(k, regs, pos);
    DropBackOnce(held, regs, RAX);
    BracketsKeys(k, regs, pos, RAX);
    forall r
      ensures StackOf(DropBack(held, regs), r) == StackOf(Brackets(k, regs, pos), r)
    {
      ReservedOnce(k, regs, pos, r);
      DropBackOnce(held, regs, r);
      BracketsKeys(k, regs, pos, r);
    }
    SameStacks(DropBack(held, regs), Brackets(k, regs, pos));
  }

  // ----- requests while registers are held -----

  lemma UpdateHeld(k: Stacks, regs: seq<Reg>, pos: nat, r: Reg, lr: Option<Range>)
    requires Distinct(regs) && r !in regs
    ensures Update(ReserveAll(k, regs, pos), r, lr) == ReserveAll(Update(k, r, lr), regs, pos)
  {
    hide Reserve, ReserveAll;
    ReservedKeys(k, regs, pos);
    ReservedKeys(Update(k, r, lr), regs, pos);
    forall q
      ensures StackOf(Update(ReserveAll(k, regs, pos), r, lr), q) == StackOf(ReserveAll(Update(k, r, lr), regs, pos), q)
    {
      ReservedOnce(k, regs, pos, q);
      ReservedOnce(Update(k, r, lr), regs, pos, q);
      ReserveSame(k, Update(k, r, lr), q, pos);
    }
    SameStacks(Update(ReserveAll(k, regs, pos), r, lr), ReserveAll(Update(k, r, lr), regs, pos));
  }

  /** Registers that are held are passed over. */
  lemma {:induction false} PickHeld(k: Stacks, regs: seq<Reg>, pos: nat, lr: Range, order: seq<Reg>)
    requires Distinct(regs) && lr.starts <= LAST && pos <= lr.ends
    ensures Pick(ReserveAll(k, regs, pos), Some(lr), order) == Pick(k, Some(lr), Without(order, regs))
  {
    hide ReserveAll, Reserve;
    if order != [] {
      var r := order[0];
      PickHeld(k, regs, pos, lr, order[1..]);
      ReservedOnce(k, regs, pos, r);
      ReserveOne(k, r, pos, r);
    }
  }

  /** The range of a temporary meets the quad. */
  predicate Meets(ranges: map<nat, Range>, a: Addr, pos: nat)
  {
    a.Cgt? ==> a.held == [] && a.t in ranges && ranges[a.t].starts <= LAST && pos <= ranges[a.t].ends
  }

  lemma StoredHeld(hash: Hash, ranges: map<nat, Range>, S: AllocT, regs: seq<Reg>, pos: nat, a: Addr)
    requires Distinct(regs) && Meets(ranges, a, pos)
    ensures StoredT(hash, ranges, S.(stacks := ReserveAll(S.stacks, regs, pos)), a) ==
            var T := StoredT(hash, ranges, S, Hold(a, regs)); T.(stacks := ReserveAll(T.stacks, regs, pos))
  {
    hide HashMap.GetT, HashMap.PutT, TempLabel, Offset, ReserveAll, Update, Pick, Without;
    if a.Cgt? {
      PickHeld(S.stacks, regs, pos, ranges[a.t], LOCAL_ORDER);
      assert Without(LOCAL_ORDER, []) == LOCAL_ORDER;
      var r := Pick(S.stacks, Some(ranges[a.t]), Without(LOCAL_ORDER, regs));
      if r.Some? {
        NotHeld(S.stacks, Some(ranges[a.t]), LOCAL_ORDER, regs);
        UpdateHeld(S.stacks, regs, pos, r.value, Some(ranges[a.t]));
      }
    }
  }

  lemma {:induction false} NotHeld(k: Stacks, lr: Option<Range>, order: seq<Reg>, held: seq<Reg>)
    ensures Pick(k, lr, Without(order, held)).Some? ==> Pick(k, lr, Without(order, held)).value !in held
  {
    hide Intersects, Peek;
    if order != [] {
      NotHeld(k, lr, order[1..], held);
    }
  }

  /** All requests made while registers are held. */
  lemma {:induction false} AllHeld(hash: Hash, ranges: map<nat, Range>, S: AllocT, regs: seq<Reg>, pos: nat, addrs: seq<Addr>)
    requires Distinct(regs) && forall a :: a in addrs ==> Meets(ranges, a, pos)
    ensures StoreAllT(hash, ranges, S.(stacks := ReserveAll(S.stacks, regs, pos)), addrs) ==
            var T := StoreAllT(hash, ranges, S, HoldAll(addrs, regs)); T.(stacks := ReserveAll(T.stacks, regs, pos))
    decreases |addrs|
  {
    hide StoredT, ReserveAll, Meets, Hold;
    if addrs != [] {
      var f, a := Front(addrs), addrs[|addrs| - 1];
      assert addrs == f + [a];
      AllHeld(hash, ranges, S, regs, pos, f);
      StoredHeld(hash, ranges, StoreAllT(hash, ranges, S, HoldAll(f, regs)), regs, pos, a);
      assert Front(HoldAll(addrs, regs)) == HoldAll(f, regs);
    }
  }

  lemma {:induction false} StoreJoin(hash: Hash, ranges: map<nat, Range>, S: AllocT, a: seq<Addr>, b: seq<Addr>)
    ensures StoreAllT(hash, ranges, S, a + b) == StoreAllT(hash, ranges, StoreAllT(hash, ranges, S, a), b)
    decreases |b|
  {
    hide StoredT;
    if b == [] {
      assert a + b == a;
    } else {
      StoreJoin(hash, ranges, S, a, Front(b));
      assert Front(a + b) == a + Front(b);
    }
  }
}
