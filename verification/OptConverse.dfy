/** Single windows and what they become: when the two do the same in every state, and when not. */
module OptConverse {
  import opened Words
  import opened Ast
  import opened Quads
  import opened Optimizer
  import opened OptSim
  import opened OptFaults

  datatype Moment = Moment(temps: Temps, store: Store, frames: seq<seq<Val>>)

  datatype End = Falls(m: Moment) | Jumps(target: Operand, m: Moment) | Stops(v: Val, store: Store) | Wrong

  /** What a stretch of quads does up to its end or its first jump. */
  function Through(env: Env, c: Code, m: Moment): End
  {
    if c == [] then Falls(m)
    else if c[0].Label? then Through(env, c[1..], m)
    else match ActAt(env, c[0], State(0, m.temps, m.store, m.frames))
      case Fall(res, v, store, frames) => Through(env, c[1..], Moment(SetTemp(res, v, m.temps), store, frames))
      case Leap(target) => Jumps(target, m)
      case Finish(v) => Stops(v, m.store)
      case Fail => Wrong
  }

  /** The same memory, and the same temporaries apart from those that disappear. */
  ghost predicate SameMoment(a: Moment, b: Moment, gone: set<nat>)
  {
    a.store == b.store && a.frames == b.frames && forall t: nat :: t !in gone ==> Get(a.temps, t) == Get(b.temps, t)
  }

  ghost predicate SameEnd(a: End, b: End, gone: set<nat>)
  {
    match a
    case Falls(m) => b.Falls? && SameMoment(m, b.m, gone)
    case Jumps(target, m) => b.Jumps? && b.target == target && SameMoment(m, b.m, gone)
    case Stops(_, _) => a == b
    case Wrong => true
  }

  /** Whatever the state, unless the original goes wrong, both do the same. */
  ghost predicate Faithful(env: Env, c: Code, out: Code, gone: set<nat>)
  {
    forall m: Moment :: SameEnd(Through(env, c, m), Through(env, out, m), gone)
  }

  lemma Differs(env: Env, c: Code, out: Code, gone: set<nat>, m: Moment)
    requires !SameEnd(Through(env, c, m), Through(env, out, m), gone)
    ensures !Faithful(env, c, out, gone)
  {
  }

  // ----- runs of one, two and three quads -----

  lemma {:induction false} Onto(env: Env, a: Code, b: Code, m: Moment)
    ensures Through(env, a + b, m) == match Through(env, a, m) { case Falls(m1) => Through(env, b, m1) case end => end }
    decreases |a|
  {
    hide ActAt;
    if a == [] {
      assert a + b == b;
    } else {
      assert (a + b)[0] == a[0] && (a + b)[1..] == a[1..] + b;
      if a[0].Label? {
        Onto(env, a[1..], b, m);
      } else {
        match ActAt(env, a[0], State(0, m.temps, m.store, m.frames))
        case Fall(res, v, store, frames) => Onto(env, a[1..], b, Moment(SetTemp(res, v, m.temps), store, frames));
        case _ =>
      }
    }
  }

  lemma Two(env: Env, q1: Quad, q2: Quad, m: Moment)
    ensures Through(env, [q1, q2], m) ==
            match Through(env, [q1], m) { case Falls(m1) => Through(env, [q2], m1) case end => end }
  {
    hide Through;
    assert [q1, q2] == [q1] + [q2];
    Onto(env, [q1], [q2], m);
  }

  lemma Three(env: Env, q1: Quad, q2: Quad, q3: Quad, m: Moment)
    ensures Through(env, [q1, q2, q3], m) ==
            match Through(env, [q1, q2], m) { case Falls(m2) => Through(env, [q3], m2) case end => end }
  {
    hide Through;
    assert [q1, q2, q3] == [q1, q2] + [q3];
    Onto(env, [q1, q2], [q3], m);
  }

  function In(m: Moment, a: Operand): Val
  {
    Read(a, m.temps, m.store)
  }

  function WithTemp(m: Moment, t: nat, v: Val): Moment
  {
    m.(temps := m.temps[t := v])
  }

  /** One quad that sets a temporary. */
  lemma SetsTemp(env: Env, q: Quad, m: Moment)
    requires q.Quad? && q.res.ATemp? && (q.op == Copy || q.op.Un? || q.op.OpCast? || (q.op == OpRef && q.arg1.AName?))
    ensures Through(env, [q], m) ==
            Falls(WithTemp(m, q.res.t,
                           if q.op == Copy then In(m, q.arg1) else if q.op.Un? then UnVal(q.op.un, In(m, q.arg1))
                           else if q.op.OpCast? then CastVal(q.op.to, In(m, q.arg1)) else Addr(q.arg1.name)))
  {
    hide UnVal, CastVal, Read;
    assert [q][1..] == [];
  }

  lemma Combines(env: Env, q: Quad, m: Moment)
    requires q.Quad? && q.res.ATemp? && q.op.Alu?
    ensures var v := AluVal(q.op.alu, In(m, q.arg1), In(m, q.arg2));
            Through(env, [q], m) == if v.Some? then Falls(WithTemp(m, q.res.t, v.value)) else Wrong
  {
    hide AluVal, Read;
    assert [q][1..] == [];
  }

  lemma Decides(env: Env, q: Quad, m: Moment)
    requires q.Quad? && IsCondJump(q.op)
    ensures var taken := Condition(q.op, In(m, q.arg1), In(m, q.arg2));
            Through(env, [q], m) == if taken == Some(true) then Jumps(q.res, m) else if taken == Some(false) then Falls(m) else Wrong
  {
    hide Condition, Read;
    assert [q][1..] == [];
    assert SetTemp(ANone, Void, m.temps) == m.temps;
    assert Moment(m.temps, m.store, m.frames) == m;
  }

  lemma Stores(env: Env, q: Quad, m: Moment)
    requires IsOp(q, DerefCopy)
    ensures var d := In(m, q.res);
            Through(env, [q], m) == if d.Addr? then Falls(m.(store := m.store[d.name := In(m, q.arg1)])) else Wrong
  {
    hide Read;
    assert [q][1..] == [];
  }

  lemma SetsName(env: Env, x: string, a: Operand, m: Moment)
    ensures Through(env, [CopyOf(AName(x, false), a)], m) == Falls(m.(store := m.store[x := In(m, a)]))
  {
    hide Read;
    assert [CopyOf(AName(x, false), a)][1..] == [];
  }

  lemma Always(env: Env, taken: bool, target: Operand, m: Moment)
    ensures Through(env, Optimizer.Branch(taken, target), m) == if taken then Jumps(target, m) else Falls(m)
  {
  }

  // ----- storing through an address just taken -----

  /** `tX = &x; *tX = a` and `x = a` do the same in every state if and only if a is not tX. */
  lemma RefExact(env: Env, x: string, t: nat, a: Operand)
    ensures Faithful(env, [RefTo(t, x), Put(t, a)], [CopyOf(AName(x, false), a)], {t}) <==> a != ATemp(t)
  {
    hide Through, Read, SameEnd;
    var c, out := [RefTo(t, x), Put(t, a)], [CopyOf(AName(x, false), a)];
    if a != ATemp(t) {
      forall m: Moment
        ensures SameEnd(Through(env, c, m), Through(env, out, m), {t})
      {
        RefRuns(env, x, t, a, m);
        GoneTemp(m, t, Addr(x), m.store[x := In(m, a)]);
      }
    } else {
      var m := Moment(map[t := Num(0)], map[], []);
      RefRuns(env, x, t, a, m);
      assert In(m, a) == Num(0) by { ReadIt(m, t); }
      StoresDiffer(m, t, x);
      Differs(env, c, out, {t}, m);
    }
  }

  lemma RefRuns(env: Env, x: string, t: nat, a: Operand, m: Moment)
    ensures Through(env, [RefTo(t, x), Put(t, a)], m) ==
            Falls(WithTemp(m, t, Addr(x)).(store := m.store[x := if a == ATemp(t) then Addr(x) else In(m, a)]))
    ensures Through(env, [CopyOf(AName(x, false), a)], m) == Falls(m.(store := m.store[x := In(m, a)]))
  {
    hide Through, Read;
    var m1 := WithTemp(m, t, Addr(x));
    Two(env, RefTo(t, x), Put(t, a), m);
    SetsTemp(env, RefTo(t, x), m);
    ReadSet(m, t, Addr(x), a);
    ReadSet(m, t, Addr(x), ATemp(t));
    Stores(env, Put(t, a), m1);
    SetsName(env, x, a, m);
  }

  lemma ReadIt(m: Moment, t: nat)
    requires t in m.temps
    ensures In(m, ATemp(t)) == m.temps[t]
  {
  }

  lemma ReadSet(m: Moment, t: nat, v: Val, a: Operand)
    ensures In(WithTemp(m, t, v), a) == if a == ATemp(t) then v else In(m, a)
  {
  }

  lemma GoneTemp(m: Moment, t: nat, v: Val, store: Store)
    ensures SameEnd(Falls(WithTemp(m, t, v).(store := store)), Falls(m.(store := store)), {t})
  {
  }

  lemma StoresDiffer(m: Moment, t: nat, x: string)
    ensures !SameEnd(Falls(WithTemp(m, t, Addr(x)).(store := m.store[x := Addr(x)])), Falls(m.(store := m.store[x := Num(0)])), {t})
  {
    assert m.store[x := Addr(x)][x] != m.store[x := Num(0)][x];
  }

  // ----- copies into tests and stores -----

  /** `tX = a; if tX == b` (or !=) and the test on a itself do the same if and only if b is not tX, or a is. */
  lemma TestExact(env: Env, t: nat, a: Operand, rel: JumpRel, b: Operand, target: Operand)
    requires rel in {JumpE, JumpNe}
    ensures Faithful(env, [Set(t, a), Quad(CJump(rel), target, ATemp(t), b)], [Quad(CJump(rel), target, a, b)], {t}) <==>
            b != ATemp(t) || a == ATemp(t)
  {
    hide Through, Read, SameMoment, Get;
    var c, out := [Set(t, a), Quad(CJump(rel), target, ATemp(t), b)], [Quad(CJump(rel), target, a, b)];
    forall m: Moment
      ensures var v := In(m, a);
              var equal := v == if b == ATemp(t) then v else In(m, b);
              && Through(env, c, m) == (if equal == (rel == JumpE) then Jumps(target, WithTemp(m, t, v)) else Falls(WithTemp(m, t, v)))
              && Through(env, out, m) == (if (v == In(m, b)) == (rel == JumpE) then Jumps(target, m) else Falls(m))
      ensures SameMoment(WithTemp(m, t, In(m, a)), m, {t})
    {
      Two(env, Set(t, a), Quad(CJump(rel), target, ATemp(t), b), m);
      SetsTemp(env, Set(t, a), m);
      Decides(env, Quad(CJump(rel), target, ATemp(t), b), WithTemp(m, t, In(m, a)));
      ReadSet(m, t, In(m, a), b);
      ReadSet(m, t, In(m, a), ATemp(t));
      Decides(env, Quad(CJump(rel), target, a, b), m);
      GoneOne(m, t, In(m, a));
    }
    if b == ATemp(t) && a != ATemp(t) {
      var m := Moment(map[t := if a.AConst? then Void else Num(0)], map[], []);
      assert In(m, a) != In(m, b) by { Unlike(a, t); }
      Differs(env, c, out, {t}, m);
    }
  }

  lemma GoneOne(m: Moment, t: nat, v: Val)
    ensures SameMoment(WithTemp(m, t, v), m, {t})
  {
  }

  lemma Unlike(a: Operand, t: nat)
    requires a != ATemp(t)
    ensures var m := Moment(map[t := if a.AConst? then Void else Num(0)], map[], []); In(m, a) != In(m, ATemp(t))
  {
  }

  /** `tX = a; *tY = tX` and `*tY = a` do the same if and only if tY is not tX, or a is, or a is never an address. */
  lemma StoreExact(env: Env, t: nat, a: Operand, r: nat)
    ensures Faithful(env, [Set(t, a), Put(r, ATemp(t))], [Put(r, a)], {t}) <==>
            r != t || a == ATemp(t) || !(a.ATemp? || (a.AName? && !a.isFn))
  {
    hide Through, Read, SameEnd;
    var c, out := [Set(t, a), Put(r, ATemp(t))], [Put(r, a)];
    if r != t || a == ATemp(t) || !(a.ATemp? || (a.AName? && !a.isFn)) {
      forall m: Moment
        ensures SameEnd(Through(env, c, m), Through(env, out, m), {t})
      {
        StoreRuns(env, t, a, r, m);
        NeverAddress(m, a);
        AfterStore(m, t, a, In(m, ATemp(r)));
      }
    } else {
      var m := Moment(if a.ATemp? then map[t := Addr("q"), a.t := Addr("p")] else map[t := Addr("q")],
                      if a.AName? then map[a.name := Addr("p")] else map[], []);
      TwoAddresses(a, t);
      StoreRuns(env, t, a, r, m);
      PlacesDiffer(m, t, a);
      Differs(env, c, out, {t}, m);
    }
  }

  function StoreAt(m: Moment, d: Val, v: Val): End
  {
    if d.Addr? then Falls(m.(store := m.store[d.name := v])) else Wrong
  }

  lemma StoreRuns(env: Env, t: nat, a: Operand, r: nat, m: Moment)
    ensures var v := In(m, a);
            && Through(env, [Set(t, a), Put(r, ATemp(t))], m) ==
                StoreAt(WithTemp(m, t, v), if r == t then v else In(m, ATemp(r)), v)
            && Through(env, [Put(r, a)], m) == StoreAt(m, In(m, ATemp(r)), v)
  {
    hide Through, Read;
    Two(env, Set(t, a), Put(r, ATemp(t)), m);
    SetsTemp(env, Set(t, a), m);
    Stores(env, Put(r, ATemp(t)), WithTemp(m, t, In(m, a)));
    ReadSet(m, t, In(m, a), ATemp(t));
    ReadSet(m, t, In(m, a), ATemp(r));
    Stores(env, Put(r, a), m);
  }

  lemma AfterStore(m: Moment, t: nat, a: Operand, d: Val)
    ensures SameEnd(StoreAt(WithTemp(m, t, In(m, a)), d, In(m, a)), StoreAt(m, d, In(m, a)), {t})
    ensures !In(m, a).Addr? ==> SameEnd(StoreAt(WithTemp(m, t, In(m, a)), In(m, a), In(m, a)), StoreAt(m, d, In(m, a)), {t})
  {
    hide Read;
  }

  lemma NeverAddress(m: Moment, a: Operand)
    ensures !(a.ATemp? || (a.AName? && !a.isFn)) ==> !In(m, a).Addr?
  {
  }

  lemma TwoAddresses(a: Operand, t: nat)
    requires a != ATemp(t) && (a.ATemp? || (a.AName? && !a.isFn))
    ensures var m := Moment(if a.ATemp? then map[t := Addr("q"), a.t := Addr("p")] else map[t := Addr("q")],
                            if a.AName? then map[a.name := Addr("p")] else map[], []);
            In(m, a) == Addr("p") && In(m, ATemp(t)) == Addr("q")
  {
  }

  lemma PlacesDiffer(m: Moment, t: nat, a: Operand)
    requires m.store == if a.AName? then map[a.name := Addr("p")] else map[]
    ensures !SameEnd(StoreAt(WithTemp(m, t, Addr("p")), Addr("p"), Addr("p")), StoreAt(m, Addr("q"), Addr("p")), {t})
  {
    var s1, s2 := m.store["p" := Addr("p")], m.store["q" := Addr("p")];
    assert "p"[0] != "q"[0];
    if a.AName? && a.name == "p" {
      assert "q" !in s1 && "q" in s2;
    } else {
      assert "p" in s1 && "p" !in s2;
    }
  }

  // ----- constants into casts, signs, complements and tests -----

  predicate IsUnary(q: Quad)
  {
    q.Quad? && (q.op.OpCast? || q.op.Un?) && q.res.ATemp?
  }

  function UnaryVal(op: Op, v: Val): Val
    requires op.OpCast? || op.Un?
  {
    if op.Un? then UnVal(op.un, v) else CastVal(op.to, v)
  }

  /** What disappears with a copied constant, unless the last quad sets it again. */
  function Erased(t: nat, q: Quad): set<nat>
    requires q.Quad?
  {
    if q.res == ATemp(t) then {} else {t}
  }

  lemma UnaryRuns(env: Env, t: nat, w: Word, q: Quad, m: Moment)
    requires IsUnary(q) && (q.arg1 == ATemp(t) || q.arg1.AName?)
    ensures Through(env, [Set(t, AConst(w)), q], m) ==
            Falls(WithTemp(WithTemp(m, t, Num(w)), q.res.t, UnaryVal(q.op, if q.arg1 == ATemp(t) then Num(w) else In(m, q.arg1))))
    ensures Through(env, FoldUnary(q, w), m) ==
            if q.op == OpCast(TPtr) then Falls(m) else Falls(WithTemp(m, q.res.t, UnaryVal(q.op, Num(w))))
  {
    hide Read, CastWord, FoldUn, UnVal;
    Two(env, Set(t, AConst(w)), q, m);
    SetsTemp(env, Set(t, AConst(w)), m);
    assert In(m, AConst(w)) == Num(w) by { ReadConst(m, w); }
    SetsTemp(env, q, WithTemp(m, t, Num(w)));
    ReadSet(m, t, Num(w), q.arg1);
    FoldedUnary(q.op, w);
    if q.op != OpCast(TPtr) {
      var c := (if q.op.Un? then FoldUn(q.op.un, w) else CastWord(q.op.to, w));
      SetsTemp(env, CopyOf(q.res, AConst(c)), m);
      ReadConst(m, c);
    }
  }

  lemma ReadConst(m: Moment, w: Word)
    ensures In(m, AConst(w)) == Num(w)
  {
  }

  lemma FoldedUnary(op: Op, w: Word)
    requires op.OpCast? || op.Un?
    ensures UnaryVal(op, Num(w)) == Num(if op.Un? then FoldUn(op.un, w) else CastWord(op.to, w))
    ensures UnaryVal(op, Void) == Void
  {
    hide CastWord;
  }

  /** A constant folded into a cast, a sign or a complement: right in every state if and only if the operand is
      the temporary itself, not a variable of the same number, and the cast is not to a pointer. */
  lemma UnaryExact(env: Env, t: nat, w: Word, q: Quad)
    requires IsUnary(q) && (q.arg1 == ATemp(t) || (q.arg1.AName? && !q.arg1.isFn))
    ensures Faithful(env, [Set(t, AConst(w)), q], FoldUnary(q, w), Erased(t, q)) <==>
            q.arg1 == ATemp(t) && q.op != OpCast(TPtr)
  {
    hide Through, FoldUnary, SameEnd, UnaryVal, Read;
    var c, out, gone := [Set(t, AConst(w)), q], FoldUnary(q, w), Erased(t, q);
    if q.arg1 == ATemp(t) && q.op != OpCast(TPtr) {
      forall m: Moment
        ensures SameEnd(Through(env, c, m), Through(env, out, m), gone)
      {
        UnaryRuns(env, t, w, q, m);
        SetTwice(m, t, Num(w), q.res.t, UnaryVal(q.op, Num(w)));
      }
    } else {
      var m := Moment(map[], if q.op == OpCast(TPtr) && q.arg1.AName? then map[q.arg1.name := Num(0)] else map[], []);
      UnaryRuns(env, t, w, q, m);
      FoldedUnary(q.op, w);
      FoldedUnary(q.op, 0);
      OperandHere(m, q);
      TempsDiffer(m, t, w, q);
      Differs(env, c, out, gone, m);
    }
  }

  lemma OperandHere(m: Moment, q: Quad)
    requires q.Quad? && q.arg1.AName? ==> !q.arg1.isFn && m.store == if q.op == OpCast(TPtr) then map[q.arg1.name := Num(0)] else map[]
    ensures q.Quad? && q.arg1.AName? ==> In(m, q.arg1) == if q.op == OpCast(TPtr) then Num(0) else Void
  {
  }

  lemma SetTwice(m: Moment, t: nat, v: Val, z: nat, u: Val)
    ensures SameEnd(Falls(WithTemp(WithTemp(m, t, v), z, u)), Falls(WithTemp(m, z, u)), if z == t then {} else {t})
  {
  }

  lemma TempsDiffer(m: Moment, t: nat, w: Word, q: Quad)
    requires IsUnary(q) && m.temps == map[]
    ensures var gone := Erased(t, q);
            && (forall v: Val :: v != Void ==> !SameEnd(Falls(WithTemp(WithTemp(m, t, Num(w)), q.res.t, v)), Falls(m), gone))
            && (forall v: Val :: v != Void ==>
                  !SameEnd(Falls(WithTemp(WithTemp(m, t, Num(w)), q.res.t, Void)), Falls(WithTemp(m, q.res.t, v)), gone))
  {
    forall v: Val | v != Void
      ensures Get(WithTemp(WithTemp(m, t, Num(w)), q.res.t, v).temps, q.res.t) != Get(m.temps, q.res.t)
      ensures Get(WithTemp(WithTemp(m, t, Num(w)), q.res.t, Void).temps, q.res.t) != Get(WithTemp(m, q.res.t, v).temps, q.res.t)
    {
    }
  }

  /** The same for a test: right in every state if and only if it tests the temporary itself. */
  lemma BranchExact(env: Env, t: nat, w: Word, q: Quad)
    requires q.Quad? && q.op in {CJumpT, CJumpF} && q.res.ALabel?
    requires (q.arg1 == ATemp(t) || (q.arg1.AName? && !q.arg1.isFn))
    ensures Faithful(env, [Set(t, AConst(w)), q], FoldUnary(q, w), {t}) <==> q.arg1 == ATemp(t)
  {
    hide Through, SameEnd, Read;
    var c, out := [Set(t, AConst(w)), q], FoldUnary(q, w);
    if q.arg1 == ATemp(t) {
      forall m: Moment
        ensures SameEnd(Through(env, c, m), Through(env, out, m), {t})
      {
        BranchRuns(env, t, w, q, m);
        GoneAway(m, t, Num(w), q.res);
      }
    } else {
      var m := Moment(map[], map[q.arg1.name := Num(if w == 0 then 1 else 0)], []);
      BranchRuns(env, t, w, q, m);
      assert In(m, q.arg1) == Num(if w == 0 then 1 else 0) by { NameHere(m, q.arg1); }
      WaysDiffer(m, t, Num(w), q.res);
      Differs(env, c, out, {t}, m);
    }
  }

  lemma NameHere(m: Moment, a: Operand)
    requires a.AName? && !a.isFn && a.name in m.store
    ensures In(m, a) == m.store[a.name]
  {
  }

  lemma BranchRuns(env: Env, t: nat, w: Word, q: Quad, m: Moment)
    requires q.Quad? && q.op in {CJumpT, CJumpF} && (q.arg1 == ATemp(t) || q.arg1.AName?)
    ensures var m1 := WithTemp(m, t, Num(w));
            var v := if q.arg1 == ATemp(t) then Num(w) else In(m, q.arg1);
            Through(env, [Set(t, AConst(w)), q], m) == if (v != Num(0)) == (q.op == CJumpT) then Jumps(q.res, m1) else Falls(m1)
    ensures Through(env, FoldUnary(q, w), m) == if (w != 0) == (q.op == CJumpT) then Jumps(q.res, m) else Falls(m)
  {
    hide Read, Through;
    Two(env, Set(t, AConst(w)), q, m);
    SetsTemp(env, Set(t, AConst(w)), m);
    ReadConst(m, w);
    ReadSet(m, t, Num(w), q.arg1);
    Decides(env, q, WithTemp(m, t, Num(w)));
    Always(env, (w != 0) == (q.op == CJumpT), q.res, m);
  }

  lemma GoneAway(m: Moment, t: nat, v: Val, target: Operand)
    ensures SameEnd(Falls(WithTemp(m, t, v)), Falls(m), {t})
    ensures SameEnd(Jumps(target, WithTemp(m, t, v)), Jumps(target, m), {t})
  {
  }

  lemma WaysDiffer(m: Moment, t: nat, v: Val, target: Operand)
    ensures !SameEnd(Falls(WithTemp(m, t, v)), Jumps(target, m), {t})
    ensures !SameEnd(Jumps(target, WithTemp(m, t, v)), Falls(m), {t})
  {
  }

  // ----- two constants, or a copied zero -----

  function Sum(k: AluOp, z: nat, a: Operand, b: Operand): Quad
  {
    Quad(Alu(k), ATemp(z), a, b)
  }

  /** What disappears with two copies. */
  function Both(x: nat, y: nat, z: nat): set<nat>
  {
    {x, y} - {z}
  }

  lemma PairRuns(env: Env, x: nat, a: Operand, y: nat, b: Operand, q: Quad, m: Moment)
    requires x != y && b != ATemp(x) && q.Quad? && q.res.ATemp? && q.op.Alu?
    ensures var m1 := WithTemp(WithTemp(m, x, In(m, a)), y, In(m, b));
            var v := AluVal(q.op.alu, In(m1, q.arg1), In(m1, q.arg2));
            && Through(env, [Set(x, a), Set(y, b), q], m) == (if v.Some? then Falls(WithTemp(m1, q.res.t, v.value)) else Wrong)
            && In(m1, ATemp(x)) == In(m, a) && In(m1, ATemp(y)) == In(m, b)
            && forall n, isFn :: In(m1, AName(n, isFn)) == In(m, AName(n, isFn))
  {
    hide Read, Through, AluVal;
    var m0 := WithTemp(m, x, In(m, a));
    Three(env, Set(x, a), Set(y, b), q, m);
    Two(env, Set(x, a), Set(y, b), m);
    SetsTemp(env, Set(x, a), m);
    SetsTemp(env, Set(y, b), m0);
    ReadSet(m, x, In(m, a), b);
    ReadSet(m, x, In(m, a), ATemp(x));
    ReadSet(m0, y, In(m, b), ATemp(x));
    ReadSet(m0, y, In(m, b), ATemp(y));
    Combines(env, q, WithTemp(m0, y, In(m, b)));
    forall n, isFn
      ensures In(WithTemp(m0, y, In(m, b)), AName(n, isFn)) == In(m, AName(n, isFn))
    {
      ReadSet(m, x, In(m, a), AName(n, isFn));
      ReadSet(m0, y, In(m, b), AName(n, isFn));
    }
  }

  lemma CopyRuns(env: Env, z: nat, a: Operand, m: Moment)
    ensures Through(env, [CopyOf(ATemp(z), a)], m) == Falls(WithTemp(m, z, In(m, a)))
  {
    hide Read, Through;
    SetsTemp(env, CopyOf(ATemp(z), a), m);
  }

  lemma SetThrice(m: Moment, x: nat, u: Val, y: nat, v: Val, z: nat, r: Val, r': Val)
    ensures SameEnd(Falls(WithTemp(WithTemp(WithTemp(m, x, u), y, v), z, r)), Falls(WithTemp(m, z, r')), Both(x, y, z)) <==> r == r'
  {
    var a, b := WithTemp(WithTemp(WithTemp(m, x, u), y, v), z, r), WithTemp(m, z, r');
    assert Get(a.temps, z) == r && Get(b.temps, z) == r';
  }

  /** Two constants folded: right in every state if and only if the fold fits or the machine would go wrong. */
  lemma FoldWindowExact(env: Env, k: AluOp, x: nat, a: Word, y: nat, b: Word, z: nat)
    requires x != y
    ensures var c := [Set(x, AConst(a)), Set(y, AConst(b)), Sum(k, z, ATemp(x), ATemp(y))];
            Faithful(env, c, [CopyOf(ATemp(z), AConst(Folded(k, a, b)))], Both(x, y, z)) <==>
            FoldFits(Sum(k, z, ATemp(x), ATemp(y)), a, b) || AluWord(k, a, b) == None
  {
    hide Through, SameEnd, Read, AluWord, Folded, FoldFits;
    var c := [Set(x, AConst(a)), Set(y, AConst(b)), Sum(k, z, ATemp(x), ATemp(y))];
    var out := [CopyOf(ATemp(z), AConst(Folded(k, a, b)))];
    FoldExact(k, a, b);
    SameFit(k, z, x, y, a, b);
    forall m: Moment
      ensures SameEnd(Through(env, c, m), Through(env, out, m), Both(x, y, z)) <==>
              AluWord(k, a, b) == None || AluWord(k, a, b) == Some(Folded(k, a, b))
    {
      PairRuns(env, x, AConst(a), y, AConst(b), Sum(k, z, ATemp(x), ATemp(y)), m);
      ReadConst(m, a);
      ReadConst(m, b);
      ReadConst(m, Folded(k, a, b));
      CopyRuns(env, z, AConst(Folded(k, a, b)), m);
      if AluWord(k, a, b).Some? {
        SetThrice(m, x, Num(a), y, Num(b), z, Num(AluWord(k, a, b).value), Num(Folded(k, a, b)));
      } else {
        WrongIsFine(Through(env, out, m), Both(x, y, z));
      }
    }
    var m0 := Moment(map[], map[], []);
    assert SameEnd(Through(env, c, m0), Through(env, out, m0), Both(x, y, z)) <==>
           AluWord(k, a, b) == None || AluWord(k, a, b) == Some(Folded(k, a, b));
  }

  lemma WrongIsFine(b: End, gone: set<nat>)
    ensures SameEnd(Wrong, b, gone)
  {
  }

  lemma SameFit(k: AluOp, z: nat, x: nat, y: nat, a: Word, b: Word)
    ensures FoldFits(Sum(k, z, ATemp(x), ATemp(y)), a, b) == FoldFits(Quad(Alu(k), ANone, ANone, ANone), a, b)
  {
  }

  /** The operands the pattern may have mixed up: the temporary itself, or a variable of the same number. */
  predicate Mixed(a: Operand, t: nat)
  {
    a == ATemp(t) || (a.AName? && !a.isFn)
  }

  /** A copy of u and a zero added: right in every state if and only if both operands are the temporaries. */
  lemma ZeroAddExact(env: Env, x: nat, u: string, y: nat, z: nat, a: Operand, b: Operand)
    requires x != y && Mixed(a, x) && Mixed(b, y) && a != AName(u, false)
    ensures var c := [Set(x, AName(u, false)), Set(y, AConst(0)), Sum(OpAdd, z, a, b)];
            Faithful(env, c, [CopyOf(ATemp(z), AName(u, false))], Both(x, y, z)) <==> a == ATemp(x) && b == ATemp(y)
  {
    hide Through, SameEnd, Read, AluVal, Both;
    var v := AName(u, false);
    var c, out := [Set(x, v), Set(y, AConst(0)), Sum(OpAdd, z, a, b)], [CopyOf(ATemp(z), v)];
    if a == ATemp(x) && b == ATemp(y) {
      forall m: Moment
        ensures SameEnd(Through(env, c, m), Through(env, out, m), Both(x, y, z))
      {
        PairRuns(env, x, v, y, AConst(0), Sum(OpAdd, z, a, b), m);
        ReadConst(m, 0);
        CopyRuns(env, z, v, m);
        ZeroAdds(In(m, v));
        SetThrice(m, x, In(m, v), y, Num(0), z, In(m, v), In(m, v));
      }
    } else {
      var m := Moment(map[], ZeroStore(u, a, b), []);
      ZeroValues(u, a, b, x, y);
      PairRuns(env, x, v, y, AConst(0), Sum(OpAdd, z, a, b), m);
      ReadConst(m, 0);
      CopyRuns(env, z, v, m);
      var l := if a == ATemp(x) then In(m, v) else In(m, a);
      var r := if b == ATemp(y) then Num(0) else In(m, b);
      SmallSum(l, r);
      SetThrice(m, x, In(m, v), y, Num(0), z, Num(l.w + r.w), In(m, v));
      Differs(env, c, out, Both(x, y, z), m);
    }
  }

  lemma ZeroAdds(v: Val)
    ensures AluVal(OpAdd, v, Num(0)) == Some(v)
  {
  }

  lemma SmallSum(l: Val, r: Val)
    requires l.Num? && r.Num? && l.w <= 2 && r.w <= 2
    ensures AluVal(OpAdd, l, r) == Some(Num(l.w + r.w))
  {
  }

  /** A store in which the sum is not what u holds: the first operand holds one, or the second does. */
  function ZeroStore(u: string, a: Operand, b: Operand): Store
  {
    if a.AName? then (if b.AName? then map[b.name := Num(0)] else map[])[u := Num(0)][a.name := Num(1)]
    else if b.AName? then map[u := Num(0)][b.name := Num(1)] else map[]
  }

  lemma ZeroValues(u: string, a: Operand, b: Operand, x: nat, y: nat)
    requires Mixed(a, x) && Mixed(b, y) && a != AName(u, false) && !(a == ATemp(x) && b == ATemp(y))
    ensures var m := Moment(map[], ZeroStore(u, a, b), []);
            var v := In(m, AName(u, false));
            var l := if a == ATemp(x) then v else In(m, a);
            var r := if b == ATemp(y) then Num(0) else In(m, b);
            v.Num? && l.Num? && r.Num? && l.w <= 2 && r.w <= 2 && v != Num(l.w + r.w)
  {
  }

  /** And multiplied: right in every state if and only if the second operand is the zero; the first does not matter. */
  lemma ZeroMulExact(env: Env, x: nat, u: string, y: nat, z: nat, a: Operand, b: Operand)
    requires x != y && Mixed(a, x) && Mixed(b, y)
    ensures var c := [Set(x, AName(u, false)), Set(y, AConst(0)), Sum(OpMul, z, a, b)];
            Faithful(env, c, [CopyOf(ATemp(z), AConst(0))], Both(x, y, z)) <==> b == ATemp(y)
  {
    hide Through, SameEnd, Read, AluVal, Both;
    var v := AName(u, false);
    var c, out := [Set(x, v), Set(y, AConst(0)), Sum(OpMul, z, a, b)], [CopyOf(ATemp(z), AConst(0))];
    if b == ATemp(y) {
      forall m: Moment
        ensures SameEnd(Through(env, c, m), Through(env, out, m), Both(x, y, z))
      {
        PairRuns(env, x, v, y, AConst(0), Sum(OpMul, z, a, b), m);
        ReadConst(m, 0);
        CopyRuns(env, z, AConst(0), m);
        ZeroTimes(In(WithTemp(WithTemp(m, x, In(m, v)), y, Num(0)), a));
        SetThrice(m, x, In(m, v), y, Num(0), z, Num(0), Num(0));
      }
    } else {
      var m := Moment(map[], (if a.AName? then map[a.name := Num(1)] else map[])[u := Num(1)][b.name := Num(1)], []);
      PairRuns(env, x, v, y, AConst(0), Sum(OpMul, z, a, b), m);
      ReadConst(m, 0);
      CopyRuns(env, z, AConst(0), m);
      NameHere(m, v);
      NameHere(m, b);
      if a.AName? {
        NameHere(m, a);
      }
      OneTimes();
      SetThrice(m, x, Num(1), y, Num(0), z, Num(1), Num(0));
      Differs(env, c, out, Both(x, y, z), m);
    }
  }

  lemma ZeroTimes(v: Val)
    ensures AluVal(OpMul, v, Num(0)) == Some(Num(0))
  {
  }

  lemma OneTimes()
    ensures AluVal(OpMul, Num(1), Num(1)) == Some(Num(1))
  {
  }

  /** The second of three quads is not looked at. With + and a quad that computes w from the constant b: right in
      every state if and only if w is b. */
  lemma SecondExact(env: Env, x: nat, a: Word, q: Quad, b: Word, z: nat)
    requires IsUnary(q) && q.arg1 == AConst(b) && q.res != ATemp(x)
    ensures var c := [Set(x, AConst(a)), q, Sum(OpAdd, z, ATemp(x), q.res)];
            var out := [CopyOf(ATemp(z), AConst(Folded(OpAdd, a, b)))];
            Faithful(env, c, out, Both(x, q.res.t, z)) <==> UnaryVal(q.op, Num(b)) == Num(b)
  {
    hide Through, SameEnd, Read, UnaryVal, Both;
    var c := [Set(x, AConst(a)), q, Sum(OpAdd, z, ATemp(x), q.res)];
    var out := [CopyOf(ATemp(z), AConst(Folded(OpAdd, a, b)))];
    FoldedUnary(q.op, b);
    var w := UnaryVal(q.op, Num(b)).w;
    SumsEqual(a, w, b);
    forall m: Moment
      ensures SameEnd(Through(env, c, m), Through(env, out, m), Both(x, q.res.t, z)) <==> w == b
    {
      SecondRuns(env, x, a, q, b, z, m);
      CopyRuns(env, z, AConst(Folded(OpAdd, a, b)), m);
      ReadConst(m, Folded(OpAdd, a, b));
      SetThrice(m, x, Num(a), q.res.t, Num(w), z, Num(ToWord(a + w)), Num(ToWord(a + b)));
    }
    var m0 := Moment(map[], map[], []);
    assert SameEnd(Through(env, c, m0), Through(env, out, m0), Both(x, q.res.t, z)) <==> w == b;
  }

  lemma SumsEqual(a: Word, w: Word, b: Word)
    ensures ToWord(a + w) == ToWord(a + b) <==> w == b
    ensures Folded(OpAdd, a, b) == ToWord(a + b) && AluVal(OpAdd, Num(a), Num(w)) == Some(Num(ToWord(a + w)))
  {
  }

  lemma SecondRuns(env: Env, x: nat, a: Word, q: Quad, b: Word, z: nat, m: Moment)
    requires IsUnary(q) && q.arg1 == AConst(b) && q.res != ATemp(x)
    ensures UnaryVal(q.op, Num(b)).Num?
    ensures var w := UnaryVal(q.op, Num(b)).w;
            Through(env, [Set(x, AConst(a)), q, Sum(OpAdd, z, ATemp(x), q.res)], m) ==
            Falls(WithTemp(WithTemp(WithTemp(m, x, Num(a)), q.res.t, Num(w)), z, Num(ToWord(a + w))))
  {
    hide Through, Read, AluVal, CastVal, UnVal;
    FoldedUnary(q.op, b);
    var y, w := q.res.t, UnaryVal(q.op, Num(b)).w;
    var m1 := WithTemp(m, x, Num(a));
    Three(env, Set(x, AConst(a)), q, Sum(OpAdd, z, ATemp(x), q.res), m);
    Two(env, Set(x, AConst(a)), q, m);
    SetsTemp(env, Set(x, AConst(a)), m);
    ReadConst(m, a);
    SetsTemp(env, q, m1);
    ReadConst(m1, b);
    ReadSet(m, x, Num(a), ATemp(x));
    ReadSet(m1, y, Num(w), ATemp(x));
    ReadSet(m1, y, Num(w), ATemp(y));
    Combines(env, Sum(OpAdd, z, ATemp(x), q.res), WithTemp(m1, y, Num(w)));
    SumsEqual(a, w, b);
  }
}
