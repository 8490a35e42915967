/** Which temporaries a run depends on: those that flow into memory, jumps, arguments, calls or results. */
module Needs {
  import opened Words
  import opened Ast
  import opened Quads
  import opened Liveness

  /** q only gives a temporary a value, whatever its operands are. */
  predicate Pure(q: Quad)
  {
    && q.Quad? && q.res.ATemp?
    && (q.op == Copy || q.op.Un? || q.op.OpCast? || (q.op.Alu? && TotalOp(q.op.alu)) || (q.op == OpRef
        && q.arg1.AName?))
  }

  /** Within n steps from pc, t is read by a quad that does more than set a temporary, or by one whose
      temporary is itself needed. */
  predicate Needed(p: Code, pc: nat, t: nat, n: nat)
    decreases n, 0
  {
    && n > 0 && pc < |p|
    && (|| (Reads(p[pc], t) && (Pure(p[pc]) ==> NeededNext(p, pc, p[pc].res.t, n - 1)))
        || (!Writes(p[pc], t) && NeededNext(p, pc, t, n - 1)))
  }

  predicate NeededNext(p: Code, pc: nat, t: nat, n: nat)
    requires pc < |p|
    decreases n, 1
  {
    || (FallsThrough(p[pc]) && Needed(p, pc + 1, t, n))
    || (Target(p, p[pc]).Some? && Needed(p, Target(p, p[pc]).value, t, n))
  }

  ghost predicate NeedAt(p: Code, pc: nat, t: nat)
  {
    exists n: nat :: Needed(p, pc, t, n)
  }

  ghost predicate NeedAfter(p: Code, pc: nat, t: nat)
    requires pc < |p|
  {
    exists n: nat :: NeededNext(p, pc, t, n)
  }

  /** The quad at pc has an effect, or sets a temporary that is needed. */
  ghost predicate Matters(p: Code, pc: nat)
    requires pc < |p|
  {
    Pure(p[pc]) ==> NeedAfter(p, pc, p[pc].res.t)
  }

  lemma NeedRead(p: Code, pc: nat, t: nat)
    requires pc < |p| && Reads(p[pc], t) && Matters(p, pc)
    ensures NeedAt(p, pc, t)
  {
    if Pure(p[pc]) {
      var n: nat :| NeededNext(p, pc, p[pc].res.t, n);
      assert Needed(p, pc, t, n + 1);
    } else {
      assert Needed(p, pc, t, 1);
    }
  }

  lemma NeedThrough(p: Code, pc: nat, t: nat)
    requires pc < |p| && NeedAfter(p, pc, t) && !Writes(p[pc], t)
    ensures NeedAt(p, pc, t)
  {
    var n: nat :| NeededNext(p, pc, t, n);
    assert Needed(p, pc, t, n + 1);
  }

  lemma NeedBack(p: Code, pc: nat, next: nat, t: nat)
    requires NeedAt(p, next, t) && Leads(p, pc, next)
    ensures NeedAfter(p, pc, t)
  {
    var n: nat :| Needed(p, next, t, n);
    assert NeededNext(p, pc, t, n);
  }

  /** Only what may be read can be needed. */
  lemma {:induction false} NeededLive(p: Code, pc: nat, t: nat, n: nat)
    requires Needed(p, pc, t, n)
    ensures Live(p, pc, t, n)
    decreases n
  {
    if !Reads(p[pc], t) {
      assert NeededNext(p, pc, t, n - 1);
      if FallsThrough(p[pc]) && Needed(p, pc + 1, t, n - 1) {
        NeededLive(p, pc + 1, t, n - 1);
      } else {
        NeededLive(p, Target(p, p[pc]).value, t, n - 1);
      }
      assert LiveNext(p, pc, t, n - 1);
    }
  }

  lemma TotalDefined(op: AluOp, a: Val, b: Val)
    requires TotalOp(op)
    ensures AluVal(op, a, b).Some?
  {
    hide Bitwise, ToWord;
  }

  /** A pure quad sets its temporary to something and goes on. */
  lemma PureStep(env: Env, p: Code, s: State) returns (v: Val)
    requires s.pc < |p| && Pure(p[s.pc])
    ensures Step(env, p, s) == At(s.(pc := s.pc + 1, temps := s.temps[p[s.pc].res.t := v]))
  {
    hide AluVal, UnVal, CastVal, Read;
    var q := p[s.pc];
    var a, b := Read(q.arg1, s.temps, s.store), Read(q.arg2, s.temps, s.store);
    if q.op.Alu? {
      TotalDefined(q.op.alu, a, b);
      v := AluVal(q.op.alu, a, b).value;
    } else {
      v := if q.op.Un? then UnVal(q.op.un, a) else if q.op.OpCast? then CastVal(q.op.to, a)
           else if q.op == Copy then a else Addr(q.arg1.name);
    }
  }

  // ----- code in which what is needed lies ahead -----

  /** Nothing is needed at the start, and nothing is needed where a jump goes back to. */
  ghost predicate Ordered(p: Code)
  {
    && (forall t: nat :: !NeedAt(p, 0, t))
    && (forall j: nat, k: nat, t: nat :: j < |p| && Target(p, p[j]) == Some(k) && NeedAt(p, k, t) ==> j < k)
  }

  /** Control can come to pc in n steps from the start. */
  ghost predicate ReachIn(p: Code, pc: nat, n: nat)
    decreases n
  {
    if n == 0 then pc == 0 else exists prev: nat :: ReachIn(p, prev, n - 1) && Leads(p, prev, pc)
  }

  ghost predicate Reach(p: Code, pc: nat)
  {
    exists n: nat :: ReachIn(p, pc, n)
  }

  lemma ReachNext(p: Code, pc: nat, next: nat)
    requires Reach(p, pc) && Leads(p, pc, next)
    ensures Reach(p, next)
  {
    var n: nat :| ReachIn(p, pc, n);
    assert ReachIn(p, next, n + 1);
  }

  /** Where control can come, a temporary that is needed has been written further up. */
  lemma {:induction false} WrittenAbove(p: Code, pc: nat, t: nat, n: nat) returns (j: nat)
    requires Ordered(p) && ReachIn(p, pc, n) && NeedAt(p, pc, t)
    ensures j < pc && j < |p| && Writes(p[j], t)
    decreases n
  {
    hide NeedAt, NeedAfter, Writes, Target;
    var prev: nat :| ReachIn(p, prev, n - 1) && Leads(p, prev, pc);
    if Writes(p[prev], t) {
      j := prev;
    } else {
      NeedBack(p, prev, pc, t);
      NeedThrough(p, prev, t);
      j := WrittenAbove(p, prev, t, n - 1);
    }
  }

  /** And it is read further down. */
  lemma {:induction false} ReadBelow(p: Code, pc: nat, t: nat, n: nat) returns (j: nat)
    requires Ordered(p) && Needed(p, pc, t, n)
    ensures pc <= j < |p| && Reads(p[j], t)
    decreases n
  {
    hide Target, Reads, Writes, Pure;
    if Reads(p[pc], t) {
      j := pc;
    } else if FallsThrough(p[pc]) && Needed(p, pc + 1, t, n - 1) {
      j := ReadBelow(p, pc + 1, t, n - 1);
    } else {
      assert NeededNext(p, pc, t, n - 1);
      var k := Target(p, p[pc]).value;
      assert Needed(p, k, t, n - 1);
      assert NeedAt(p, k, t);
      j := ReadBelow(p, k, t, n - 1);
    }
  }
}
