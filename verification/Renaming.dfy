/** Giving temporaries other numbers does not change a step, as long as what is needed after it stays apart. */
module Renaming {
  import opened Ast
  import opened Quads
  import opened Liveness
  import opened Needs

  /** Where each temporary lives, as a number. */
  type Places = nat -> nat

  function MoveOperand(f: Places, a: Operand): Operand
  {
    if a.ATemp? then ATemp(f(a.t)) else a
  }

  function MoveQuad(f: Places, q: Quad): Quad
  {
    if q.Label? then q else Quad(q.op, MoveOperand(f, q.res), MoveOperand(f, q.arg1), MoveOperand(f, q.arg2))
  }

  function Move(f: Places, p: Code): (r: Code)
    ensures |r| == |p| && forall i :: 0 <= i < |p| ==> r[i] == MoveQuad(f, p[i])
  {
    seq(|p|, i requires 0 <= i < |p| => MoveQuad(f, p[i]))
  }

  lemma {:induction false} LabelsStay(f: Places, p: Code, l: nat, i: nat)
    requires i <= |p|
    ensures FindLabel(Move(f, p), l, i) == FindLabel(p, l, i)
    decreases |p| - i
  {
    if i < |p| {
      LabelsStay(f, p, l, i + 1);
    }
  }

  /** The temporaries that are looked at: those that are in reach. */
  type Scope = nat -> bool

  /** A quad that writes r moves apart from r whatever is needed after it. */
  ghost predicate Separates(f: Places, here: Scope, p: Code, pc: nat)
  {
    pc < |p| && forall r: nat, u: nat :: Writes(p[pc], r) && u != r && here(u) && NeedAt(p, pc + 1, u) ==> f(u) != f(r)
  }

  /** What the quad at pc mentions is in reach. */
  ghost predicate InScope(here: Scope, p: Code, pc: nat)
  {
    pc < |p| && forall t: nat :: Mentions(p[pc], ATemp(t)) ==> here(t)
  }

  /** Whatever is needed at pc has the same value in both. */
  ghost predicate Agrees(f: Places, here: Scope, p: Code, pc: nat, temps: Temps, temps': Temps)
  {
    Reach(p, pc) && forall t: nat :: here(t) && NeedAt(p, pc, t) ==> Get(temps, t) == Get(temps', f(t))
  }

  ghost predicate Alike(f: Places, here: Scope, p: Code, s: State, s': State)
  {
    s.pc == s'.pc && s.store == s'.store && s.frames == s'.frames && Agrees(f, here, p, s.pc, s.temps, s'.temps)
  }

  ghost predicate AlikeStatus(f: Places, here: Scope, p: Code, a: Status, b: Status)
  {
    match a
    case At(s) => b.At? && Alike(f, here, p, s, b.s)
    case end => b == end
  }

  lemma ReadsAlike(f: Places, here: Scope, p: Code, s: State, s': State, a: Operand)
    requires InScope(here, p, s.pc) && Alike(f, here, p, s, s') && Matters(p, s.pc) && (a.ATemp? ==> Reads(p[s.pc], a.t))
    ensures Read(a, s.temps, s.store) == Read(MoveOperand(f, a), s'.temps, s'.store)
  {
    hide NeedAt, Matters;
    if a.ATemp? {
      assert Mentions(p[s.pc], a);
      NeedRead(p, s.pc, a.t);
    }
  }

  /** A step that writes no temporary. */
  lemma MoveOn(f: Places, here: Scope, p: Code, pc: nat, next: nat, temps: Temps, temps': Temps)
    requires Agrees(f, here, p, pc, temps, temps') && Leads(p, pc, next)
    requires forall r: nat :: !Writes(p[pc], r)
    ensures Agrees(f, here, p, next, temps, temps')
  {
    hide NeedAt, NeedAfter, Reach, Target;
    ReachNext(p, pc, next);
    forall u: nat | here(u) && NeedAt(p, next, u)
      ensures Get(temps, u) == Get(temps', f(u))
    {
      NeedBack(p, pc, next, u);
      NeedThrough(p, pc, u);
    }
  }

  /** A step that writes r: the same value, or one that is not needed. */
  lemma WriteOn(f: Places, here: Scope, p: Code, pc: nat, r: nat, v: Val, v': Val, temps: Temps, temps': Temps)
    requires Separates(f, here, p, pc) && InScope(here, p, pc) && Agrees(f, here, p, pc, temps, temps')
    requires pc < |p| && FallsThrough(p[pc]) && Writes(p[pc], r) && (v == v' || !NeedAfter(p, pc, r))
    ensures Agrees(f, here, p, pc + 1, temps[r := v], temps'[f(r) := v'])
  {
    hide NeedAt, NeedAfter, Reach, Target;
    var next := pc + 1;
    ReachNext(p, pc, next);
    forall u: nat | here(u) && NeedAt(p, next, u)
      ensures Get(temps[r := v], u) == Get(temps'[f(r) := v'], f(u))
    {
      NeedBack(p, pc, next, u);
      if u != r {
        assert f(u) != f(r);
        OtherWrite(p[pc], r, u);
        NeedThrough(p, pc, u);
      }
    }
  }

  lemma OtherWrite(q: Quad, r: nat, u: nat)
    requires Writes(q, r) && u != r
    ensures !Writes(q, u)
  {
  }

  /** Whichever operand a quad writes, or none. */
  lemma WriteAlike(f: Places, here: Scope, p: Code, s: State, s': State, v: Val)
    requires Separates(f, here, p, s.pc) && InScope(here, p, s.pc) && Agrees(f, here, p, s.pc, s.temps, s'.temps)
    requires s.pc == s'.pc && s.store == s'.store && s.frames == s'.frames
    requires s.pc < |p| && p[s.pc].Quad? && Assigns(p[s.pc].op)
    ensures AlikeStatus(f, here, p, Write(p[s.pc].res, v, s), Write(MoveOperand(f, p[s.pc].res), v, s'))
  {
    hide Agrees, Separates;
    if p[s.pc].res.ATemp? {
      WriteOn(f, here, p, s.pc, p[s.pc].res.t, v, v, s.temps, s'.temps);
    } else {
      MoveOn(f, here, p, s.pc, s.pc + 1, s.temps, s'.temps);
    }
  }

  /** Operators that store into their result operand. */
  predicate Assigns(op: Op)
  {
    op.Alu? || op.Un? || op.OpCast? || op in {Copy, FCall, OpRef, OpDeref}
  }

  /** A quad whose result is not needed. */
  lemma IdleStep(env: Env, f: Places, here: Scope, p: Code, s: State, s': State)
    requires Separates(f, here, p, s.pc) && InScope(here, p, s.pc) && Alike(f, here, p, s, s') && s.pc < |p|
    requires !Matters(p, s.pc)
    ensures AlikeStatus(f, here, p, Step(env, p, s), Step(env, Move(f, p), s'))
  {
    hide Separates, Agrees, Step, NeedAfter;
    var r := p[s.pc].res.t;
    assert Pure(Move(f, p)[s.pc]);
    var v := PureStep(env, p, s);
    var v' := PureStep(env, Move(f, p), s');
    WriteOn(f, here, p, s.pc, r, v, v', s.temps, s'.temps);
  }

  lemma StepAlike(env: Env, f: Places, here: Scope, p: Code, s: State, s': State)
    requires Separates(f, here, p, s.pc) && InScope(here, p, s.pc) && Alike(f, here, p, s, s')
    ensures AlikeStatus(f, here, p, Step(env, p, s), Step(env, Move(f, p), s'))
  {
    hide Matters, Agrees, Separates;
    if s.pc < |p| && p[s.pc].Quad? {
      if !Matters(p, s.pc) {
        IdleStep(env, f, here, p, s, s');
      } else if Assigns(p[s.pc].op) {
        AssignStep(env, f, here, p, s, s');
      } else {
        OtherStep(env, f, here, p, s, s');
      }
    } else if s.pc < |p| {
      MoveOn(f, here, p, s.pc, s.pc + 1, s.temps, s'.temps);
    }
  }

  lemma AssignStep(env: Env, f: Places, here: Scope, p: Code, s: State, s': State)
    requires Separates(f, here, p, s.pc) && InScope(here, p, s.pc) && Alike(f, here, p, s, s') && s.pc < |p|
    requires Matters(p, s.pc) && p[s.pc].Quad?
             && Assigns(p[s.pc].op)
    ensures AlikeStatus(f, here, p, Step(env, p, s), Step(env, Move(f, p), s'))
  {
    hide Matters, Separates, Agrees, SetTemp, SetName, AlikeStatus, AluVal, UnVal, CastVal;
    var q := p[s.pc];
    ReadsAlike(f, here, p, s, s', q.arg1);
    ReadsAlike(f, here, p, s, s', q.arg2);
    var a, b := Read(q.arg1, s.temps, s.store), Read(q.arg2, s.temps, s.store);
    if Step(env, p, s) == Stuck {
      StuckAlike(f, here, p);
    } else if q.op == FCall {
      var (v, store) := env(a.name, s.frames[|s.frames| - 1], s.store).value;
      var frames := s.frames[..|s.frames| - 1];
      WriteAlike(f, here, p, s.(store := store, frames := frames), s'.(store := store, frames := frames), v);
    } else {
      var v := if q.op.Alu? then AluVal(q.op.alu, a, b).value
               else if q.op.Un? then UnVal(q.op.un, a)
               else if q.op.OpCast? then CastVal(q.op.to, a)
               else if q.op == Copy then a
               else if q.op == OpRef then Addr(q.arg1.name)
               else Load(s.store, a.name);
      WriteAlike(f, here, p, s, s', v);
    }
  }

  lemma StuckAlike(f: Places, here: Scope, p: Code)
    ensures AlikeStatus(f, here, p, Stuck, Stuck)
  {
  }

  lemma OtherStep(env: Env, f: Places, here: Scope, p: Code, s: State, s': State)
    requires Separates(f, here, p, s.pc) && InScope(here, p, s.pc) && Alike(f, here, p, s, s') && s.pc < |p|
    requires Matters(p, s.pc) && p[s.pc].Quad?
             && !Assigns(p[s.pc].op)
    ensures AlikeStatus(f, here, p, Step(env, p, s), Step(env, Move(f, p), s'))
  {
    hide Matters, Separates, Agrees, FindLabel, Condition;
    var q := p[s.pc];
    ReadsAlike(f, here, p, s, s', q.arg1);
    ReadsAlike(f, here, p, s, s', q.arg2);
    if q.op == UJump || IsCondJump(q.op) {
      JumpAlike(env, f, here, p, s, s');
    } else {
      if q.op == DerefCopy {
        ReadsAlike(f, here, p, s, s', q.res);
      }
      hide Read, MoveOperand;
      match Step(env, p, s)
      case At(t) => MoveOn(f, here, p, s.pc, s.pc + 1, s.temps, s'.temps);
      case _ =>
    }
  }

  lemma JumpAlike(env: Env, f: Places, here: Scope, p: Code, s: State, s': State)
    requires Alike(f, here, p, s, s') && s.pc < |p| && Matters(p, s.pc) && p[s.pc].Quad?
             && (p[s.pc].op == UJump || IsCondJump(p[s.pc].op))
    requires Read(p[s.pc].arg1, s.temps, s.store) == Read(MoveOperand(f, p[s.pc].arg1), s'.temps, s'.store)
    requires Read(p[s.pc].arg2, s.temps, s.store) == Read(MoveOperand(f, p[s.pc].arg2), s'.temps, s'.store)
    ensures AlikeStatus(f, here, p, Step(env, p, s), Step(env, Move(f, p), s'))
  {
    hide Matters, Agrees, FindLabel, Read, JumpTaken;
    var q := p[s.pc];
    if q.res.ALabel? {
      LabelsStay(f, p, q.res.l, 0);
    }
    match Step(env, p, s)
    case At(t) => MoveOn(f, here, p, s.pc, t.pc, s.temps, s'.temps);
    case _ =>
  }
}
