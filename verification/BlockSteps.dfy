/** Edges between blocks against the steps of the machine: what can be taken is an edge, and which edges can. */
module BlockSteps {
  import opened Words
  import opened Ast
  import opened Quads
  import opened Blocks
  import opened Cfg
  import opened CfgPrune

  /** From the last quad of block i the machine goes to the first quad of block j. */
  ghost predicate Goes(env: Env, bs: seq<Code>, s: State, i: nat, j: nat)
    requires AllNonEmpty(bs)
  {
    && i < |bs| && j < |bs| && s.pc == Off(bs, i) + |bs[i]| - 1
    && match Step(env, Flatten(bs), s)
       case At(t) => t.pc == Off(bs, j)
       case _ => false
  }

  /** Some state at the last quad of block i goes to the first quad of block j. */
  ghost predicate Taken(bs: seq<Code>, i: nat, j: nat)
    requires AllNonEmpty(bs)
  {
    exists env, s :: Goes(env, bs, s, i, j)
  }

  // ----- inside a block -----

  /** At a quad that is not the last of its block the machine goes on to the next one or is stuck, in every state. */
  lemma InsideGoesOn(env: Env, bs: seq<Code>, i: nat, j: nat, s: State)
    requires IsPartition(bs) && i < |bs| && j + 1 < |bs[i]| && s.pc == Off(bs, i) + j
    ensures !Leaves(env, Flatten(bs), s)
  {
    hide Leaves, JumpOp;
    FlattenAt(bs, i, j);
    assert Straight(bs[i]);
    OthersGoOn(env, Flatten(bs), s);
  }

  // ----- what can be taken is an edge -----

  /** Where a step goes: past the end, on to the next position, or to the label of a jump. */
  lemma StepGoes(env: Env, p: Code, s: State)
    requires s.pc < |p| && Step(env, p, s).At?
    ensures var q, t := p[s.pc], Step(env, p, s).s;
            || (t.pc == s.pc + 1 && FallsOut(q))
            || (TargetOf(q).Some? && FindLabel(p, TargetOf(q).value, 0) == Some(t.pc))
  {
    hide FindLabel;
  }

  lemma {:induction false} OffUnique(bs: seq<Code>, i: nat, j: nat)
    requires AllNonEmpty(bs) && i <= |bs| && j <= |bs| && Off(bs, i) == Off(bs, j)
    ensures i == j
  {
    hide Off;
    if i < j {
      OffGrows(bs, i, j);
    } else if j < i {
      OffGrows(bs, j, i);
    }
  }

  /** Where the label of a resolved jump is found. */
  lemma TargetAt(bs: seq<Code>, i: nat)
    requires IsPartition(bs) && Resolved(bs) && UniqueHeads(bs) && i < |bs| && TargetOf(Last(bs[i])).Some?
    ensures JumpOf(bs, i).Some? && JumpOf(bs, i).value < |bs|
    ensures FindLabel(Flatten(bs), TargetOf(Last(bs[i])).value, 0) == Some(Off(bs, JumpOf(bs, i).value))
  {
    hide FindLabel, Flatten, Straight, Off, UniqueHeads;
    NodeMapRange(bs);
    HeadFound(bs, JumpOf(bs, i).value, TargetOf(Last(bs[i])).value);
  }

  lemma LastOf(bs: seq<Code>, i: nat)
    requires AllNonEmpty(bs) && i < |bs|
    ensures var pc := Off(bs, i) + |bs[i]| - 1;
            pc < |Flatten(bs)| && Flatten(bs)[pc] == Last(bs[i]) && pc + 1 == Off(bs, i + 1)
  {
    hide Off, Flatten;
    FlattenAt(bs, i, |bs[i]| - 1);
    OffNext(bs, i);
  }

  /** Whatever the state, from the last quad of a block the machine goes only along an edge. */
  lemma TakenIsEdge(bs: seq<Code>, i: nat, j: nat)
    requires IsPartition(bs) && Resolved(bs) && UniqueHeads(bs) && Taken(bs, i, j)
    ensures Edge(bs, i, j)
  {
    hide Off, Flatten, Step, Resolved, UniqueHeads, TargetOf, JumpOf, FindLabel;
    var env, s :| Goes(env, bs, s, i, j);
    LastOf(bs, i);
    StepGoes(env, Flatten(bs), s);
    if TargetOf(Last(bs[i])).Some? {
      TargetAt(bs, i);
      if Off(bs, JumpOf(bs, i).value) == Off(bs, j) {
        OffUnique(bs, JumpOf(bs, i).value, j);
      }
    }
    if Off(bs, i + 1) == Off(bs, j) {
      OffUnique(bs, i + 1, j);
    }
  }

  // ----- which edges can be taken -----

  /** An operand whose value is up to the state. */
  predicate IsVariable(a: Operand)
  {
    a.ATemp? || (a.AName? && !a.isFn)
  }

  predicate IsNumeric(a: Operand)
  {
    IsVariable(a) || a.AConst?
  }

  const LEAST: Word := SIGN
  const GREATEST: Word := SIGN - 1

  /** The operands of an order relation do not decide it. */
  predicate OpenOrder(rel: JumpRel, a: Operand, b: Operand)
  {
    && IsNumeric(a) && IsNumeric(b) && (IsVariable(a) || IsVariable(b)) && a != b
    && (b.AConst? ==> if rel in {JumpLt, JumpGte} then b.w != LEAST else b.w != GREATEST)
    && (a.AConst? ==> if rel in {JumpLt, JumpGte} then a.w != GREATEST else a.w != LEAST)
  }

  /** What an operator that is not defined everywhere needs of its operands. */
  predicate Defined(op: AluOp, a: Operand, b: Operand)
  {
    || TotalOp(op)
    || (&& IsNumeric(a) && IsNumeric(b)
        && (op in {OpShl, OpShr} ==> b.AConst? ==> b.w < 64)
        && (op == OpShr ==> a.AConst? ==> a.w < SIGN)
        && (op in {OpDiv, OpMod} ==> b != AConst(0) && !(a == AConst(SIGN) && b == AConst(MODULUS - 1))))
  }

  /** The operands of a quad leave it open: it is not stuck whatever the state, and if it is a conditional jump it is
      taken in some states and not in others. */
  predicate Open(q: Quad)
  {
    q.Quad? ==>
      match q.op
      case Alu(k) => Defined(k, q.arg1, q.arg2)
      case CJumpT => IsVariable(q.arg1)
      case CJumpF => IsVariable(q.arg1)
      case CJump(rel) =>
        if rel in {JumpE, JumpNe} then (IsVariable(q.arg1) || IsVariable(q.arg2)) && q.arg1 != q.arg2
        else OpenOrder(rel, q.arg1, q.arg2)
      case PCall => IsVariable(q.arg1) || q.arg1.AName?
      case FCall => IsVariable(q.arg1) || q.arg1.AName?
      case OpRef => q.arg1.AName?
      case OpDeref => IsVariable(q.arg1)
      case DerefCopy => IsVariable(q.res)
      case _ => true
  }

  /** A state in which operand a has the value v and all others are as before. */
  function Give(a: Operand, v: Val, s: State): State
  {
    match a
    case ATemp(t) => s.(temps := s.temps[t := v])
    case AName(x, _) => s.(store := s.store[x := v])
    case _ => s
  }

  function Given(a: Operand, s: State): Val
  {
    Read(a, s.temps, s.store)
  }

  lemma Gives(a: Operand, v: Val, s: State, b: Operand)
    ensures var s1 := Give(a, v, s);
            && s1.pc == s.pc && s1.frames == s.frames
            && (a.AConst? ==> s1 == s)
            && (IsVariable(a) ==> Given(a, s1) == v)
            && (IsVariable(a) && b != a ==> Given(b, s1) == Given(b, s))
  {
  }

  function Start(pc: nat): State
  {
    State(pc, map[], map[], [[]])
  }

  /** Values for which a conditional jump of an open quad is taken, or is not, as wanted. */
  lemma Chooses(q: Quad, want: bool, pc: nat) returns (s: State)
    requires q.Quad? && IsCondJump(q.op) && Open(q)
    ensures s.pc == pc && Condition(q.op, Given(q.arg1, s), Given(q.arg2, s)) == Some(want)
  {
    hide Give;
    var a, b := q.arg1, q.arg2;
    if q.op.CJump? {
      if q.op.rel in {JumpE, JumpNe} {
        s := ChoosesEqual(a, b, want == (q.op.rel == JumpE), pc);
      } else {
        s := ChoosesOrder(q.op.rel, a, b, want, pc);
      }
    } else {
      var v := if want == q.op.CJumpT? then Void else Num(0);
      s := Give(a, v, Start(pc));
      Gives(a, v, Start(pc), b);
    }
  }

  lemma ChoosesEqual(a: Operand, b: Operand, equal: bool, pc: nat) returns (s: State)
    requires (IsVariable(a) || IsVariable(b)) && a != b
    ensures s.pc == pc && (Given(a, s) == Given(b, s)) == equal
  {
    hide Give;
    var x, y := if IsVariable(a) then a else b, if IsVariable(a) then b else a;
    var w := Given(y, Start(pc));
    var v := if equal then w else if w == Void then Num(0) else Void;
    s := Give(x, v, Start(pc));
    Gives(x, v, Start(pc), y);
  }

  /** Numbers on the wanted side of an order relation, the constant ones kept. */
  lemma ChoosesOrder(rel: JumpRel, a: Operand, b: Operand, want: bool, pc: nat) returns (s: State)
    requires rel !in {JumpE, JumpNe} && OpenOrder(rel, a, b)
    ensures s.pc == pc && JumpTaken(rel, Given(a, s), Given(b, s)) == Some(want)
  {
    hide Give;
    var less := (rel in {JumpLt, JumpLte}) == want;
    var strict := (rel in {JumpLt, JumpGt}) == want;
    var x, y := Values(a, b, less, strict);
    var s1 := Give(b, Num(y), Start(pc));
    s := Give(a, Num(x), s1);
    Gives(b, Num(y), Start(pc), a);
    Gives(a, Num(x), s1, b);
    ReadsNumber(a, x, s);
    ReadsNumber(b, y, s);
  }

  lemma ReadsNumber(a: Operand, x: Word, s: State)
    requires IsNumeric(a) && (a.AConst? ==> x == a.w) && (IsVariable(a) ==> Given(a, s) == Num(x))
    ensures Given(a, s) == Num(x)
  {
  }

  lemma Values(a: Operand, b: Operand, less: bool, strict: bool) returns (x: Word, y: Word)
    requires IsNumeric(a) && IsNumeric(b) && (IsVariable(a) || IsVariable(b))
    requires strict && less ==> b != AConst(LEAST) && a != AConst(GREATEST)
    requires strict && !less ==> b != AConst(GREATEST) && a != AConst(LEAST)
    ensures (a.AConst? ==> x == a.w) && (b.AConst? ==> y == b.w)
    ensures if less then (if strict then Signed(x) < Signed(y) else Signed(x) <= Signed(y))
            else (if strict then Signed(x) > Signed(y) else Signed(x) >= Signed(y))
  {
    var d := if !strict then 0 else if less then 1 else -1;
    if b.AConst? {
      y := b.w;
      x := ToWord(Signed(y) - d);
      SignedToWord(Signed(y) - d);
    } else {
      x := if a.AConst? then a.w else 0;
      y := ToWord(Signed(x) + d);
      SignedToWord(Signed(x) + d);
    }
  }

  /** Operands of a conditional jump that is taken in one state and not in another leave it open. */
  lemma OpenIfBoth(q: Quad, s: State, t: State)
    requires q.Quad? && IsCondJump(q.op)
    requires Condition(q.op, Given(q.arg1, s), Given(q.arg2, s)) == Some(true)
    requires Condition(q.op, Given(q.arg1, t), Given(q.arg2, t)) == Some(false)
    ensures Open(q)
  {
  }

  /** A quad that is not a conditional jump and is not always stuck. */
  lemma OpenIfGoes(env: Env, p: Code, s: State)
    requires s.pc < |p| && Step(env, p, s).At? && !(p[s.pc].Quad? && IsCondJump(p[s.pc].op))
    ensures Open(p[s.pc])
  {
    hide FindLabel;
  }

  /** An open quad goes on to the next position in some state, unless it returns or always jumps. */
  lemma OpenGoesOn(p: Code, pc: nat) returns (env: Env, s: State)
    requires pc < |p| && Open(p[pc]) && FallsOut(p[pc])
    ensures s.pc == pc && Step(env, p, s).At? && Step(env, p, s).s.pc == pc + 1
  {
    env := (f, args, store) => Some((Void, store));
    var q := p[pc];
    s := Start(pc);
    if q.Quad? {
      if IsCondJump(q.op) {
        s := Chooses(q, false, pc);
      } else if q.op.Alu? {
        s := Give(q.arg2, Num(1), Give(q.arg1, Num(1), s));
      } else if q.op.PCall? || q.op.FCall? {
        s := Give(q.arg1, Fn(""), s);
      } else if q.op.OpDeref? {
        s := Give(q.arg1, Addr(""), s);
      } else if q.op.DerefCopy? {
        s := Give(q.res, Addr(""), s);
      }
    }
  }

  /** A jump of an open quad to a label that is defined is taken in some state. */
  lemma OpenJumps(p: Code, pc: nat, at: nat) returns (s: State)
    requires pc < |p| && Open(p[pc]) && TargetOf(p[pc]).Some? && FindLabel(p, TargetOf(p[pc]).value, 0) == Some(at)
    ensures s.pc == pc && forall env :: Step(env, p, s).At? && Step(env, p, s).s.pc == at
  {
    hide FindLabel;
    var q := p[pc];
    s := Start(pc);
    if IsCondJump(q.op) {
      s := Chooses(q, true, pc);
    }
  }

  /** Every edge out of a block whose last quad is open is taken in some state. */
  lemma EdgeIsTaken(bs: seq<Code>, i: nat, j: nat)
    requires IsPartition(bs) && Resolved(bs) && UniqueHeads(bs) && Edge(bs, i, j) && Open(Last(bs[i]))
    ensures Taken(bs, i, j)
  {
    hide Off, Flatten, Step, Resolved, UniqueHeads, Open, FindLabel, FallsOut;
    var p, pc := Flatten(bs), Off(bs, i) + |bs[i]| - 1;
    LastOf(bs, i);
    if NextOf(bs, i) == Some(j) {
      var env, s := OpenGoesOn(p, pc);
      assert Goes(env, bs, s, i, j);
    } else {
      var env: Env := (f, args, store) => None;
      TargetAt(bs, i);
      var s := OpenJumps(p, pc, Off(bs, j));
      assert Goes(env, bs, s, i, j);
    }
  }

  /** Both ways out of a block that falls through to the next one are taken only if its last quad is open. */
  lemma TakenOnlyOpen(bs: seq<Code>, i: nat)
    requires IsPartition(bs) && Resolved(bs) && UniqueHeads(bs) && i + 1 < |bs| && JumpOf(bs, i) != Some(i + 1)
    requires forall j :: Edge(bs, i, j) ==> Taken(bs, i, j)
    ensures Open(Last(bs[i]))
  {
    hide Off, Flatten, Step, Resolved, UniqueHeads, Open, Read, Condition, FindLabel, TargetOf, FallsOut;
    var p, q := Flatten(bs), Last(bs[i]);
    LastOf(bs, i);
    if !FallsOut(q) {
      ClosedEnds(q);
    } else {
      assert Edge(bs, i, i + 1);
      var env, s :| Goes(env, bs, s, i, i + 1);
      if q.Quad? && IsCondJump(q.op) {
        TargetOfJump(bs, i);
        TargetAt(bs, i);
        var k := JumpOf(bs, i).value;
        assert Edge(bs, i, k);
        var env', s' :| Goes(env', bs, s', i, k);
        if Off(bs, k) == Off(bs, i + 1) {
          OffUnique(bs, k, i + 1);
        }
        JumpDecides(env, p, s, Off(bs, k));
        JumpDecides(env', p, s', Off(bs, k));
        OpenIfBoth(q, s', s);
      } else {
        OpenIfGoes(env, p, s);
      }
    }
  }

  lemma ClosedEnds(q: Quad)
    requires !FallsOut(q)
    ensures Open(q)
  {
  }

  lemma TargetOfJump(bs: seq<Code>, i: nat)
    requires AllNonEmpty(bs) && Resolved(bs) && i < |bs| && Last(bs[i]).Quad? && IsCondJump(Last(bs[i]).op)
    ensures TargetOf(Last(bs[i])) == Some(Last(bs[i]).res.l) && Last(bs[i]).res.ALabel?
  {
  }

  /** A conditional jump goes to its target when its condition holds and on when it does not. */
  lemma JumpDecides(env: Env, p: Code, s: State, at: nat)
    requires s.pc < |p| && p[s.pc].Quad? && IsCondJump(p[s.pc].op) && Step(env, p, s).At? && at != s.pc + 1
    requires TargetOf(p[s.pc]).Some? && FindLabel(p, TargetOf(p[s.pc]).value, 0) == Some(at)
    ensures var c := Condition(p[s.pc].op, Given(p[s.pc].arg1, s), Given(p[s.pc].arg2, s));
            && (Step(env, p, s).s.pc == at ==> c == Some(true))
            && (Step(env, p, s).s.pc == s.pc + 1 ==> c == Some(false))
  {
    hide FindLabel, Condition, Read;
  }

  /** The edges of the graph are what the machine can do: if the last quad of a block is open, block j is a successor
      if and only if some state at that quad goes to the first quad of j; and for a block with another one after it
      that its jump does not lead to, only if it is open. */
  lemma EdgesExact(bs: seq<Code>, i: nat)
    requires IsPartition(bs) && Resolved(bs) && UniqueHeads(bs) && i < |bs|
    ensures Open(Last(bs[i])) ==> forall j :: Edge(bs, i, j) <==> Taken(bs, i, j)
    ensures i + 1 < |bs| && JumpOf(bs, i) != Some(i + 1) && (forall j :: Edge(bs, i, j) <==> Taken(bs, i, j)) ==>
              Open(Last(bs[i]))
    ensures forall j :: Taken(bs, i, j) ==> Edge(bs, i, j)
  {
    hide Edge, Taken, Open, Resolved, UniqueHeads, JumpOf;
    forall j: nat
      ensures Taken(bs, i, j) ==> Edge(bs, i, j)
      ensures Edge(bs, i, j) && Open(Last(bs[i])) ==> Taken(bs, i, j)
    {
      if Taken(bs, i, j) {
        TakenIsEdge(bs, i, j);
      } else if Edge(bs, i, j) && Open(Last(bs[i])) {
        EdgeIsTaken(bs, i, j);
      }
    }
    if i + 1 < |bs| && JumpOf(bs, i) != Some(i + 1) && forall j :: Edge(bs, i, j) <==> Taken(bs, i, j) {
      TakenOnlyOpen(bs, i);
    }
  }

  // ----- runs -----

  lemma OffMonotone(bs: seq<Code>, i: nat, j: nat)
    requires AllNonEmpty(bs) && i <= j <= |bs|
    ensures Off(bs, i) <= Off(bs, j)
  {
    hide Off;
    if i < j {
      OffGrows(bs, i, j);
    }
  }

  lemma OneBlock(bs: seq<Code>, i: nat, j: nat, a: nat, b: nat)
    requires AllNonEmpty(bs) && i < |bs| && a < |bs| && j < |bs[i]| && b < |bs[a]| && Off(bs, i) + j == Off(bs, a) + b
    ensures i == a
  {
    hide Off;
    OffNext(bs, i);
    OffNext(bs, a);
    if i < a {
      OffMonotone(bs, i + 1, a);
    } else if a < i {
      OffMonotone(bs, a + 1, i);
    }
  }

  /** Whatever a run enters is reachable in the graph, so no run comes to a block that is pruned. */
  lemma EnteredIsReachable(env: Env, bs: seq<Code>, s: State, n: nat, i: nat, j: nat)
    requires IsPartition(bs) && Resolved(bs) && UniqueHeads(bs) && s.pc == 0 && i < |bs| && j < |bs[i]|
    requires Run(env, Flatten(bs), s, n).At? && Run(env, Flatten(bs), s, n).s.pc == Off(bs, i) + j
    ensures Reachable(bs, i)
  {
    hide Run, Off, Flatten, Resolved, UniqueHeads, Reachable, AllKept, Pruned;
    var t := Run(env, Flatten(bs), s, n).s;
    PrunePreservesRuns(env, bs, s, n);
    FlattenAt(bs, i, j);
    var t' := Run(env, Flatten(Pruned(bs)), s, n).s;
    WhereCases(bs, t.pc, t'.pc);
    var a: nat, b: nat :| InPair(bs, a, b, t.pc, t'.pc);
    OneBlock(bs, i, j, AllKept(bs)[a], b);
  }
}
