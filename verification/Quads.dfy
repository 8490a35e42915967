/** Three-address code and the machine that runs it. */
module Quads {
  import opened Words
  import opened Ast

  datatype AluOp = OpAdd | OpSub | OpMul | OpDiv | OpMod | OpShr | OpShl | OpBwOr | OpBwAnd | OpBwXor

  datatype UnOp = OpPlus | OpMinus | OpBwNot

  datatype JumpRel = JumpLt | JumpGt | JumpLte | JumpGte | JumpE | JumpNe

  datatype Op =
    | Alu(alu: AluOp)
    | Un(un: UnOp)
    | UJump
    | CJumpT
    | CJumpF
    | CJump(rel: JumpRel)
    | Copy
    | OpCast(to: CastType)
    | Arg
    | PCall
    | FCall
    | RetP
    | RetF
    | OpRef
    | OpDeref
    | DerefCopy
    | HintCall
    | HintLocal

  /** An operand; `ALabel` is the target carried by a jump. */
  datatype Operand = ANone | AName(name: string, isFn: bool) | AConst(w: Word) | ATemp(t: nat) | ALabel(l: nat)

  datatype Quad = Label(id: nat) | Quad(op: Op, res: Operand, arg1: Operand, arg2: Operand)

  type Code = seq<Quad>

  // ----- arithmetic on words -----

  /** None where the machine traps or the result is not defined. */
  function AluWord(op: AluOp, a: Word, b: Word): Option<Word>
  {
    match op
    case OpAdd => Some(ToWord(a + b))
    case OpSub => Some(ToWord(a - b))
    case OpMul => Some(ToWord(a * b))
    case OpDiv => if b == 0 || (a == SIGN && b == MODULUS - 1) then None
                  else Some(ToWord(Quot(Signed(a), Signed(b))))
    case OpMod => if b == 0 || (a == SIGN && b == MODULUS - 1) then None
                  else Some(ToWord(Signed(a) - Quot(Signed(a), Signed(b)) * Signed(b)))
    case OpShl => if b < 64 then Some(ToWord(a * Pow2(b))) else None
    case OpShr => if b < 64 && a < SIGN then Some(ToWord(a / Pow2(b))) else None
    case OpBwAnd => Some(Bitwise(BitAnd, a, b))
    case OpBwOr => Some(Bitwise(BitOr, a, b))
    case OpBwXor => Some(Bitwise(BitXor, a, b))
  }

  /** Operators that are defined on every pair of words. */
  predicate TotalOp(op: AluOp)
  {
    op in {OpAdd, OpSub, OpMul, OpBwAnd, OpBwOr, OpBwXor}
  }

  /** Adding zero to anything leaves it and multiplying anything by zero gives zero; otherwise a total
      operator on anything but two words leaves a value nothing can use. */
  function AluVal(op: AluOp, a: Val, b: Val): Option<Val>
  {
    if a.Num? && b.Num? then
      var r :- AluWord(op, a.w, b.w);
      Some(Num(r))
    else if op == OpAdd && b == Num(0) then Some(a)
    else if op == OpMul && b == Num(0) then Some(Num(0))
    else if TotalOp(op) then Some(Void)
    else None
  }

  function UnVal(op: UnOp, v: Val): Val
  {
    if !v.Num? then Void
    else match op
      case OpPlus => v
      case OpMinus => Num(ToWord(0 - v.w))
      case OpBwNot => Num(MODULUS - 1 - v.w)
  }

  /** Truncation to the width of an integer type followed by zero or sign extension. */
  function CastWord(t: CastType, w: Word): Word
  {
    match t
    case TI8 => SignExtend(w % 0x100, 0x100)
    case TI16 => SignExtend(w % 0x1_0000, 0x1_0000)
    case TI32 => SignExtend(w % 0x1_0000_0000, 0x1_0000_0000)
    case TU8 => w % 0x100
    case TU16 => w % 0x1_0000
    case TU32 => w % 0x1_0000_0000
    case _ => w
  }

  function SignExtend(w: int, m: int): Word
    requires 0 <= w < m <= 0x1_0000_0000
  {
    if w < m / 2 then w else MODULUS - m + w
  }

  function CastVal(t: CastType, v: Val): Val
  {
    if v.Num? then Num(CastWord(t, v.w)) else v
  }

  function JumpTaken(rel: JumpRel, a: Val, b: Val): Option<bool>
  {
    match rel
    case JumpE => Some(a == b)
    case JumpNe => Some(a != b)
    case _ =>
      if !(a.Num? && b.Num?) then None
      else
        var x, y := Signed(a.w), Signed(b.w);
        Some(match rel
             case JumpLt => x < y
             case JumpGt => x > y
             case JumpLte => x <= y
             case _ => x >= y)
  }

  predicate IsCondJump(op: Op)
  {
    op.CJumpT? || op.CJumpF? || op.CJump?
  }

  /** Whether a conditional jump is taken. */
  function Condition(op: Op, a: Val, b: Val): Option<bool>
    requires IsCondJump(op)
  {
    match op
    case CJumpT => Some(a != Num(0))
    case CJumpF => Some(a == Num(0))
    case CJump(k) => JumpTaken(k, a, b)
  }

  // ----- the machine -----

  type Temps = map<nat, Val>

  /** `frames` holds the arguments collected so far by the calls being prepared, innermost last. */
  datatype State = State(pc: nat, temps: Temps, store: Store, frames: seq<seq<Val>>)

  datatype Status = At(s: State) | Halt(value: Val, store: Store) | Stuck

  function Get(temps: Temps, t: nat): Val
  {
    if t in temps then temps[t] else Void
  }

  function Read(a: Operand, temps: Temps, store: Store): Val
  {
    match a
    case AName(x, isFn) => ReadName(store, x, isFn)
    case AConst(w) => Num(w)
    case ATemp(t) => Get(temps, t)
    case _ => Void
  }

  function SetTemp(a: Operand, v: Val, temps: Temps): Temps
  {
    if a.ATemp? then temps[a.t := v] else temps
  }

  function SetName(a: Operand, v: Val, store: Store): Store
  {
    if a.AName? then store[a.name := v] else store
  }

  /** Stores a result and goes on to the next quad. */
  function Write(a: Operand, v: Val, s: State): Status
  {
    At(State(s.pc + 1, SetTemp(a, v, s.temps), SetName(a, v, s.store), s.frames))
  }

  /** The first position at or after i that carries a label. */
  function FindLabel(p: Code, l: nat, i: nat): (r: Option<nat>)
    requires i <= |p|
    ensures r.Some? ==> i <= r.value < |p| && p[r.value] == Label(l)
    ensures r.None? ==> forall k :: i <= k < |p| ==> p[k] != Label(l)
    decreases |p| - i
  {
    if i == |p| then None
    else if p[i] == Label(l) then Some(i)
    else FindLabel(p, l, i + 1)
  }

  function Jump(p: Code, a: Operand, s: State): Status
  {
    if !a.ALabel? then Stuck
    else match FindLabel(p, a.l, 0)
      case Some(i) => At(s.(pc := i))
      case None => Stuck
  }

  function JumpIf(p: Code, taken: Option<bool>, a: Operand, s: State): Status
  {
    match taken
    case Some(true) => Jump(p, a, s)
    case Some(false) => At(s.(pc := s.pc + 1))
    case None => Stuck
  }

  /** Calls the function named by `g` with the arguments of the innermost frame. */
  function CallFn(env: Env, res: Operand, g: Val, s: State): Status
  {
    if !g.Fn? || s.frames == [] then Stuck
    else match env(g.name, s.frames[|s.frames| - 1], s.store)
      case None => Stuck
      case Some((v, store)) =>
        Write(res, v, s.(store := store, frames := s.frames[..|s.frames| - 1]))
  }

  /** One step; running past the last quad returns from the procedure. */
  function Step(env: Env, p: Code, s: State): Status
  {
    if s.pc >= |p| then Halt(Void, s.store)
    else match p[s.pc]
      case Label(_) => At(s.(pc := s.pc + 1))
      case Quad(op, res, arg1, arg2) =>
        var a, b := Read(arg1, s.temps, s.store), Read(arg2, s.temps, s.store);
        match op
        case Alu(k) => (match AluVal(k, a, b) case Some(v) => Write(res, v, s) case None => Stuck)
        case Un(k) => Write(res, UnVal(k, a), s)
        case UJump => Jump(p, res, s)
        case CJumpT => JumpIf(p, Condition(op, a, b), res, s)
        case CJumpF => JumpIf(p, Condition(op, a, b), res, s)
        case CJump(_) => JumpIf(p, Condition(op, a, b), res, s)
        case Copy => Write(res, a, s)
        case OpCast(t) => Write(res, CastVal(t, a), s)
        case Arg =>
          if s.frames == [] then Stuck
          else
            var n := |s.frames| - 1;
            At(s.(pc := s.pc + 1, frames := s.frames[n := s.frames[n] + [a]]))
        case PCall => CallFn(env, ANone, a, s)
        case FCall => CallFn(env, res, a, s)
        case RetP => Halt(Void, s.store)
        case RetF => Halt(a, s.store)
        case OpRef => if arg1.AName? then Write(res, Addr(arg1.name), s) else Stuck
        case OpDeref => if a.Addr? then Write(res, Load(s.store, a.name), s) else Stuck
        case DerefCopy =>
          var d := Read(res, s.temps, s.store);
          if d.Addr? then At(s.(pc := s.pc + 1, store := s.store[d.name := a])) else Stuck
        case HintCall => At(s.(pc := s.pc + 1, frames := s.frames + [[]]))
        case HintLocal => At(s.(pc := s.pc + 1))
  }

  function Run(env: Env, p: Code, s: State, n: nat): Status
    decreases n
  {
    if n == 0 then At(s)
    else match Step(env, p, s)
      case At(s1) => Run(env, p, s1, n - 1)
      case end => end
  }

  /** Runs compose. */
  lemma {:induction false} RunAdd(env: Env, p: Code, s: State, m: nat, n: nat)
    ensures Run(env, p, s, m + n) ==
            match Run(env, p, s, m) { case At(s1) => Run(env, p, s1, n) case end => end }
    decreases m
  {
    if m > 0 {
      match Step(env, p, s)
      case At(s1) => RunAdd(env, p, s1, m - 1, n);
      case _ =>
    }
  }

  lemma JoinThree<T>(a: seq<T>, b: seq<T>, c: seq<T>)
    ensures a + b + c == a + (b + c)
  {
  }

  // ----- labels -----

  /** Each label is defined at most once, so a jump to it lands there. */
  ghost predicate UniqueLabels(p: Code)
  {
    forall i :: 0 <= i < |p| && p[i].Label? ==> FindLabel(p, p[i].id, 0) == Some(i)
  }

  lemma PairwiseUnique(p: Code)
    requires forall i, j :: 0 <= i < j < |p| && p[i].Label? && p[j].Label? ==> p[i].id != p[j].id
    ensures UniqueLabels(p)
  {
  }

  /** `c` occurs in `p` from `pos` on. */
  ghost predicate Within(p: Code, pos: nat, c: Code)
  {
    pos + |c| <= |p| && p[pos..pos + |c|] == c
  }

  lemma WithinAt(p: Code, pos: nat, c: Code, i: nat)
    requires Within(p, pos, c) && i < |c|
    ensures pos + i < |p| && p[pos + i] == c[i]
  {
    assert p[pos..pos + |c|][i] == p[pos + i];
  }

  lemma LabelAt(p: Code, i: nat, l: nat)
    requires UniqueLabels(p) && i < |p| && p[i] == Label(l)
    ensures FindLabel(p, l, 0) == Some(i)
  {
  }

  lemma WithinSplit(p: Code, pos: nat, a: Code, b: Code)
    requires Within(p, pos, a + b)
    ensures Within(p, pos, a) && Within(p, pos + |a|, b)
  {
    var c := p[pos..pos + |a + b|];
    assert a == c[..|a|] && b == c[|a|..];
  }
}
