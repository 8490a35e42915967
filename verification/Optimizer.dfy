/** The peephole optimizer: its patterns, what each turns into, a pass, and passes until nothing changes. */
module Optimizer {
  import opened Words
  import opened Ast
  import opened Quads

  datatype Pattern =
    | RefSubst
    | CopyUnarySubst
    | UnaryConstFold
    | BinaryConstFold
    | IndexConstFold
    | AlgMulZero
    | AlgAddZero
    | NoPattern

  /** The context number of a variable: 0 global, 1 local, 5 parameter. */
  type Contexts = string -> nat

  const FUNCTION_CONTEXT: nat := 2

  /** What is found where a temporary's number would be: operands of all kinds share their storage, and
      several patterns compare it without looking at the kind. */
  function Payload(ctx: Contexts, a: Operand): nat
  {
    match a
    case ANone => 0
    case AName(x, isFn) => if isFn then FUNCTION_CONTEXT else ctx(x)
    case AConst(w) => w
    case ATemp(t) => t
    case ALabel(l) => l
  }

  predicate IsOp(q: Quad, op: Op)
  {
    q.Quad? && q.op == op
  }

  // ----- patterns; s is what is left of the code -----

  /** tX = &x; *tX = y */
  predicate RefPat(s: Code)
  {
    && |s| >= 2 && s[0].Quad? && IsOp(s[1], DerefCopy)
    && s[0].res.ATemp? && s[1].res.ATemp? && s[0].res.t == s[1].res.t
  }

  /** tX = c; then a cast, a sign, a complement or a test of tX */
  predicate CopyPat2(ctx: Contexts, s: Code)
    requires s != [] && s[0].Quad?
  {
    && |s| >= 2 && s[0].res.ATemp? && s[0].arg1.AConst?
    && s[1].Quad? && (s[1].op.OpCast? || s[1].op.Un? || s[1].op in {CJumpT, CJumpF})
    && s[0].res.t == Payload(ctx, s[1].arg1)
  }

  /** tX = c; tY = d; then an operator or a comparison on tX and tY. The second operator is not looked at. */
  predicate CopyPat3(ctx: Contexts, s: Code)
    requires s != [] && s[0].Quad?
  {
    && |s| >= 3 && s[1].Quad? && s[2].Quad?
    && s[0].res.ATemp? && s[1].res.ATemp? && s[0].arg1.AConst? && s[1].arg1.AConst?
    && (s[2].op.Alu? || s[2].op.CJump?)
    && Payload(ctx, s[2].arg1) == s[0].res.t && Payload(ctx, s[2].arg2) == s[1].res.t
  }

  /** tX = c; tZ = tX + d, or * instead of + */
  predicate CopyPat4(s: Code)
    requires s != [] && s[0].Quad?
  {
    && |s| >= 2 && s[1].Quad?
    && s[0].res.ATemp? && s[1].arg1.ATemp? && s[0].arg1.AConst? && s[1].arg2.AConst?
    && s[1].op in {Alu(OpAdd), Alu(OpMul)} && s[0].res.t == s[1].arg1.t
  }

  /** tX = x; tY = 0; then tX + tY or tX * tY. No kinds are looked at except those of x and 0. */
  predicate CopyPat5(ctx: Contexts, s: Code)
    requires s != [] && s[0].Quad?
  {
    && |s| >= 3 && s[1].Quad? && s[2].Quad?
    && !s[0].arg1.AConst? && s[1].arg1.AConst?
    && s[2].op in {Alu(OpAdd), Alu(OpMul)} && s[1].arg1.w == 0
    && Payload(ctx, s[1].res) == Payload(ctx, s[2].arg2) && Payload(ctx, s[0].res) == Payload(ctx, s[2].arg1)
  }

  /** tX = x; then a quad whose first operand is tX */
  predicate CopyPat8(s: Code)
    requires s != [] && s[0].Quad?
  {
    && |s| >= 2 && IsOp(s[0], Copy) && s[0].res.ATemp? && s[1].Quad?
    && (s[1].op in {Copy, OpDeref, CJump(JumpE), CJump(JumpNe), DerefCopy} || s[1].op.OpCast? || s[1].op.Un?)
    && s[1].arg1.ATemp? && s[1].arg1.t == s[0].res.t
  }

  /** The first pattern that matches, in the order in which they are tried. */
  function Search(ctx: Contexts, s: Code): Pattern
    requires s != []
  {
    if IsOp(s[0], OpRef) then
      if RefPat(s) then RefSubst else NoPattern
    else if IsOp(s[0], Copy) then
      if CopyPat2(ctx, s) then UnaryConstFold
      else if CopyPat3(ctx, s) then BinaryConstFold
      else if CopyPat4(s) then IndexConstFold
      else if CopyPat5(ctx, s) then if s[2].op == Alu(OpMul) then AlgMulZero else AlgAddZero
      else if CopyPat8(s) then CopyUnarySubst
      else NoPattern
    else NoPattern
  }

  // ----- constant folding -----

  /** Folding is done on unsigned words. None where C leaves it undefined. */
  function FoldWord(op: AluOp, a: Word, b: Word): Option<Word>
  {
    match op
    case OpDiv => if b == 0 then None else Some(a / b)
    case OpMod => if b == 0 then None else Some(a % b)
    case OpShl => if b < 64 then Some(ToWord(a * Pow2(b))) else None
    case OpShr => if b < 64 then Some(ToWord(a / Pow2(b))) else None
    case _ => AluWord(op, a, b)
  }

  function FoldUn(op: UnOp, a: Word): Word
  {
    match op
    case OpPlus => a
    case OpMinus => ToWord(0 - a)
    case OpBwNot => MODULUS - 1 - a
  }

  function FoldJump(rel: JumpRel, a: Word, b: Word): bool
  {
    match rel
    case JumpLt => a < b
    case JumpGt => a > b
    case JumpLte => a <= b
    case JumpGte => a >= b
    case JumpE => a == b
    case JumpNe => a != b
  }

  // ----- rewriting -----

  function CopyOf(res: Operand, arg: Operand): Quad
  {
    Quad(Copy, res, arg, ANone)
  }

  /** A jump that is always taken, or nothing. */
  function Branch(taken: bool, target: Operand): Code
  {
    if taken then [Quad(UJump, target, ANone, ANone)] else []
  }

  /** Casts to types that are not integers are dropped. */
  function FoldUnary(q: Quad, c: Word): Code
    requires q.Quad? && (q.op.OpCast? || q.op.Un? || q.op in {CJumpT, CJumpF})
  {
    match q.op
    case CJumpT => Branch(c != 0, q.res)
    case CJumpF => Branch(c == 0, q.res)
    case Un(k) => [CopyOf(q.res, AConst(FoldUn(k, c)))]
    case OpCast(t) => if t.TPtr? then [] else [CopyOf(q.res, AConst(CastWord(t, c)))]
  }

  /** A fold that C leaves undefined is taken to give zero. */
  function Folded(op: AluOp, a: Word, b: Word): Word
  {
    if FoldWord(op, a, b).Some? then FoldWord(op, a, b).value else 0
  }

  function FoldBinary(q: Quad, a: Word, b: Word): Code
    requires q.Quad? && (q.op.Alu? || q.op.CJump?)
  {
    match q.op
    case Alu(k) => [CopyOf(q.res, AConst(Folded(k, a, b)))]
    case CJump(rel) => Branch(FoldJump(rel, a, b), q.res)
  }

  /** What the start of s becomes, and how many of its quads that takes. */
  function Rewrite(ctx: Contexts, s: Code): (r: (Code, nat))
    requires s != []
    ensures 1 <= r.1 <= |s|
    ensures if Search(ctx, s) == NoPattern then r == ([s[0]], 1) else r.1 >= 2 && |r.0| <= 1
  {
    match Search(ctx, s)
    case RefSubst => ([CopyOf(s[0].arg1, s[1].arg1)], 2)
    case CopyUnarySubst => ([s[1].(arg1 := s[0].arg1)], 2)
    case UnaryConstFold => (FoldUnary(s[1], s[0].arg1.w), 2)
    case BinaryConstFold => (FoldBinary(s[2], s[0].arg1.w, s[1].arg1.w), 3)
    case IndexConstFold => ([CopyOf(s[1].res, AConst(Folded(s[1].op.alu, s[0].arg1.w, s[1].arg2.w)))], 2)
    case AlgMulZero => ([CopyOf(s[2].res, AConst(0))], 3)
    case AlgAddZero => ([CopyOf(s[2].res, s[0].arg1)], 3)
    case NoPattern => ([s[0]], 1)
  }

  function Pass(ctx: Contexts, s: Code): Code
  {
    if s == [] then []
    else
      var (out, k) := Rewrite(ctx, s);
      out + Pass(ctx, s[k..])
  }

  // ----- the passes -----

  lemma PassParts(ctx: Contexts, s: Code)
    requires s != []
    ensures Pass(ctx, s) == Rewrite(ctx, s).0 + Pass(ctx, s[Rewrite(ctx, s).1..])
  {
  }

  /** A pass changes nothing or makes the code shorter. */
  lemma {:induction false} PassShortens(ctx: Contexts, s: Code)
    ensures |Pass(ctx, s)| <= |s|
    ensures |Pass(ctx, s)| == |s| ==> Pass(ctx, s) == s
  {
    hide Rewrite, Search;
    if s != [] {
      var (out, k) := Rewrite(ctx, s);
      PassShortens(ctx, s[k..]);
      if |Pass(ctx, s)| == |s| {
        assert out == [s[0]] && Pass(ctx, s) == [s[0]] + s[1..];
      }
    }
  }

  /** If a pass changes nothing, no pattern matches anywhere. */
  lemma {:induction false} UnchangedMeansNone(ctx: Contexts, s: Code, i: nat)
    requires Pass(ctx, s) == s && i < |s|
    ensures Search(ctx, s[i..]) == NoPattern
    decreases i
  {
    hide Rewrite, Search;
    var (out, k) := Rewrite(ctx, s);
    PassShortens(ctx, s[k..]);
    assert |out| == k;
    if i == 0 {
      assert s[0..] == s;
    } else {
      assert s[1..] == Pass(ctx, s)[1..] == Pass(ctx, s[1..]);
      UnchangedMeansNone(ctx, s[1..], i - 1);
      assert s[1..][i - 1..] == s[i..];
    }
  }

  /** Quads that no pattern takes: labels, and arguments, calls, returns and hints without a constant. */
  predicate Kept(q: Quad)
  {
    q.Label? || (q.op in {Arg, PCall, FCall, RetP, RetF, HintCall, HintLocal} && !q.arg1.AConst?)
  }

  function KeptOf(s: Code): Code
  {
    if s == [] then [] else (if Kept(s[0]) then [s[0]] else []) + KeptOf(s[1..])
  }

  lemma {:induction false} KeptConcat(a: Code, b: Code)
    ensures KeptOf(a + b) == KeptOf(a) + KeptOf(b)
  {
    hide Kept;
    if a == [] {
      assert a + b == b;
    } else {
      assert (a + b)[0] == a[0] && (a + b)[1..] == a[1..] + b;
      KeptConcat(a[1..], b);
      JoinThree(if Kept(a[0]) then [a[0]] else [], KeptOf(a[1..]), KeptOf(b));
    }
  }

  lemma KeptNone(a: Code)
    requires forall q :: q in a ==> !Kept(q)
    ensures KeptOf(a) == []
  {
  }

  /** A window that is rewritten holds and leaves no quad that must be kept. */
  lemma WindowKept(ctx: Contexts, s: Code)
    requires s != []
    ensures var (out, k) := Rewrite(ctx, s); KeptOf(out) == KeptOf(s[..k])
  {
    var (out, k) := Rewrite(ctx, s);
    if Search(ctx, s) == NoPattern {
      assert s[..1] == [s[0]];
    } else {
      KeptNone(out);
      KeptNone(s[..k]);
    }
  }

  /** They survive a pass unchanged and in order. */
  lemma {:induction false} PassKeeps(ctx: Contexts, s: Code)
    ensures KeptOf(Pass(ctx, s)) == KeptOf(s)
    decreases s
  {
    if s != [] {
      PassKeepsOn(ctx, s);
    }
  }

  lemma {:induction false} PassKeepsOn(ctx: Contexts, s: Code)
    requires s != []
    ensures KeptOf(Pass(ctx, s)) == KeptOf(s)
    decreases s, 0
  {
    hide Pass, Rewrite, Search, KeptOf;
    var (out, k) := Rewrite(ctx, s);
    PassParts(ctx, s);
    WindowKept(ctx, s);
    PassKeeps(ctx, s[k..]);
    KeptConcat(out, Pass(ctx, s[k..]));
    KeptConcat(s[..k], s[k..]);
    assert s == s[..k] + s[k..];
  }

  /** No pattern matches anywhere. */
  predicate Final(ctx: Contexts, p: Code)
  {
    Pass(ctx, p) == p
  }

  /** Passes until one changes nothing. */
  function Passes(ctx: Contexts, p: Code): (r: Code)
    decreases |p|
  {
    PassShortens(ctx, p);
    if |Pass(ctx, p)| == |p| then p else Passes(ctx, Pass(ctx, p))
  }

  lemma {:induction false} PassesEnd(ctx: Contexts, p: Code)
    ensures Final(ctx, Passes(ctx, p)) && |Passes(ctx, p)| <= |p|
    ensures KeptOf(Passes(ctx, p)) == KeptOf(p)
    decreases |p|
  {
    hide Pass, KeptOf;
    PassShortens(ctx, p);
    if |Pass(ctx, p)| != |p| {
      PassKeeps(ctx, p);
      PassesEnd(ctx, Pass(ctx, p));
    }
  }

  // ----- the patterns by the quads they take -----

  /** A reference and a store through it, or a copy and a quad that uses it. */
  predicate IsPair(q0: Quad, q1: Quad)
  {
    match q0
    case Quad(OpRef, ATemp(x), _, _) =>
      (match q1
       case Quad(DerefCopy, ATemp(y), _, _) => x == y
       case _ => false)
    case Quad(Copy, ATemp(x), a, _) =>
      (match q1
       case Quad(Copy, _, ATemp(y), _) => x == y
       case Quad(OpCast(_), _, ATemp(y), _) => x == y
       case Quad(Un(_), _, ATemp(y), _) => x == y
       case Quad(OpDeref, _, ATemp(y), _) => x == y
       case Quad(DerefCopy, _, ATemp(y), _) => x == y
       case Quad(CJump(JumpE), _, ATemp(y), _) => x == y
       case Quad(CJump(JumpNe), _, ATemp(y), _) => x == y
       case Quad(CJumpT, _, ATemp(y), _) => x == y && a.AConst?
       case Quad(CJumpF, _, ATemp(y), _) => x == y && a.AConst?
       case Quad(Alu(OpAdd), _, ATemp(y), AConst(_)) => x == y && a.AConst?
       case Quad(Alu(OpMul), _, ATemp(y), AConst(_)) => x == y && a.AConst?
       case _ => false)
    case _ => false
  }

  /** Two copies, the second of a constant, and a quad on both: any operator on two constants, or a sum or product
      with zero. */
  predicate IsTriple(q0: Quad, q1: Quad, q2: Quad)
  {
    match q0
    case Quad(Copy, ATemp(x), a, _) =>
      (match q1
       case Quad(Copy, ATemp(y), AConst(d), _) =>
         (match q2
          case Quad(Alu(k), _, ATemp(z), ATemp(w)) => x == z && y == w && (a.AConst? || (d == 0 && k in {OpAdd, OpMul}))
          case Quad(CJump(_), _, ATemp(z), ATemp(w)) => x == z && y == w && a.AConst?
          case _ => false)
       case _ => false)
    case _ => false
  }

  /** The code starts with one of these. */
  predicate IsWindow(s: Code)
  {
    (|s| >= 2 && IsPair(s[0], s[1])) || (|s| >= 3 && IsTriple(s[0], s[1], s[2]))
  }

  /** They are found. */
  lemma WindowFound(ctx: Contexts, s: Code)
    requires IsWindow(s)
    ensures s != [] && Search(ctx, s) != NoPattern
  {
  }

  class PeepholeOptimizer {
    const ctx: Contexts
    var opt: Code
    var unopt: Code

    constructor (ctx: Contexts)
      ensures this.ctx == ctx && opt == [] && unopt == []
    {
      this.ctx, opt, unopt := ctx, [], [];
    }

    /** Rewrites what starts at `index` and returns how many quads it took. */
    method OptimizePeep(index: nat) returns (skipped: nat)
      requires index < |unopt|
      modifies this`opt
      ensures (opt, skipped) == (old(opt) + Rewrite(ctx, unopt[index..]).0, Rewrite(ctx, unopt[index..]).1)
    {
      var s := unopt[index..];
      match Search(ctx, s) {
        case RefSubst =>
          opt := opt + [CopyOf(s[0].arg1, s[1].arg1)];
          skipped := 2;
        case CopyUnarySubst =>
          opt := opt + [s[1].(arg1 := s[0].arg1)];
          skipped := 2;
        case UnaryConstFold =>
          opt := opt + FoldUnary(s[1], s[0].arg1.w);
          skipped := 2;
        case BinaryConstFold =>
          opt := opt + FoldBinary(s[2], s[0].arg1.w, s[1].arg1.w);
          skipped := 3;
        case IndexConstFold =>
          opt := opt + [CopyOf(s[1].res, AConst(Folded(s[1].op.alu, s[0].arg1.w, s[1].arg2.w)))];
          skipped := 2;
        case AlgMulZero =>
          opt := opt + [CopyOf(s[2].res, AConst(0))];
          skipped := 3;
        case AlgAddZero =>
          opt := opt + [CopyOf(s[2].res, s[0].arg1)];
          skipped := 3;
        case NoPattern =>
          opt := opt + [s[0]];
          skipped := 1;
      }
    }

    method OptimizationPass() returns (reduced: int)
      requires opt == []
      modifies this`opt
      ensures opt == Pass(ctx, unopt) && reduced == |unopt| - |opt|
    {
      hide Rewrite, Search;
      var i := 0;
      assert unopt[0..] == unopt;
      while i < |unopt|
        invariant 0 <= i <= |unopt|
        invariant opt + Pass(ctx, unopt[i..]) == Pass(ctx, unopt)
      {
        ghost var s, done := unopt[i..], opt;
        var k := OptimizePeep(i);
        assert s[k..] == unopt[i + k..];
        JoinThree(done, Rewrite(ctx, s).0, Pass(ctx, s[k..]));
        i := i + k;
      }
      reduced := |unopt| - |opt|;
    }

    /** Halts after at most one pass more than there are quads, on a list where no pattern matches.
        Excluded are the lists of which nothing is left in the end: a pass that leaves nothing is followed by
        one over the list given first, which has been freed by then. */
    method Optimize(quads: Code) returns (code: Code, reduced: nat, passes: nat)
      requires Passes(ctx, quads) != [] || quads == []
      modifies this
      ensures code == Passes(ctx, quads) && Final(ctx, code)
      ensures forall i :: 0 <= i < |code| ==> Search(ctx, code[i..]) == NoPattern && !IsWindow(code[i..])
      ensures KeptOf(code) == KeptOf(quads)
      ensures reduced == |quads| - |code| && passes <= |quads| + 1
    {
      hide Pass, KeptOf, Search, IsWindow;
      PassesEnd(ctx, quads);
      code, reduced, passes := quads, 0, 0;
      opt, unopt := [], [];
      if |quads| == 0 {
        return;
      }
      while true
        invariant |code| <= |quads| && reduced == |quads| - |code| && passes + |code| <= |quads|
        invariant Passes(ctx, code) == Passes(ctx, quads) && KeptOf(code) == KeptOf(quads) && code != []
        decreases |code|
      {
        unopt, opt := code, [];
        PassShortens(ctx, unopt);
        PassKeeps(ctx, unopt);
        var reducedAtPass := OptimizationPass();
        passes := passes + 1;
        NothingLeft(ctx, opt);
        code := opt;
        if reducedAtPass == 0 {
          break;
        }
        reduced := reduced + reducedAtPass;
      }
      forall i | 0 <= i < |code|
        ensures Search(ctx, code[i..]) == NoPattern && !IsWindow(code[i..])
      {
        UnchangedMeansNone(ctx, code, i);
        if IsWindow(code[i..]) {
          WindowFound(ctx, code[i..]);
        }
      }
    }
  }

  lemma NothingLeft(ctx: Contexts, p: Code)
    requires Passes(ctx, p) != []
    ensures p != []
  {
  }
}
