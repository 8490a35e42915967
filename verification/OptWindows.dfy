/** What each pattern of the optimizer makes of the quads it takes, written out. */
module OptWindows {
  import opened Words
  import opened Ast
  import opened Quads
  import opened Emit
  import opened Optimizer

  /** `tX = &a; *tX = v` becomes `a = v`. */
  lemma RefRule(ctx: Contexts, x: nat, a: Operand, v: Operand, u: Operand, w: Operand, rest: Code)
    ensures Rewrite(ctx, [Quad(OpRef, ATemp(x), a, u), Quad(DerefCopy, ATemp(x), v, w)] + rest) ==
            ([Quad(Copy, a, v, ANone)], 2)
  {
  }

  /** `tX = c` and a cast of tX to an integer type become a constant: the low part, zeros or the sign before it. */
  lemma CastRule(ctx: Contexts, x: nat, c: Word, t: CastType, z: Operand, u: Operand, w: Operand, rest: Code)
    ensures Rewrite(ctx, [Quad(Copy, ATemp(x), AConst(c), u), Quad(OpCast(t), z, ATemp(x), w)] + rest) ==
            (match t
             case TI8 => [Quad(Copy, z, AConst(if c % 0x100 < 0x80 then c % 0x100 else MODULUS - 0x100 + c % 0x100), ANone)]
             case TI16 => [Quad(Copy, z, AConst(if c % 0x1_0000 < 0x8000 then c % 0x1_0000 else MODULUS - 0x1_0000 + c % 0x1_0000), ANone)]
             case TI32 => [Quad(Copy, z, AConst(if c % 0x1_0000_0000 < 0x8000_0000 then c % 0x1_0000_0000
                                                else MODULUS - 0x1_0000_0000 + c % 0x1_0000_0000), ANone)]
             case TU8 => [Quad(Copy, z, AConst(c % 0x100), ANone)]
             case TU16 => [Quad(Copy, z, AConst(c % 0x1_0000), ANone)]
             case TU32 => [Quad(Copy, z, AConst(c % 0x1_0000_0000), ANone)]
             case TI64 => [Quad(Copy, z, AConst(c), ANone)]
             case TU64 => [Quad(Copy, z, AConst(c), ANone)]
             case TPtr => [], 2)
  {
  }

  /** `tX = c` and a sign or complement of tX become a constant. */
  lemma SignRule(ctx: Contexts, x: nat, c: Word, k: UnOp, z: Operand, u: Operand, w: Operand, rest: Code)
    ensures Rewrite(ctx, [Quad(Copy, ATemp(x), AConst(c), u), Quad(Un(k), z, ATemp(x), w)] + rest) ==
            ([Quad(Copy, z, AConst(match k
                                   case OpPlus => c
                                   case OpMinus => if c == 0 then 0 else MODULUS - c
                                   case OpBwNot => MODULUS - 1 - c), ANone)], 2)
  {
  }

  /** `tX = c` and a test of tX become a jump or nothing. */
  lemma TestRule(ctx: Contexts, x: nat, c: Word, z: Operand, u: Operand, w: Operand, rest: Code)
    ensures Rewrite(ctx, [Quad(Copy, ATemp(x), AConst(c), u), Quad(CJumpT, z, ATemp(x), w)] + rest) ==
            (if c == 0 then [] else [Quad(UJump, z, ANone, ANone)], 2)
    ensures Rewrite(ctx, [Quad(Copy, ATemp(x), AConst(c), u), Quad(CJumpF, z, ATemp(x), w)] + rest) ==
            (if c == 0 then [Quad(UJump, z, ANone, ANone)] else [], 2)
  {
  }

  /** `tX = c; tY = d` and an operator on both become a constant. */
  lemma FoldRule(ctx: Contexts, x: nat, y: nat, c: Word, d: Word, k: AluOp, z: Operand, u: Operand, w: Operand, rest: Code)
    ensures Rewrite(ctx, [Quad(Copy, ATemp(x), AConst(c), u), Quad(Copy, ATemp(y), AConst(d), w),
                          Quad(Alu(k), z, ATemp(x), ATemp(y))] + rest) ==
            ([Quad(Copy, z, AConst(match k
                                   case OpAdd => (c + d) % MODULUS
                                   case OpSub => (c - d) % MODULUS
                                   case OpMul => (c * d) % MODULUS
                                   case OpDiv => if d == 0 then 0 else c / d
                                   case OpMod => if d == 0 then 0 else c % d
                                   case OpShl => if d < 64 then (c * Pow2(d)) % MODULUS else 0
                                   case OpShr => if d < 64 then (c / Pow2(d)) % MODULUS else 0
                                   case OpBwAnd => Bitwise(BitAnd, c, d)
                                   case OpBwOr => Bitwise(BitOr, c, d)
                                   case OpBwXor => Bitwise(BitXor, c, d)), ANone)], 3)
  {
    hide Bitwise, Pow2;
  }

  /** `tX = c; tY = d` and a comparison of both become a jump or nothing; the order is that of unsigned numbers. */
  lemma CompareRule(ctx: Contexts, x: nat, y: nat, c: Word, d: Word, rel: JumpRel, z: Operand, u: Operand, w: Operand, rest: Code)
    ensures Rewrite(ctx, [Quad(Copy, ATemp(x), AConst(c), u), Quad(Copy, ATemp(y), AConst(d), w),
                          Quad(CJump(rel), z, ATemp(x), ATemp(y))] + rest) ==
            (if (match rel
                 case JumpLt => c < d
                 case JumpGt => d < c
                 case JumpLte => !(d < c)
                 case JumpGte => !(c < d)
                 case JumpE => c == d
                 case JumpNe => c != d) then [Quad(UJump, z, ANone, ANone)] else [], 3)
  {
  }

  /** `tX = c; tZ = tX + d` and `tX = c; tZ = tX * d` become constants. */
  lemma IndexRule(ctx: Contexts, x: nat, c: Word, d: Word, z: Operand, u: Operand, rest: Code)
    ensures Rewrite(ctx, [Quad(Copy, ATemp(x), AConst(c), u), Quad(Alu(OpAdd), z, ATemp(x), AConst(d))] + rest) ==
            ([Quad(Copy, z, AConst((c + d) % MODULUS), ANone)], 2)
    ensures Rewrite(ctx, [Quad(Copy, ATemp(x), AConst(c), u), Quad(Alu(OpMul), z, ATemp(x), AConst(d))] + rest) ==
            ([Quad(Copy, z, AConst((c * d) % MODULUS), ANone)], 2)
  {
  }

  /** `tX = a; tY = 0; z = tX + tY` becomes `z = a`, and the product becomes `z = 0`; z may be tX. */
  lemma ZeroRule(ctx: Contexts, x: nat, y: nat, a: Operand, z: Operand, u: Operand, w: Operand, rest: Code)
    requires !a.AConst?
    ensures Rewrite(ctx, [Quad(Copy, ATemp(x), a, u), Quad(Copy, ATemp(y), AConst(0), w),
                          Quad(Alu(OpAdd), z, ATemp(x), ATemp(y))] + rest) ==
            ([Quad(Copy, z, a, ANone)], 3)
    ensures Rewrite(ctx, [Quad(Copy, ATemp(x), a, u), Quad(Copy, ATemp(y), AConst(0), w),
                          Quad(Alu(OpMul), z, ATemp(x), ATemp(y))] + rest) ==
            ([Quad(Copy, z, AConst(0), ANone)], 3)
  {
  }

  /** `tX = a` and a quad on tX become the quad on a: a copy, a dereference, a store and a test for equality whatever
      a is, a cast, a sign and a complement if a is not a constant. */
  lemma CopyRule(ctx: Contexts, x: nat, a: Operand, op: Op, z: Operand, u: Operand, w: Operand, rest: Code)
    requires op in {Copy, OpDeref, DerefCopy, CJump(JumpE), CJump(JumpNe)} || (!a.AConst? && (op.OpCast? || op.Un?))
    ensures Rewrite(ctx, [Quad(Copy, ATemp(x), a, u), Quad(op, z, ATemp(x), w)] + rest) == ([Quad(op, z, a, w)], 2)
  {
  }

  /** Where a pattern compares without looking at kinds, a name is taken for the temporary with the number of its
      context, a function for temporary 2, and a constant for the temporary it is equal to. */
  lemma MistakenRule(ctx: Contexts, x: nat, c: Word, k: UnOp, n: string, d: Word, z: Operand, u: Operand, w: Operand, rest: Code)
    ensures var first := Quad(Copy, ATemp(x), AConst(c), u);
            && (Search(ctx, [first, Quad(Un(k), z, AName(n, false), w)] + rest) == UnaryConstFold <==> ctx(n) == x)
            && (Search(ctx, [first, Quad(Un(k), z, AName(n, true), w)] + rest) == UnaryConstFold <==> x == 2)
            && (Search(ctx, [first, Quad(Un(k), z, AConst(d), w)] + rest) == UnaryConstFold <==> x == d)
  {
  }

  // ----- and nothing else -----

  /** Wherever a pattern compares the number of a temporary there is one, and the constant before an operator is
      copied; so it is in emitted code, where constants are only copied and a name is the result of copies alone. */
  predicate Tidy(s: Code)
  {
    && (|s| >= 2 && s[1].Quad? && (s[1].op.OpCast? || s[1].op.Un? || s[1].op in {CJumpT, CJumpF}) ==> s[1].arg1.ATemp?)
    && (|s| >= 3 && s[1].Quad? && s[2].Quad? && s[1].arg1.AConst? && (s[2].op.Alu? || s[2].op.CJump?) ==>
          && IsOp(s[1], Copy) && s[1].res.ATemp?
          && s[0].Quad? && s[0].res.ATemp? && s[2].arg1.ATemp? && s[2].arg2.ATemp?)
  }

  /** On such code exactly these windows are rewritten. */
  lemma OnlyWindows(ctx: Contexts, s: Code)
    requires s != [] && Tidy(s)
    ensures Search(ctx, s) != NoPattern <==> IsWindow(s)
    ensures !IsWindow(s) ==> Rewrite(ctx, s) == ([s[0]], 1)
  {
    if IsWindow(s) {
      WindowFound(ctx, s);
    }
  }

  // ----- adding and multiplying by zero, from the source -----

  /** The code of `return x + 0;` and `return x * 0;`. */
  function ZeroCode(k: ArithKind, x: string, isFn: bool): Code
  {
    [Quad(Copy, ATemp(1), AName(x, isFn), ANone), Quad(Copy, ATemp(2), AConst(0), ANone)]
    + ([Quad(Alu(if k == Add then OpAdd else OpMul), ATemp(1), ATemp(1), ATemp(2))]
    + [Quad(RetF, ANone, ATemp(1), ANone)])
  }

  lemma ZeroEmitted(k: ArithKind, x: string, isFn: bool, l: nat, out: nat, iter: nat)
    requires k in {Add, Mul}
    ensures StmtCode(Return(Some(Arith(k, Ident(x, isFn), Const(0)))), 0, l, out, iter).code == ZeroCode(k, x, isFn)
  {
    hide ExprCode, SettleAfter, NotCode, UnaryCode, FreshCode, RelateCode, LogicCode, TernaryCode, CallCode;
    var e := Arith(k, Ident(x, isFn), Const(0));
    CodeParts(e, 0, l);
    CodeParts(Ident(x, isFn), 0, l);
    CodeParts(Const(0), 1, l);
  }

  /** All passes leave `t1 = x; ret t1` and `t1 = 0; ret t1`. */
  lemma ZeroGone(ctx: Contexts, k: ArithKind, x: string, isFn: bool)
    requires k in {Add, Mul}
    ensures Passes(ctx, ZeroCode(k, x, isFn)) ==
            [Quad(Copy, ATemp(1), if k == Add then AName(x, isFn) else AConst(0), ANone), Quad(RetF, ANone, ATemp(1), ANone)]
  {
    hide Rewrite, Search;
    var p, ret := ZeroCode(k, x, isFn), Quad(RetF, ANone, ATemp(1), ANone);
    var a := if k == Add then AName(x, isFn) else AConst(0);
    ZeroRule(ctx, 1, 2, AName(x, isFn), ATemp(1), ANone, ANone, [ret]);
    assert p == [p[0], p[1], p[2]] + [ret] && p[3..] == [ret];
    ReturnStays(ctx, ret);
    PassParts(ctx, p);
    CopyReturned(ctx, a, ret);
    assert Pass(ctx, p) == [Quad(Copy, ATemp(1), a, ANone), ret];
  }

  lemma ReturnStays(ctx: Contexts, ret: Quad)
    requires IsOp(ret, RetF)
    ensures Pass(ctx, [ret]) == [ret]
  {
    assert Rewrite(ctx, [ret]) == ([ret], 1);
  }

  lemma CopyReturned(ctx: Contexts, a: Operand, ret: Quad)
    requires IsOp(ret, RetF)
    ensures var p := [Quad(Copy, ATemp(1), a, ANone), ret]; Pass(ctx, p) == p
  {
    var p := [Quad(Copy, ATemp(1), a, ANone), ret];
    assert p[1..] == [ret];
    ReturnStays(ctx, ret);
    assert Rewrite(ctx, p) == ([p[0]], 1);
  }

  // ----- what all passes leave alone -----

  /** The operators no pattern takes or makes. */
  predicate Untouched(op: Op)
  {
    op in {Arg, PCall, FCall, RetP, RetF, HintCall, HintLocal}
  }

  /** The quads with an operator, in order. */
  function WithOp(op: Op, p: Code): Code
  {
    if p == [] then [] else (if IsOp(p[0], op) then [p[0]] else []) + WithOp(op, p[1..])
  }

  /** The labels, in order. */
  function LabelsOf(p: Code): Code
  {
    if p == [] then [] else (if p[0].Label? then [p[0]] else []) + LabelsOf(p[1..])
  }

  lemma {:induction false} KeptWith(op: Op, p: Code)
    requires forall q :: q in p && IsOp(q, op) ==> Kept(q)
    ensures WithOp(op, KeptOf(p)) == WithOp(op, p) && LabelsOf(KeptOf(p)) == LabelsOf(p)
  {
    if p != [] {
      KeptWith(op, p[1..]);
      var rest := KeptOf(p[1..]);
      assert ([p[0]] + rest)[1..] == rest && [] + rest == rest;
    }
  }

  lemma {:induction false} PassFrom(ctx: Contexts, s: Code, q: Quad)
    requires q in Pass(ctx, s) && q.Quad? && Untouched(q.op)
    ensures q in s
  {
    hide Rewrite;
    var (out, k) := Rewrite(ctx, s);
    PassParts(ctx, s);
    if q in out {
      WindowFrom(ctx, s, q);
    } else {
      PassFrom(ctx, s[k..], q);
    }
  }

  lemma WindowFrom(ctx: Contexts, s: Code, q: Quad)
    requires s != [] && q in Rewrite(ctx, s).0 && q.Quad? && Untouched(q.op)
    ensures q in s
  {
  }

  lemma {:induction false} PassesFrom(ctx: Contexts, p: Code, q: Quad)
    requires q in Passes(ctx, p) && q.Quad? && Untouched(q.op)
    ensures q in p
    decreases |p|
  {
    hide Pass;
    PassShortens(ctx, p);
    if |Pass(ctx, p)| != |p| {
      PassesFrom(ctx, Pass(ctx, p), q);
      PassFrom(ctx, p, q);
    }
  }

  /** Arguments, calls, returns and hints, if they are not of constants, and labels are after all passes what they
      were, operator by operator and in order. */
  lemma AllPassesKeep(ctx: Contexts, p: Code, op: Op)
    requires op in {Arg, PCall, FCall, RetP, RetF, HintCall, HintLocal}
    requires forall q :: q in p && IsOp(q, op) ==> !q.arg1.AConst?
    ensures WithOp(op, Passes(ctx, p)) == WithOp(op, p) && LabelsOf(Passes(ctx, p)) == LabelsOf(p)
  {
    hide Passes, KeptOf;
    PassesEnd(ctx, p);
    forall q | q in Passes(ctx, p) && IsOp(q, op)
      ensures q in p
    {
      PassesFrom(ctx, p, q);
    }
    KeptWith(op, p);
    KeptWith(op, Passes(ctx, p));
  }
}
