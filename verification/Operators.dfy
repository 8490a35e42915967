/** The word operators of the machine compute what the signed operators of the language mean. */
module Operators {
  import opened Words
  import opened Ast
  import opened Quads
  import opened Emit

  /** A word product may be computed from the signed readings. */
  lemma MulAgrees(a: Word, b: Word)
    ensures ToWord(Signed(a) * Signed(b)) == ToWord(a * b)
  {
    ToWordSigned(a);
    ToWordSigned(b);
    ModMul(Signed(a), Signed(b), MODULUS);
    ModMul(a, b, MODULUS);
  }

  lemma ScaleAgrees(a: Word, m: nat)
    ensures ToWord(Signed(a) * m) == ToWord(a * m)
  {
    ToWordSigned(a);
    ModMul(Signed(a), m, MODULUS);
    ModMul(a, m, MODULUS);
  }

  lemma ToWordOfI64(x: int)
    ensures ToWord(ToI64(x)) == ToWord(x)
  {
    ToWordSigned(ToWord(x));
  }

  /** What an operator of the language and its machine operator make of two words. */
  ghost predicate Agrees(k: ArithKind, a: Word, b: Word)
  {
    var r := Compute(k, Signed(a), Signed(b));
    r.Some? ==> AluWord(AluOf(k), a, b) == Some(ToWord(r.value))
  }

  lemma SumsAgree(k: ArithKind, a: Word, b: Word)
    requires k in {Add, Sub, Mul}
    ensures Agrees(k, a, b)
  {
    var x: int, y: int := Signed(a), Signed(b);
    match k
    case Add => ToWordOfI64(x + y); SumAgrees(a, b, 1);
    case Sub => ToWordOfI64(x - y); SumAgrees(a, b, -1);
    case Mul => ToWordOfI64(x * y); MulAgrees(a, b);
  }

  lemma QuotientsAgree(k: ArithKind, a: Word, b: Word)
    requires k in {Div, Mod}
    ensures Agrees(k, a, b)
  {
    var x: int, y: int := Signed(a), Signed(b);
    if y != 0 {
      match k
      case Div => ToWordOfI64(Quot(x, y));
      case Mod => ToWordOfI64(x - Quot(x, y) * y);
    }
  }

  lemma ShiftsAgree(k: ArithKind, a: Word, b: Word)
    requires k in {Shl, Shr}
    ensures Agrees(k, a, b)
  {
    var x: int, y: int := Signed(a), Signed(b);
    if 0 <= y < 64 {
      match k
      case Shl => ToWordOfI64(x * Pow2(y)); ScaleAgrees(a, Pow2(y));
      case Shr => ToWordOfI64(x / Pow2(y));
    }
  }

  lemma BitwiseAgree(k: ArithKind, a: Word, b: Word)
    requires k in {BwAnd, BwOr, BwXor}
    ensures Agrees(k, a, b)
  {
    hide Bitwise;
    ToWordSigned(a);
    ToWordSigned(b);
    match k
    case BwAnd => ToWordSigned(Bitwise(BitAnd, a, b));
    case BwOr => ToWordSigned(Bitwise(BitOr, a, b));
    case BwXor => ToWordSigned(Bitwise(BitXor, a, b));
  }

  /** The bitwise operators of the language and of the machine, bit by bit. */
  lemma BitwiseMeaning(k: ArithKind, a: Word, b: Word, i: nat)
    requires k in {BwAnd, BwOr, BwXor} && i < 64
    ensures AluWord(AluOf(k), a, b).Some? && Compute(k, Signed(a), Signed(b)).Some?
    ensures var r := AluWord(AluOf(k), a, b).value;
            var x, y := a / Pow2(i) % 2 == 1, b / Pow2(i) % 2 == 1;
            && ToWord(Compute(k, Signed(a), Signed(b)).value) == r
            && (r / Pow2(i) % 2 == 1 <==> if k == BwAnd then x && y else if k == BwOr then x || y else x != y)
  {
    hide Bitwise, Pow2;
    BitwiseBits(a, b, i);
    BitwiseAgree(k, a, b);
  }

  /** Division truncates toward zero: what is left over is smaller than the divisor and has the sign of x. */
  lemma QuotTruncates(x: int, y: int)
    requires y != 0
    ensures var left := x - Quot(x, y) * y;
            if 0 <= x then 0 <= left < (if y < 0 then -y else y) else (if y < 0 then y else -y) < left <= 0
  {
    var q: int, m: int, n: int := Quot(x, y), Abs(x), Abs(y);
    var d: int := m / n;
    Euclid(m, n);
    if (x < 0) == (y < 0) {
      assert q == d;
      assert q * y == if y < 0 then -(d * n) else d * n;
    } else {
      assert q == -d;
      assert q * y == if y < 0 then d * n else -(d * n);
    }
  }

  lemma ArithAgrees(k: ArithKind, a: Val, b: Val)
    requires EvalArith(k, a, b).Some?
    ensures AluVal(AluOf(k), a, b) == EvalArith(k, a, b)
  {
    if k in {Add, Sub, Mul} {
      SumsAgree(k, a.w, b.w);
    } else if k in {Div, Mod} {
      QuotientsAgree(k, a.w, b.w);
    } else if k in {Shl, Shr} {
      ShiftsAgree(k, a.w, b.w);
    } else {
      BitwiseAgree(k, a.w, b.w);
    }
  }

  lemma SumAgrees(a: Word, b: Word, sign: int)
    requires sign == 1 || sign == -1
    ensures ToWord(Signed(a) + sign * Signed(b)) == ToWord(a + sign * b)
  {
    var i := if a < SIGN then 0 else -1;
    var j := if b < SIGN then 0 else -1;
    assert Signed(a) + sign * Signed(b) == a + sign * b + (i + sign * j) * MODULUS;
    ModShift(a + sign * b, i + sign * j, MODULUS);
  }

  lemma UnaryAgrees(k: UnaryKind, w: Word)
    ensures UnVal(UnOf(k), Num(w)) == Num(ToWord(ComputeUnary(k, Signed(w))))
  {
    ToWordSigned(w);
    match k
    case Plus =>
    case Minus => ToWordOfI64(0 - Signed(w)); SumAgrees(0, w, -1);
    case BwNot =>
      assert -1 - Signed(w) == MODULUS - 1 - w + (if w < SIGN then -1 else 0) * MODULUS;
  }

  /** A width m divides 2^64, so both readings of a word have the same low part. */
  lemma LowPart(w: Word, m: int, k: int)
    requires 0 < m <= 0x1_0000_0000 && k * m == MODULUS && m % 2 == 0
    ensures Signed(w) % m == w % m
    ensures ToWord(Signed(w) % m) == w % m
    ensures ToWord(Narrow(Signed(w), m)) == SignExtend(w % m, m)
  {
    var i := if w < SIGN then 0 else -k;
    assert Signed(w) == w + i * m;
    ModShift(w, i, m);
  }

  lemma CastAgrees(t: CastType, v: Val)
    requires EvalCast(t, v).Some?
    ensures Some(CastVal(t, v)) == EvalCast(t, v)
  {
    if v.Num? {
      ToWordSigned(v.w);
      LowPart(v.w, 0x100, 0x100_0000_0000_0000);
      LowPart(v.w, 0x1_0000, 0x1_0000_0000_0000);
      LowPart(v.w, 0x1_0000_0000, 0x1_0000_0000);
    }
  }

  lemma RelAgrees(k: RelKind, a: Val, b: Val)
    requires EvalRel(k, a, b).Some?
    ensures JumpTaken(JumpOf(k), a, b) == EvalRel(k, a, b)
  {
  }
}
