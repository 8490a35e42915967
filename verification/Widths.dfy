/** Folding is done on 64-bit unsigned words whatever the type: when that is right for narrower types. */
module Widths {
  import opened Words
  import opened Division
  import opened Ast
  import opened Quads
  import opened Optimizer

  /** The operation on unsigned integers of w bits. */
  function WidthOp(op: AluOp, w: nat, x: int, y: int): Option<int>
    requires 0 <= x < Pow2(w) && 0 <= y < Pow2(w)
  {
    match op
    case OpAdd => Some((x + y) % Pow2(w))
    case OpSub => Some((x - y) % Pow2(w))
    case OpMul => Some((x * y) % Pow2(w))
    case OpDiv => if y == 0 then None else Some(x / y)
    case OpMod => if y == 0 then None else Some(x % y)
    case OpShl => if y < w then Some((x * Pow2(y)) % Pow2(w)) else None
    case OpShr => if y < w then Some(x / Pow2(y)) else None
    case OpBwAnd => Some(Bits(BitAnd, x, y, w))
    case OpBwOr => Some(Bits(BitOr, x, y, w))
    case OpBwXor => Some(Bits(BitXor, x, y, w))
  }

  /** The bitwise operators at any width, bit by bit. */
  lemma WidthBits(w: nat, x: nat, y: nat, i: nat)
    requires x < Pow2(w) && y < Pow2(w) && i < w
    ensures forall op, r: nat :: op in {OpBwAnd, OpBwOr, OpBwXor} && WidthOp(op, w, x, y) == Some(r) ==>
              var a, b := x / Pow2(i) % 2 == 1, y / Pow2(i) % 2 == 1;
              r / Pow2(i) % 2 == 1 <==> if op == OpBwAnd then a && b else if op == OpBwOr then a || b else a != b
    ensures forall op :: op in {OpBwAnd, OpBwOr, OpBwXor} ==> WidthOp(op, w, x, y).Some?
  {
    hide Bits, Pow2;
    BitOfBits(BitAnd, x, y, w, i);
    BitOfBits(BitOr, x, y, w, i);
    BitOfBits(BitXor, x, y, w, i);
  }

  /** Reducing modulo a larger power of two first does not matter. */
  lemma ModWithin(x: int, w: nat)
    requires w <= 64
    ensures ToWord(x) % Pow2(w) == x % Pow2(w)
  {
    hide Pow2;
    Pow2Word();
    Pow2Add(w, 64 - w);
    ModOfMod(x, Pow2(64 - w), Pow2(w), MODULUS);
  }

  lemma ModOfMod(x: int, a: int, m: int, n: int)
    requires a > 0 && m > 0 && n == a * m
    ensures n > 0 && x % n % m == x % m
  {
    MulPositive(a, m);
    Euclid(x, n);
    MulAssoc(x / n, a, m);
    ModShift(x % n, x / n * a, m);
  }

  lemma MulPositive(a: int, b: int)
    requires a > 0 && b > 0
    ensures a * b > 0
  {
  }

  lemma MulAssoc(a: int, b: int, c: int)
    ensures a * (b * c) == a * b * c
  {
  }

  lemma SumReduced(a: int, b: int, sign: int, m: int)
    requires m > 0 && (sign == 1 || sign == -1)
    ensures (a % m + sign * (b % m)) % m == (a + sign * b) % m
  {
    Euclid(a, m);
    Euclid(b, m);
    var k := a / m + sign * (b / m);
    assert a + sign * b == a % m + sign * (b % m) + k * m;
    ModShift(a % m + sign * (b % m), k, m);
  }

  lemma {:induction false} DoubleMod(q: int, r: int, n: nat)
    requires r == 0 || r == 1
    ensures (2 * q + r) % Pow2(n + 1) == 2 * (q % Pow2(n)) + r
  {
    var m := Pow2(n);
    Euclid(q, m);
    assert 2 * q + r == (q / m) * Pow2(n + 1) + (2 * (q % m) + r);
    DivModUnique(2 * q + r, Pow2(n + 1), q / m, 2 * (q % m) + r);
  }

  /** The low n bits of an integer, halved. */
  lemma HalfMod(a: int, n: nat)
    ensures a % Pow2(n + 1) / 2 == a / 2 % Pow2(n) && a % Pow2(n + 1) % 2 == a % 2
  {
    DoubleMod(a / 2, a % 2, n);
  }

  /** Bitwise operators work bit by bit, so the low bits depend on the low bits only. */
  lemma {:induction false} BitsNarrow(op: BitOp, a: int, b: int, w: nat, n: nat)
    requires w <= n
    ensures Bits(op, a, b, n) % Pow2(w) == Bits(op, a % Pow2(w), b % Pow2(w), w)
    decreases w
  {
    hide Bits, Bit, Pow2;
    if w > 0 {
      BitsNarrow(op, a / 2, b / 2, w - 1, n - 1);
      HalfMod(a, w - 1);
      HalfMod(b, w - 1);
      BitsStep(op, a, b, n);
      BitsStep(op, a % Pow2(w), b % Pow2(w), w);
      DoubleMod(Bits(op, a / 2, b / 2, n - 1), Bit(op, a % 2, b % 2), w - 1);
    } else {
      NoBits(op, a, b, n);
    }
  }

  lemma BitsStep(op: BitOp, a: int, b: int, n: nat)
    requires n > 0
    ensures Bits(op, a, b, n) == 2 * Bits(op, a / 2, b / 2, n - 1) + Bit(op, a % 2, b % 2)
  {
  }

  lemma NoBits(op: BitOp, a: int, b: int, n: nat)
    ensures Bits(op, a, b, n) % Pow2(0) == Bits(op, a % Pow2(0), b % Pow2(0), 0)
  {
  }

  /** For the operators that do not look at the sign, the 64-bit fold reduced to any width is the
      operation of that width on the reduced operands. */
  lemma FoldNarrows(op: AluOp, w: nat, a: Word, b: Word)
    requires w <= 64 && op in {OpAdd, OpSub, OpMul, OpBwAnd, OpBwOr, OpBwXor}
    ensures var r := FoldWord(op, a, b);
            r.Some? && Some(r.value % Pow2(w)) == WidthOp(op, w, a % Pow2(w), b % Pow2(w))
  {
    hide Bits;
    var m := Pow2(w);
    match op
    case OpAdd => ModWithin(a + b, w); SumReduced(a, b, 1, m);
    case OpSub => ModWithin(a - b, w); SumReduced(a, b, -1, m);
    case OpMul => ModWithin(a * b, w); ModMul(a, b, m);
    case OpBwAnd => BitsNarrow(BitAnd, a, b, w, 64);
    case OpBwOr => BitsNarrow(BitOr, a, b, w, 64);
    case OpBwXor => BitsNarrow(BitXor, a, b, w, 64);
  }

  lemma CountFits(b: nat, w: nat)
    requires b < w
    ensures b < Pow2(w)
  {
    if b > 0 {
      CountFits(b - 1, w - 1);
    }
  }

  /** A left shift by less than the width narrows too. */
  lemma ShiftNarrows(w: nat, a: Word, b: Word)
    requires b < w <= 64
    ensures b < Pow2(w)
    ensures var r := FoldWord(OpShl, a, b);
            r.Some? && Some(r.value % Pow2(w)) == WidthOp(OpShl, w, a % Pow2(w), b)
  {
    hide Pow2, ToWord;
    CountFits(b, w);
    ModWithin(a * Pow2(b), w);
    ModMulLeft(a, Pow2(b), Pow2(w));
  }

  /** The others need their operands to be zero-extended values of the type. */
  lemma FoldZeroExtended(op: AluOp, w: nat, a: Word, b: Word)
    requires w <= 64 && a < Pow2(w) && b < Pow2(w) && op in {OpDiv, OpMod, OpShr} && WidthOp(op, w, a, b).Some?
    ensures FoldWord(op, a, b) == WidthOp(op, w, a, b)
  {
    hide Pow2, ToWord, AluWord, Bits;
    if op == OpShr {
      QuotientSmall(a, Pow2(b));
      AlreadyWord(a / Pow2(b));
    }
  }

  /** And need them: at every narrower width there are words on which the fold, reduced, is not the operation
      on the reduced words. */
  lemma ZeroExtensionNeeded(op: AluOp, w: nat) returns (a: Word, b: Word)
    requires 2 <= w < 64 && op in {OpDiv, OpMod, OpShr}
    ensures var r, n := FoldWord(op, a, b), WidthOp(op, w, a % Pow2(w), b % Pow2(w));
            r.Some? && n.Some? && r.value % Pow2(w) != n.value
  {
    hide WidthOp, FoldWord;
    PowerIsWord(w);
    a := Pow2(w);
    b := if op == OpDiv then 2 else if op == OpShr then 1 else Pow2(w) - 1;
    if op == OpMod {
      LeftOver(w);
    } else {
      HalvedAway(op, w, b);
    }
  }

  lemma PowerIsWord(w: nat)
    requires 2 <= w < 64
    ensures 4 <= Pow2(w) < MODULUS && Pow2(w) == 2 * Pow2(w - 1) && Pow2(w - 1) >= 2
  {
    Pow2Word();
    Pow2Add(w, 64 - w);
    Pow2Add(w - 2, 2);
    assert Pow2(64 - w) >= 2;
    MulAtLeast(Pow2(64 - w), Pow2(w));
  }

  /** The lowest bit beyond the width comes back when it is shifted or divided down. */
  lemma HalvedAway(op: AluOp, w: nat, b: Word)
    requires 2 <= w < 64 && ((op == OpDiv && b == 2) || (op == OpShr && b == 1))
    ensures var a := Pow2(w);
            && a < MODULUS && b < Pow2(w)
            && FoldWord(op, a, b) == Some(Pow2(w - 1)) && FoldWord(op, a, b).value % Pow2(w) == Pow2(w - 1)
            && WidthOp(op, w, a % Pow2(w), b % Pow2(w)) == Some(0)
  {
    PowerIsWord(w);
    var a := Pow2(w);
    DivModUnique(a, 2, Pow2(w - 1), 0);
    DivModUnique(a, a, 1, 0);
    DivModUnique(b, a, 0, b);
    DivModUnique(Pow2(w - 1), a, 0, Pow2(w - 1));
    assert Pow2(1) == 2;
  }

  lemma LeftOver(w: nat)
    requires 2 <= w < 64
    ensures var a, b := Pow2(w), Pow2(w) - 1;
            && a < MODULUS
            && FoldWord(OpMod, a, b) == Some(1) && 1 % Pow2(w) == 1
            && WidthOp(OpMod, w, a % Pow2(w), b % Pow2(w)) == Some(0)
  {
    PowerIsWord(w);
    var a, b := Pow2(w), Pow2(w) - 1;
    DivModUnique(a, b, 1, 1);
    DivModUnique(a, a, 1, 0);
    DivModUnique(b, a, 0, b);
    DivModUnique(1, a, 0, 1);
    DivModUnique(0, b, 0, 0);
  }

  lemma AlreadyWord(x: Word)
    ensures ToWord(x) == x
  {
  }

  lemma QuotientSmall(a: nat, m: int)
    requires m > 0
    ensures 0 <= a / m <= a
  {
    Euclid(a, m);
    if a / m > a {
      MulAtLeast(m, a / m);
    }
  }

  /** Negation and complement narrow to any width. */
  lemma UnaryNarrows(op: UnOp, w: nat, a: Word)
    requires w <= 64
    ensures FoldUn(op, a) % Pow2(w) == match op
                                       case OpPlus => a % Pow2(w)
                                       case OpMinus => (0 - a % Pow2(w)) % Pow2(w)
                                       case OpBwNot => Pow2(w) - 1 - a % Pow2(w)
  {
    hide Pow2, ToWord;
    match op
    case OpPlus =>
    case OpMinus => ModWithin(0 - a, w); SumReduced(0, a, -1, Pow2(w)); ZeroMod(Pow2(w));
    case OpBwNot => ModWithin(-1 - a, w); ComplementWord(a); ComplementMod(a, Pow2(w));
  }

  lemma ZeroMod(m: int)
    requires m > 0
    ensures 0 % m == 0
  {
  }

  lemma ComplementMod(a: int, m: int)
    requires m > 0
    ensures (-1 - a) % m == m - 1 - a % m
  {
    Euclid(a, m);
    assert -1 - a == (-1 - a / m) * m + (m - 1 - a % m);
    DivModUnique(-1 - a, m, -1 - a / m, m - 1 - a % m);
  }

  lemma ComplementWord(a: Word)
    ensures ToWord(-1 - a) == MODULUS - 1 - a
  {
    assert -1 - a == MODULUS - 1 - a + (-1) * MODULUS;
  }

  /** A cast to a type of width w keeps the value modulo 2^w. */
  lemma CastNarrows(t: CastType, w: nat, a: Word)
    requires (t in {TI8, TU8} && w == 8) || (t in {TI16, TU16} && w == 16) || (t in {TI32, TU32} && w == 32)
             || (t in {TI64, TU64} && w == 64)
    ensures CastWord(t, a) % Pow2(w) == a % Pow2(w)
  {
    hide Pow2;
    Pow2Small();
    match t
    case TI8 => SignNarrows(a, 0x100, 0xFF_FFFF_FFFF_FFFF);
    case TI16 => SignNarrows(a, 0x1_0000, 0xFFFF_FFFF_FFFF);
    case TI32 => SignNarrows(a, 0x1_0000_0000, 0xFFFF_FFFF);
    case _ => ModTwice(a, Pow2(w));
  }

  lemma ModTwice(a: int, m: int)
    requires m > 0
    ensures a % m % m == a % m
  {
  }

  lemma SignNarrows(a: Word, m: int, k: int)
    requires 0 < m <= 0x1_0000_0000 && k * m == MODULUS - m
    ensures SignExtend(a % m, m) % m == a % m
  {
    ModTwice(a, m);
    ModShift(a % m, k, m);
  }

  lemma Pow2Small()
    ensures Pow2(8) == 0x100 && Pow2(16) == 0x1_0000 && Pow2(32) == 0x1_0000_0000 && Pow2(64) == MODULUS
  {
    Pow2Word();
    Pow2Add(8, 8);
    Pow2Add(16, 16);
  }

  /** The operation on signed integers of w bits, given and wanted as unsigned ones. None for division by
      zero and for the most negative value divided by -1. */
  function SignedOp(op: AluOp, w: nat, x: nat, y: nat): Option<int>
    requires w > 0 && y < 2 * Pow2(w - 1)
  {
    var half := Pow2(w - 1);
    if y == 0 || (x == half && y == 2 * half - 1) then None
    else if op == OpDiv then Some(Quot(SignedOf(half, x), SignedOf(half, y)) % Pow2(w))
    else Some(Rem(SignedOf(half, x), SignedOf(half, y)) % Pow2(w))
  }

  predicate SignedFits(op: AluOp, w: nat, x: nat, y: nat)
    requires w > 0
  {
    if op == OpDiv then QuotFits(Pow2(w - 1), x, y) else RemFits(Pow2(w - 1), x, y)
  }

  /** For a signed type of any width, the fold of a quotient or a remainder, which is unsigned, gives the
      signed result exactly when `SignedFits` says so. */
  lemma SignedFoldExact(op: AluOp, w: nat, a: Word, b: Word)
    requires 0 < w <= 64 && a < 2 * Pow2(w - 1) && b < 2 * Pow2(w - 1)
    requires op in {OpDiv, OpMod} && SignedOp(op, w, a, b).Some?
    ensures FoldWord(op, a, b) == SignedOp(op, w, a, b) <==> SignedFits(op, w, a, b)
  {
    hide Quot, Rem, QuotFits, RemFits, Pow2;
    assert Pow2(w) == 2 * Pow2(w - 1) by { DoublePow(w); }
    if op == OpDiv {
      QuotExact(Pow2(w - 1), a, b);
    } else {
      RemExact(Pow2(w - 1), a, b);
    }
  }

  lemma DoublePow(w: nat)
    requires w > 0
    ensures Pow2(w) == 2 * Pow2(w - 1)
  {
  }

  /** An instance on which they part: -4 / 2. */
  lemma SignedDivisionDiffers()
    ensures AluWord(OpDiv, MODULUS - 4, 2) == Some(MODULUS - 2)
    ensures FoldWord(OpDiv, MODULUS - 4, 2) == Some(SIGN - 2)
  {
  }
}
