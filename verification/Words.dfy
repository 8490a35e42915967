/** 64-bit machine words and the signed values they stand for. */
module Words {

  const MODULUS: int := 0x1_0000_0000_0000_0000
  const SIGN: int := 0x8000_0000_0000_0000

  /** An unsigned 64-bit machine word. */
  type Word = x: int | 0 <= x < MODULUS

  /** A value of the signed 64-bit type in which constants are evaluated. */
  type I64 = x: int | -SIGN <= x < SIGN

  /** Two's complement reading of a word. */
  function Signed(w: Word): (x: I64)
  {
    if w < SIGN then w else w - MODULUS
  }

  /** The word of any integer: reduction modulo 2^64. */
  function ToWord(x: int): (w: Word)
  {
    x % MODULUS
  }

  /** Reduction of any integer to the signed 64-bit range. */
  function ToI64(x: int): (r: I64)
  {
    Signed(ToWord(x))
  }

  lemma SignedToWord(x: I64)
    ensures Signed(ToWord(x)) == x
  {
    if x < 0 {
      assert (x + MODULUS) % MODULUS == x + MODULUS;
    }
  }

  lemma ToWordSigned(w: Word)
    ensures ToWord(Signed(w)) == w
  {
    if SIGN <= w {
      assert (w - MODULUS) % MODULUS == w;
    }
  }

  // ----- powers of two and remainders -----

  function Pow2(n: nat): (p: nat)
    ensures p > 0
  {
    if n == 0 then 1 else 2 * Pow2(n - 1)
  }

  lemma {:induction false} Pow2Add(m: nat, n: nat)
    ensures Pow2(m + n) == Pow2(m) * Pow2(n)
  {
    if m > 0 {
      Pow2Add(m - 1, n);
      calc {
        Pow2(m + n);
        2 * Pow2(m - 1 + n);
        2 * (Pow2(m - 1) * Pow2(n));
        Pow2(m) * Pow2(n);
      }
    }
  }

  lemma Pow2Word()
    ensures Pow2(64) == MODULUS
  {
    assert Pow2(8) == 0x100;
    Pow2Add(8, 8);
    Pow2Add(16, 16);
    Pow2Add(32, 32);
  }

  /** Congruent integers have the same remainder. */
  lemma ModShift(x: int, k: int, m: int)
    requires m > 0
    ensures (x + k * m) % m == x % m
  {
    var q, r := x / m, x % m;
    assert x + k * m == (q + k) * m + r;
    DivModUnique(x + k * m, m, q + k, r);
  }

  /** Quotient and remainder are determined by the division identity. */
  lemma DivModUnique(x: int, m: int, q: int, r: int)
    requires m > 0 && 0 <= r < m && x == q * m + r
    ensures x / m == q && x % m == r
  {
    var q', r' := x / m, x % m;
    Euclid(x, m);
    assert (q' - q) * m == q' * m - q * m;
    assert (q - q') * m == q * m - q' * m;
    if q < q' {
      MulAtLeast(q' - q, m);
    } else if q > q' {
      MulAtLeast(q - q', m);
    }
  }

  lemma Euclid(x: int, m: int)
    requires m > 0
    ensures x == (x / m) * m + x % m
  {
  }

  lemma MulAtLeast(d: int, m: int)
    requires d >= 1 && m > 0
    ensures d * m >= m
  {
  }

  lemma Regroup(q: int, m: int, r: int, b: int)
    ensures (q * m + r) * b == r * b + q * b * m
  {
  }

  lemma ModMulLeft(a: int, b: int, m: int)
    requires m > 0
    ensures (a % m * b) % m == (a * b) % m
  {
    Euclid(a, m);
    Regroup(a / m, m, a % m, b);
    ModShift(a % m * b, a / m * b, m);
  }

  /** Reducing the factors first does not change a product's remainder. */
  lemma ModMul(a: int, b: int, m: int)
    requires m > 0
    ensures (a % m * (b % m)) % m == (a * b) % m
  {
    ModMulLeft(a, b, m);
    ModMulLeft(b, a % m, m);
    assert a % m * b == b * (a % m) && a % m * (b % m) == b % m * (a % m);
  }

  // ----- bitwise operators -----

  datatype BitOp = BitAnd | BitOr | BitXor

  function Bit(op: BitOp, x: int, y: int): (b: int)
    requires x in {0, 1} && y in {0, 1}
    ensures b in {0, 1}
  {
    match op
    case BitAnd => if x == 1 && y == 1 then 1 else 0
    case BitOr => if x == 1 || y == 1 then 1 else 0
    case BitXor => if x != y then 1 else 0
  }

  /** The low n bits of a bitwise operator, from the lowest bit up. */
  function Bits(op: BitOp, a: int, b: int, n: nat): (r: int)
    ensures 0 <= r < Pow2(n)
    decreases n, op
  {
    if n == 0 then 0
    else 2 * Bits(op, a / 2, b / 2, n - 1) + Bit(op, a % 2, b % 2)
  }

  function Bitwise(op: BitOp, a: Word, b: Word): (r: Word)
  {
    Pow2Word();
    Bits(op, a, b, 64)
  }

  lemma Pow2Zero()
    ensures Pow2(0) == 1
  {
  }

  lemma BitsHead(op: BitOp, a: nat, b: nat, n: nat)
    requires n > 0
    ensures Bits(op, a, b, n) == 2 * Bits(op, a / 2, b / 2, n - 1) + Bit(op, a % 2, b % 2)
  {
  }

  lemma {:induction false} BitOfBits(op: BitOp, a: nat, b: nat, n: nat, i: nat)
    requires i < n
    ensures Bits(op, a, b, n) / Pow2(i) % 2 == Bit(op, a / Pow2(i) % 2, b / Pow2(i) % 2)
    decreases n
  {
    hide Bits, Bit, Pow2;
    var low, high := Bit(op, a % 2, b % 2), Bits(op, a / 2, b / 2, n - 1);
    BitsHead(op, a, b, n);
    if i == 0 {
      Pow2Zero();
    } else {
      ShiftDown(Bits(op, a, b, n), high, low, i);
      ShiftDown(a, a / 2, a % 2, i);
      ShiftDown(b, b / 2, b % 2, i);
      BitOfBits(op, a / 2, b / 2, n - 1, i - 1);
    }
  }

  lemma ShiftDown(x: nat, high: nat, low: nat, i: nat)
    requires i > 0 && low < 2 && x == 2 * high + low
    ensures x / Pow2(i) == high / Pow2(i - 1)
  {
    HalvedThen(x, Pow2(i - 1));
  }

  /** Dividing by twice p is halving and then dividing by p. */
  lemma HalvedThen(x: nat, p: nat)
    requires p > 0
    ensures x / (2 * p) == x / 2 / p
  {
    var q, r := x / 2 / p, x / 2 % p;
    Euclid(x / 2, p);
    assert x == q * (2 * p) + (2 * r + x % 2);
    DivModUnique(x, 2 * p, q, 2 * r + x % 2);
  }

  /** What the bitwise operators compute, bit by bit: both, one of the two or both, one of the two but not both. */
  lemma BitwiseBits(a: Word, b: Word, i: nat)
    requires i < 64
    ensures Bitwise(BitAnd, a, b) / Pow2(i) % 2 == 1 <==> a / Pow2(i) % 2 == 1 && b / Pow2(i) % 2 == 1
    ensures Bitwise(BitOr, a, b) / Pow2(i) % 2 == 1 <==> a / Pow2(i) % 2 == 1 || b / Pow2(i) % 2 == 1
    ensures Bitwise(BitXor, a, b) / Pow2(i) % 2 == 1 <==> a / Pow2(i) % 2 != b / Pow2(i) % 2
  {
    hide Bits, Pow2;
    BitOfBits(BitAnd, a, b, 64, i);
    BitOfBits(BitOr, a, b, 64, i);
    BitOfBits(BitXor, a, b, 64, i);
  }

  /** A number below 2^n is determined by its n bits. */
  lemma {:induction false} BitsDetermine(a: nat, b: nat, n: nat)
    requires a < Pow2(n) && b < Pow2(n)
    requires forall i: nat :: i < n ==> a / Pow2(i) % 2 == b / Pow2(i) % 2
    ensures a == b
  {
    if n > 0 {
      assert a / Pow2(0) % 2 == b / Pow2(0) % 2;
      forall i: nat | i < n - 1
        ensures a / 2 / Pow2(i) % 2 == b / 2 / Pow2(i) % 2
      {
        var next := i + 1;
        assert a / Pow2(next) % 2 == b / Pow2(next) % 2;
        HalvedThen(a, Pow2(i));
        HalvedThen(b, Pow2(i));
      }
      BitsDetermine(a / 2, b / 2, n - 1);
    }
  }
}
