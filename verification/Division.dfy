/** Division of signed values computed on unsigned ones: exactly when the two agree, for any width. */
module Division {
  import opened Words
  import opened Ast

  // `half` is half of the modulus: 2^63 for words.

  /** Two's complement reading. */
  function SignedOf(half: nat, x: nat): int
  {
    if x < half then x else x - 2 * half
  }

  function Rem(x: int, y: int): int
    requires y != 0
  {
    x - Quot(x, y) * y
  }

  /** When the unsigned quotient is the signed one: both not negative, or one of the cases in which the signs
      happen not to matter. */
  predicate QuotFits(half: nat, a: nat, b: nat)
  {
    b != 0 && ((a < half && b < half) || b == 1 || a == b || (a < half <= b && a + b < 2 * half))
  }

  predicate RemFits(half: nat, a: nat, b: nat)
  {
    b != 0 && ((a < half && b < half) || a == b || (a < half <= b && a + b < 2 * half)
               || (b < half <= a < 2 * half && a % b == 0 && (2 * half - a) % b == 0))
  }

  lemma Reduced(x: int, m: int)
    requires 0 < m && -m <= x < m
    ensures x % m == if x < 0 then x + m else x
  {
    if x < 0 {
      DivModUnique(x, m, -1, x + m);
    } else {
      DivModUnique(x, m, 0, x);
    }
  }

  lemma Divided(a: nat, b: nat)
    requires b > 0
    ensures 0 <= a / b <= a && 0 <= a % b < b && a == a / b * b + a % b
    ensures a < b ==> a / b == 0 && a % b == a
    ensures b <= a ==> a / b >= 1
    ensures b >= 2 ==> 2 * (a / b) <= a
    ensures b <= a < 2 * b ==> a / b == 1 && a % b == a - b
  {
    Euclid(a, b);
    var q := a / b;
    if a < b {
      DivModUnique(a, b, 0, a);
    } else if a < 2 * b {
      DivModUnique(a, b, 1, a - b);
    }
    QuotientBounds(q, b, a % b);
  }

  lemma QuotientBounds(q: int, b: nat, r: nat)
    requires b > 0 && q * b + r >= 0 && r < b
    ensures 0 <= q <= q * b + r && (b >= 2 ==> 2 * q <= q * b + r)
    ensures b <= q * b + r ==> q >= 1
  {
    assert (q + 1) * b == q * b + b;
    FactorSign(q + 1, b);
    if b >= 2 {
      assert q * b >= q * 2;
    }
    assert q >= 1 ==> q * b >= b;
  }

  lemma FactorSign(k: int, b: int)
    requires b > 0 && k * b > 0
    ensures k > 0
  {
  }

  /** The unsigned quotient is the signed quotient, reduced, if and only if `QuotFits` says so. The most
      negative value divided by -1 has no signed quotient. */
  lemma QuotExact(half: nat, a: nat, b: nat)
    requires half > 0 && a < 2 * half && 0 < b < 2 * half && !(a == half && b == 2 * half - 1)
    ensures Quot(SignedOf(half, a), SignedOf(half, b)) % (2 * half) == a / b <==> QuotFits(half, a, b)
  {
    var m := 2 * half;
    var x: int, y: int := Abs(SignedOf(half, a)), Abs(SignedOf(half, b));
    Divided(a, b);
    Divided(x, y);
    if (a < half) == (b < half) {
      Reduced(x / y, m);
    } else {
      Reduced(0 - x / y, m);
    }
  }

  /** The same for remainders, which take the sign of the dividend. */
  lemma RemExact(half: nat, a: nat, b: nat)
    requires half > 0 && a < 2 * half && 0 < b < 2 * half
    ensures Rem(SignedOf(half, a), SignedOf(half, b)) % (2 * half) == a % b <==> RemFits(half, a, b)
  {
    hide Quot;
    var m := 2 * half;
    var s, t := SignedOf(half, a), SignedOf(half, b);
    var x: int, y: int := Abs(s), Abs(t);
    var u: int, v: int := a % b, x % y;
    Divided(a, b);
    Divided(x, y);
    RemOf(s, t);
    Reduced(if s < 0 then 0 - v else v, m);
    RemCases(half, a, b, x, y, u, v);
  }

  lemma RemCases(half: nat, a: nat, b: nat, x: nat, y: nat, u: nat, v: nat)
    requires half > 0 && a < 2 * half && 0 < b < 2 * half
    requires x == (if a < half then a else 2 * half - a) && y == (if b < half then b else 2 * half - b)
    requires u == a % b && v == x % y && u < b && v < y && v <= x
    requires (a < b ==> u == a) && (b <= a < 2 * b ==> u == a - b) && (x < y ==> v == x)
    ensures (if a < half || v == 0 then v else 2 * half - v) == u <==> RemFits(half, a, b)
  {
  }

  lemma RemOf(s: int, t: int)
    requires t != 0
    ensures Rem(s, t) == if s < 0 then -(Abs(s) % Abs(t)) else Abs(s) % Abs(t)
  {
    Euclid(Abs(s), Abs(t));
    var q := Abs(s) / Abs(t);
    assert (-q) * t == -(q * t) && q * (-t) == -(q * t);
  }
}
