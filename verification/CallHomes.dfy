/** In a procedure's code every temporary lives in one call, and calls name the results they set. */
module CallHomes {
  import opened Words
  import opened Ast
  import opened Quads
  import opened Emit
  import opened ExprSim
  import opened StmtSim
  import opened Labels
  import opened Procedure
  import opened Liveness
  import opened Nests
  import opened RegAlloc
  import opened Calls
  import opened CallSim
  import opened CallBalance

  /** The temporaries the quad mentions have numbers in this range and live where it stands. */
  ghost predicate QuadHoused(p: Code, k: nat, home: Spots, lo: nat, hi: nat)
    requires k < |p|
  {
    forall t: nat :: Mentions(p[k], ATemp(t)) ==> lo < t <= hi && home(t) == SpotOf(p, k, t)
  }

  /** A call sets the result its opening names. */
  ghost predicate Tidy(p: Code, k: nat)
    requires k < |p|
  {
    && (IsCall(p[k]) ==> OpenAt(p, k) != [] && OpenAt(p, k)[|OpenAt(p, k)| - 1].res == p[k].res
                         && (p[k].arg1.ATemp? ==> p[k].arg1 != p[k].res) && !p[k].arg2.ATemp?
                         && (p[k].op == PCall ==> !p[k].res.ATemp?))
    && (IsHint(p[k]) ==> !p[k].arg1.ATemp? && !p[k].arg2.ATemp?)
  }

  predicate PassesTemp(q: Quad, t: nat)
  {
    q.Quad? && q.op == Arg && q.arg1 == ATemp(t)
  }

  ghost predicate NotLater(p: Code, k: nat, j: nat, t: nat)
    requires j <= |p|
  {
    forall m: nat :: k < m < j ==> !Mentions(p[m], ATemp(t))
  }

  /** A stretch that closes the calls it opens, with the temporaries lo + 1 to hi. */
  ghost predicate Stretch(p: Code, i: nat, j: nat, home: Spots, lo: nat, hi: nat)
  {
    && i <= j <= |p| && lo <= hi && OpenAt(p, j) == OpenAt(p, i) && Front(ArgsAt(p, j)) == Front(ArgsAt(p, i))
    && (forall k: nat :: i <= k < j ==> QuadHoused(p, k, home, lo, hi) && Tidy(p, k))
    && (forall k: nat, t: nat :: i <= k < j && PassesTemp(p[k], t) ==> NotLater(p, k, j, t))
  }

  /** One that passes no argument to the calls around it and leaves `outs` for what follows. */
  ghost predicate Block(p: Code, i: nat, j: nat, home: Spots, lo: nat, hi: nat, outs: set<nat>)
  {
    && i <= j <= |p| && lo <= hi && SpotAt(p, j) == SpotAt(p, i)
    && (forall t :: t in outs ==> lo < t <= hi && home(t) == SpotAt(p, i))
    && (forall k: nat :: i <= k < j ==> QuadHoused(p, k, home, lo, hi) && Tidy(p, k))
    && (forall k: nat, t: nat :: i <= k < j && PassesTemp(p[k], t) ==> t !in outs && NotLater(p, k, j, t))
  }

  lemma NoBlock(p: Code, i: nat, home: Spots, lo: nat)
    requires i <= |p|
    ensures Block(p, i, i, home, lo, lo, {})
  {
  }

  lemma OtherHomes(p: Code, i: nat, j: nat, home: Spots, home': Spots, lo: nat, hi: nat, outs: set<nat>)
    requires Block(p, i, j, home, lo, hi, outs) && forall t: nat :: t <= hi ==> home'(t) == home(t)
    ensures Block(p, i, j, home', lo, hi, outs)
  {
    hide SpotAt, SpotOf;
    forall k: nat | i <= k < j
      ensures QuadHoused(p, k, home', lo, hi)
    {
      assert QuadHoused(p, k, home, lo, hi);
    }
  }

  lemma FewerOuts(p: Code, i: nat, j: nat, home: Spots, lo: nat, hi: nat, outs: set<nat>, outs': set<nat>)
    requires Block(p, i, j, home, lo, hi, outs) && outs' <= outs
    ensures Block(p, i, j, home, lo, hi, outs')
  {
    hide QuadHoused, Tidy, NotLater;
  }

  /** One stretch after another; the second uses new numbers. */
  lemma JoinBlocks(p: Code, i: nat, j: nat, k: nat, home: Spots, lo: nat, mid: nat, hi: nat, outs1: set<nat>,
                   outs2: set<nat>)
    requires Block(p, i, j, home, lo, mid, outs1) && Block(p, j, k, home, mid, hi, outs2)
    ensures Block(p, i, k, home, lo, hi, outs1 + outs2)
  {
    hide SpotAt, SpotOf, Tidy;
    forall m: nat | i <= m < k
      ensures QuadHoused(p, m, home, lo, hi) && Tidy(p, m)
    {
      assert QuadHoused(p, m, home, lo, mid) || QuadHoused(p, m, home, mid, hi);
    }
    forall m: nat, t: nat | i <= m < k && PassesTemp(p[m], t)
      ensures t !in outs1 + outs2 && NotLater(p, m, k, t)
    {
      assert Mentions(p[m], ATemp(t));
      if m < j {
        assert QuadHoused(p, m, home, lo, mid) && NotLater(p, m, j, t);
        forall n: nat | m < n < k
          ensures !Mentions(p[n], ATemp(t))
        {
          if n >= j {
            assert QuadHoused(p, n, home, mid, hi);
          }
        }
      } else {
        assert QuadHoused(p, m, home, mid, hi) && NotLater(p, m, k, t);
      }
    }
  }

  function Housing(home: Spots, t: nat, o: Spot): Spots
  {
    (u: nat) => if u == t then o else home(u)
  }

  /** The next number. */
  lemma NewTemp(p: Code, i: nat, j: nat, home: Spots, lo: nat, hi: nat, outs: set<nat>) returns (home': Spots)
    requires Block(p, i, j, home, lo, hi, outs)
    ensures Block(p, i, j, home', lo, hi + 1, outs + {hi + 1}) && forall t: nat :: t <= hi ==> home'(t) == home(t)
  {
    hide SpotAt, SpotOf, Tidy;
    var next := hi + 1;
    home' := Housing(home, next, SpotAt(p, i));
    forall k: nat | i <= k < j
      ensures QuadHoused(p, k, home', lo, next)
    {
      assert QuadHoused(p, k, home, lo, hi);
    }
    forall k: nat, t: nat | i <= k < j && PassesTemp(p[k], t)
      ensures t !in outs + {next}
    {
      assert QuadHoused(p, k, home, lo, hi) && Mentions(p[k], ATemp(t));
    }
  }

  /** One more quad over what is left. */
  lemma AddQuad(p: Code, i: nat, j: nat, home: Spots, lo: nat, hi: nat, outs: set<nat>, outs': set<nat>)
    requires Block(p, i, j, home, lo, hi, outs) && j < |p| && outs' <= outs && !IsHint(p[j]) && !NeedsCall(p[j])
    requires forall t: nat :: Mentions(p[j], ATemp(t)) ==> t in outs
    ensures Block(p, i, j + 1, home, lo, hi, outs')
  {
    hide QuadHoused;
    assert QuadHoused(p, j, home, lo, hi) by { QuadAtHome(p, i, j, home, lo, hi, outs); }
    forall k: nat, t: nat | i <= k < j + 1 && PassesTemp(p[k], t)
      ensures NotLater(p, k, j + 1, t)
    {
      if k < j {
        assert NotLater(p, k, j, t);
      }
    }
  }

  lemma QuadAtHome(p: Code, i: nat, j: nat, home: Spots, lo: nat, hi: nat, outs: set<nat>)
    requires Block(p, i, j, home, lo, hi, outs) && j < |p| && !IsCall(p[j])
    requires forall t: nat :: Mentions(p[j], ATemp(t)) ==> t in outs
    ensures QuadHoused(p, j, home, lo, hi)
  {
  }

  // ----- expressions -----

  ghost predicate ExprBlocked(p: Code, pos: nat, c: nat, E: Emitted, home: Spots)
  {
    Block(p, pos, pos + |E.code|, home, c, E.cgt, TempOf(E.res))
  }

  ghost predicate Extends(c: nat, home: Spots, home': Spots)
  {
    forall t: nat :: t <= c ==> home'(t) == home(t)
  }

  /** The quads of the settling tail mention its result only. */
  lemma AddSettle(p: Code, i: nat, j: nat, home: Spots, lo: nat, hi: nat, outs: set<nat>, r: nat, v: Word, here: nat,
                  next: nat)
    requires v <= 1 && UniqueLabels(p) && Within(p, j, Settle(ATemp(r), v, here, next))
    requires Block(p, i, j, home, lo, hi, outs) && r in outs
    ensures Block(p, i, j + 5, home, lo, hi, {r})
  {
    hide Within, Block, UniqueLabels, FindLabel;
    SettleQuads(p, j, r, v, here, next);
    AddQuad(p, i, j, home, lo, hi, outs, outs) ;
    AddQuad(p, i, j + 1, home, lo, hi, outs, outs);
    AddQuad(p, i, j + 2, home, lo, hi, outs, outs);
    AddQuad(p, i, j + 3, home, lo, hi, outs, outs);
    AddQuad(p, i, j + 4, home, lo, hi, outs, {r});
  }

  lemma SettleBlocked(p: Code, pos: nat, body: Code, c: nat, cgt: nat, l: nat, lab: nat, v: Word, outs: set<nat>,
                      home: Spots)
    returns (home': Spots)
    requires v <= 1 && UniqueLabels(p) && Within(p, pos, SettleAfter(body, cgt, l, lab, v).code)
    requires Block(p, pos, pos + |body|, home, c, cgt, outs)
    ensures ExprBlocked(p, pos, c, SettleAfter(body, cgt, l, lab, v), home') && Extends(cgt, home, home')
  {
    hide Within, Block, UniqueLabels;
    WithinSplit(p, pos, body, Settle(ATemp(cgt + 1), v, l + 1, l + 2));
    home' := NewTemp(p, pos, pos + |body|, home, c, cgt, outs);
    AddSettle(p, pos, pos + |body|, home', c, cgt + 1, outs + {cgt + 1}, cgt + 1, v, l + 1, l + 2);
    assert TempOf(ATemp(cgt + 1)) == {cgt + 1};
  }

  /** A quad over the results of a body. */
  lemma AddLast(p: Code, pos: nat, body: Code, q: Quad, home: Spots, lo: nat, hi: nat, outs: set<nat>, outs': set<nat>)
    requires Within(p, pos, body + [q]) && Block(p, pos, pos + |body|, home, lo, hi, outs) && outs' <= outs
    requires !IsHint(q) && !IsCall(q) && (q.Quad? ==> q.op != Arg)
    requires forall t: nat :: Mentions(q, ATemp(t)) ==> t in outs
    ensures Block(p, pos, pos + |body| + 1, home, lo, hi, outs')
  {
    hide Within, Block;
    LastQuad(p, pos, body, q);
    AddQuad(p, pos, pos + |body|, home, lo, hi, outs, outs');
  }

  lemma FreshBlocked(p: Code, pos: nat, op: Op, c: nat, A: Emitted, home: Spots) returns (home': Spots)
    requires Within(p, pos, FreshCode(op, A).code) && ExprBlocked(p, pos, c, A, home)
    requires op.OpCast? || op == Copy || op == OpDeref
    ensures ExprBlocked(p, pos, c, FreshCode(op, A), home') && Extends(A.cgt, home, home')
  {
    hide Within, Block;
    home' := NewTemp(p, pos, pos + |A.code|, home, c, A.cgt, TempOf(A.res));
    AddLast(p, pos, A.code, Q1(op, ATemp(A.cgt + 1), A.res), home', c, A.cgt + 1, TempOf(A.res) + {A.cgt + 1}, {A.cgt + 1});
    assert TempOf(ATemp(A.cgt + 1)) == {A.cgt + 1};
  }

  lemma SingleBlocked(p: Code, pos: nat, q: Quad, c: nat, l: nat, home: Spots) returns (home': Spots)
    requires Within(p, pos, [q]) && q.Quad? && (q.op == Copy || q.op == OpRef) && q.res == ATemp(c + 1)
    requires !q.arg1.ATemp? && !q.arg2.ATemp?
    ensures ExprBlocked(p, pos, c, Emitted([q], ATemp(c + 1), c + 1, l), home') && Extends(c, home, home')
  {
    hide Within, Block;
    WithinBound(p, pos, [q]);
    NoBlock(p, pos, home, c);
    home' := NewTemp(p, pos, pos, home, c, c, {});
    assert [] + [q] == [q];
    AddLast(p, pos, [], q, home', c, c + 1, {} + {c + 1}, {c + 1});
    assert TempOf(ATemp(c + 1)) == {c + 1};
  }

  /** Two operands, the second after the first. */
  lemma BothBlocked(p: Code, pos: nat, c: nat, A: Emitted, B: Emitted, home: Spots, home': Spots)
    requires ExprBlocked(p, pos, c, A, home) && ExprBlocked(p, pos + |A.code|, A.cgt, B, home')
    requires Extends(A.cgt, home, home')
    ensures Block(p, pos, pos + |Both(A, B)|, home', c, B.cgt, TempOf(A.res) + TempOf(B.res))
  {
    hide Block;
    OtherHomes(p, pos, pos + |A.code|, home, home', c, A.cgt, TempOf(A.res));
    JoinBlocks(p, pos, pos + |A.code|, pos + |A.code| + |B.code|, home', c, A.cgt, B.cgt, TempOf(A.res), TempOf(B.res));
  }

  /** Constructs that run both operands and then a quad or a test. */
  lemma StrictBlocked(p: Code, pos: nat, e: Expr, c: nat, A: Emitted, B: Emitted, l: nat, home: Spots, home1: Spots)
    returns (home': Spots)
    requires e.Arith? || e.Relate? || e.Assign? || e.Comma?
    requires ExprBlocked(p, pos, c, A, home) && ExprBlocked(p, pos + |A.code|, A.cgt, B, home1)
    requires Extends(A.cgt, home, home1)
    requires UniqueLabels(p) && Within(p, pos, StrictCode(e, A, B, l).code) && c <= A.cgt <= B.cgt
    ensures ExprBlocked(p, pos, c, StrictCode(e, A, B, l), home') && Extends(B.cgt, home1, home')
  {
    hide Within, Block, UniqueLabels;
    var both, outs := Both(A, B), TempOf(A.res) + TempOf(B.res);
    BothBlocked(p, pos, c, A, B, home, home1);
    match e
    case Arith(k, _, _) =>
      home' := home1;
      AddLast(p, pos, both, Quad(Alu(AluOf(k)), A.res, A.res, B.res), home', c, B.cgt, outs, TempOf(A.res));
    case Relate(k, _, _) =>
      var q := Quad(CJump(JumpOf(k)), ALabel(l + 1), A.res, B.res);
      PrefixWithin(p, pos, both + [q], StrictCode(e, A, B, l).code);
      AddLast(p, pos, both, q, home1, c, B.cgt, outs, {});
      home' := SettleBlocked(p, pos, both + [q], c, B.cgt, l, B.lab, 0, {}, home1);
    case Assign(_, _) =>
      var put := Q1(DerefCopy, A.res, B.res);
      PrefixWithin(p, pos, both + [put], StrictCode(e, A, B, l).code);
      AddLast(p, pos, both, put, home1, c, B.cgt, outs, TempOf(B.res));
      home' := FreshBlocked(p, pos, Copy, c, B.(code := both + [put]), home1);
    case Comma(_, _) =>
      FewerOuts(p, pos, pos + |both|, home1, c, B.cgt, outs, TempOf(B.res));
      home' := FreshBlocked(p, pos, Copy, c, B.(code := both), home1);
  }

  lemma LogicBlocked(p: Code, pos: nat, isOr: bool, c: nat, A: Emitted, B: Emitted, l: nat, home: Spots, home1: Spots)
    returns (home': Spots)
    requires UniqueLabels(p) && Within(p, pos, LogicCode(isOr, A, B, l).code) && c <= A.cgt <= B.cgt
    requires ExprBlocked(p, pos, c, A, home) && ExprBlocked(p, pos + |A.code| + 1, A.cgt, B, home1)
    requires Extends(A.cgt, home, home1)
    ensures ExprBlocked(p, pos, c, LogicCode(isOr, A, B, l), home') && Extends(B.cgt, home1, home')
  {
    hide Within, Block, UniqueLabels;
    var j1, j2 := LogicJump(isOr, l + 1, A.res), LogicJump(isOr, l + 1, B.res);
    var v: Word := if isOr then 0 else 1;
    var first, body := A.code + [j1], A.code + [j1] + B.code + [j2];
    var at := pos + |first|;
    PrefixWithin(p, pos, first, LogicCode(isOr, A, B, l).code);
    PrefixWithin(p, pos, body, LogicCode(isOr, A, B, l).code);
    AddLast(p, pos, A.code, j1, home, c, A.cgt, TempOf(A.res), {});
    OtherHomes(p, pos, at, home, home1, c, A.cgt, {});
    JoinBlocks(p, pos, at, at + |B.code|, home1, c, A.cgt, B.cgt, {}, TempOf(B.res));
    AddLast(p, pos, first + B.code, j2, home1, c, B.cgt, {} + TempOf(B.res), {});
    home' := SettleBlocked(p, pos, body, c, B.cgt, l, B.lab, v, {}, home1);
  }

  lemma {:induction false} ExprBlock(p: Code, pos: nat, e: Expr, c: nat, l: nat, home: Spots) returns (home': Spots)
    requires UniqueLabels(p) && Within(p, pos, ExprCode(e, c, l).code)
    ensures ExprBlocked(p, pos, c, ExprCode(e, c, l), home') && Extends(c, home, home')
    decreases e, 1
  {
    hide Within, UniqueLabels, ExprCode, ArgsCode, PlaceCode, ExprBlocked, Extends;
    CodeParts(e, c, l);
    match e
    case Const(n) => home' := SingleBlocked(p, pos, CopyConst(ATemp(c + 1), ToWord(n)), c, l, home);
    case Ident(x, isFn) => home' := SingleBlocked(p, pos, Q1(Copy, ATemp(c + 1), AName(x, isFn)), c, l, home);
    case Not(a) =>
      var A := ExprCode(a, c, l + 2);
      var home1 := PrefixBlock(p, pos, a, c, l + 2, ExprCode(e, c, l).code, home);
      home' := NotBlocked(p, pos, c, A, l, home1);
      ExtendsMore(c, A.cgt, home, home1, home');
    case Unary(k, a) =>
      home' := PrefixBlock(p, pos, a, c, l, ExprCode(e, c, l).code, home);
      UnaryBlocked(p, pos, k, c, ExprCode(a, c, l), home');
    case Cast(t, a) =>
      var A := ExprCode(a, c, l);
      var home1 := PrefixBlock(p, pos, a, c, l, ExprCode(e, c, l).code, home);
      home' := FreshBlocked(p, pos, OpCast(t), c, A, home1);
      ExtendsMore(c, A.cgt, home, home1, home');
    case Ref(a) => home' := PlaceBlock(p, pos, a, c, l, home);
    case Deref(_) => home' := DerefBlock(p, pos, e, c, l, home);
    case Ternary(_, _, _) => home' := TernaryBlock(p, pos, e, c, l, home);
    case Call(f, args, isVoid) => home' := CallBlock(p, pos, e, c, l, home);
    case _ => home' := InfixBlock(p, pos, e, c, l, home);
  }

  lemma {:induction false} DerefBlock(p: Code, pos: nat, e: Expr, c: nat, l: nat, home: Spots) returns (home': Spots)
    requires e.Deref? && UniqueLabels(p) && Within(p, pos, ExprCode(e, c, l).code)
    ensures ExprBlocked(p, pos, c, ExprCode(e, c, l), home') && Extends(c, home, home')
    decreases e, 0
  {
    hide Within, UniqueLabels, ExprCode, ExprBlocked, Extends;
    CodeParts(e, c, l);
    var A := ExprCode(e.arg, c, l);
    var home1 := PrefixBlock(p, pos, e.arg, c, l, ExprCode(e, c, l).code, home);
    PrefixWithin(p, pos, FreshCode(Copy, A).code, ExprCode(e, c, l).code);
    var home2 := FreshBlocked(p, pos, Copy, c, A, home1);
    home' := FreshBlocked(p, pos, OpDeref, c, FreshCode(Copy, A), home2);
    ExtendsMore(c, A.cgt, home, home1, home2);
    ExtendsMore(c, A.cgt + 1, home, home2, home');
  }

  lemma {:induction false} TernaryBlock(p: Code, pos: nat, e: Expr, c: nat, l: nat, home: Spots) returns (home': Spots)
    requires e.Ternary? && UniqueLabels(p) && Within(p, pos, ExprCode(e, c, l).code)
    ensures ExprBlocked(p, pos, c, ExprCode(e, c, l), home') && Extends(c, home, home')
    decreases e, 0
  {
    hide Within, UniqueLabels, ExprCode, ExprBlocked, Extends;
    CodeParts(e, c, l);
    var X := ExprCode(e.cond, c, l + 2);
    var N := ExprCode(e.no, X.cgt + 1, X.lab);
    var Y := ExprCode(e.yes, N.cgt, N.lab);
    TernaryLayout(p, pos, X, N, Y, l);
    var home1 := ExprBlock(p, pos, e.cond, c, l + 2, home);
    var home2 := TernaryHead(p, pos, c, X, l, home1);
    var home3 := ExprBlock(p, pos + |X.code| + 1, e.no, X.cgt + 1, X.lab, home2);
    home' := ExprBlock(p, pos + |X.code| + 1 + |N.code| + 3, e.yes, N.cgt, N.lab, home3);
    TernaryBlocked(p, pos, c, X, N, Y, l, home2, home3, home');
    ExtendsMore(c, X.cgt, home, home1, home2);
    ExtendsMore(c, X.cgt + 1, home, home2, home3);
    ExtendsMore(c, N.cgt, home, home3, home');
  }

  lemma ExtendsMore(c: nat, d: nat, home: Spots, home1: Spots, home2: Spots)
    requires c <= d && Extends(c, home, home1) && Extends(d, home1, home2)
    ensures Extends(c, home, home2)
  {
  }

  lemma NotBlocked(p: Code, pos: nat, c: nat, A: Emitted, l: nat, home: Spots) returns (home': Spots)
    requires UniqueLabels(p) && Within(p, pos, NotCode(A, l).code) && ExprBlocked(p, pos, c, A, home)
    ensures ExprBlocked(p, pos, c, NotCode(A, l), home') && Extends(A.cgt, home, home')
  {
    hide Within, UniqueLabels, Block;
    var q := JumpZero(l + 1, A.res);
    PrefixWithin(p, pos, A.code + [q], NotCode(A, l).code);
    AddLast(p, pos, A.code, q, home, c, A.cgt, TempOf(A.res), {});
    home' := SettleBlocked(p, pos, A.code + [q], c, A.cgt, l, A.lab, 0, {}, home);
  }

  lemma UnaryBlocked(p: Code, pos: nat, k: UnaryKind, c: nat, A: Emitted, home: Spots)
    requires Within(p, pos, UnaryCode(k, A).code) && ExprBlocked(p, pos, c, A, home)
    ensures ExprBlocked(p, pos, c, UnaryCode(k, A), home)
  {
    hide Within, Block;
    AddLast(p, pos, A.code, Q1(Un(UnOf(k)), A.res, A.res), home, c, A.cgt, TempOf(A.res), TempOf(A.res));
  }

  lemma {:induction false} PrefixBlock(p: Code, pos: nat, a: Expr, c: nat, l: nat, whole: Code, home: Spots)
    returns (home': Spots)
    requires UniqueLabels(p) && Within(p, pos, whole) && ExprCode(a, c, l).code <= whole
    ensures ExprBlocked(p, pos, c, ExprCode(a, c, l), home') && Extends(c, home, home')
    decreases a, 2
  {
    hide Within, UniqueLabels, ExprBlocked, ExprCode, Extends;
    PrefixWithin(p, pos, ExprCode(a, c, l).code, whole);
    home' := ExprBlock(p, pos, a, c, l, home);
  }

  /** The condition of a ternary, its jump, and the number of the common result. */
  lemma TernaryHead(p: Code, pos: nat, c: nat, X: Emitted, l: nat, home: Spots) returns (home': Spots)
    requires ExprBlocked(p, pos, c, X, home) && pos + |X.code| < |p| && p[pos + |X.code|] == JumpTrue(l + 1, X.res)
    ensures Block(p, pos, pos + |X.code| + 1, home', c, X.cgt + 1, {X.cgt + 1}) && Extends(X.cgt, home, home')
  {
    hide Block;
    var at := pos + |X.code|;
    AddQuad(p, pos, at, home, c, X.cgt, TempOf(X.res), {});
    home' := NewTemp(p, pos, at + 1, home, c, X.cgt, {});
    assert {} + {X.cgt + 1} == {X.cgt + 1};
  }

  lemma TernaryBlocked(p: Code, pos: nat, c: nat, X: Emitted, N: Emitted, Y: Emitted, l: nat, home: Spots,
                       home1: Spots, home': Spots)
    requires UniqueLabels(p) && Within(p, pos, TernaryCode(X, N, Y, l).code)
    requires Block(p, pos, pos + |X.code| + 1, home, c, X.cgt + 1, {X.cgt + 1})
    requires var at := pos + |X.code| + 1;
             ExprBlocked(p, at, X.cgt + 1, N, home1) && ExprBlocked(p, at + |N.code| + 3, N.cgt, Y, home')
    requires Extends(X.cgt + 1, home, home1) && Extends(N.cgt, home1, home') && X.cgt + 1 <= N.cgt
    ensures ExprBlocked(p, pos, c, TernaryCode(X, N, Y, l), home')
  {
    hide Within, UniqueLabels, Block, FindLabel;
    TernaryLayout(p, pos, X, N, Y, l);
    var r := X.cgt + 1;
    var at := pos + |X.code| + 1;
    var i := at + |N.code|;
    var j := i + 3 + |Y.code|;
    OtherHomes(p, pos, at, home, home', c, r, {r});
    OtherHomes(p, at, i, home1, home', r, N.cgt, TempOf(N.res));
    JoinBlocks(p, pos, at, i, home', c, r, N.cgt, {r}, TempOf(N.res));
    AddQuad(p, pos, i, home', c, N.cgt, {r} + TempOf(N.res), {r});
    AddQuad(p, pos, i + 1, home', c, N.cgt, {r}, {r});
    AddQuad(p, pos, i + 2, home', c, N.cgt, {r}, {r});
    JoinBlocks(p, pos, i + 3, j, home', c, N.cgt, Y.cgt, {r}, TempOf(Y.res));
    AddQuad(p, pos, j, home', c, Y.cgt, {r} + TempOf(Y.res), {r});
    AddQuad(p, pos, j + 1, home', c, Y.cgt, {r}, {r});
    assert TempOf(ATemp(r)) == {r};
  }

  lemma {:induction false} InfixBlock(p: Code, pos: nat, e: Expr, c: nat, l: nat, home: Spots) returns (home': Spots)
    requires e.Arith? || e.Relate? || e.Or? || e.And? || e.Assign? || e.Comma?
    requires UniqueLabels(p) && Within(p, pos, ExprCode(e, c, l).code)
    ensures ExprBlocked(p, pos, c, ExprCode(e, c, l), home') && Extends(c, home, home')
    decreases e, 0
  {
    hide Within, UniqueLabels, ExprCode, ExprBlocked, Extends;
    CodeParts(e, c, l);
    var logic := e.Or? || e.And?;
    var l' := if e.Relate? || logic then l + 2 else l;
    var A := if e.Assign? then PlaceCode(e.left, c, l) else ExprCode(e.left, c, l');
    var B := ExprCode(e.right, A.cgt, A.lab);
    var home1, home2;
    if logic {
      LogicWithin(p, pos, e.Or?, A, B, l);
      home1 := ExprBlock(p, pos, e.left, c, l', home);
      home2 := ExprBlock(p, pos + |A.code| + 1, e.right, A.cgt, A.lab, home1);
      home' := LogicBlocked(p, pos, e.Or?, c, A, B, l, home1, home2);
    } else {
      InfixCode(e, c, l);
      PairWithin(p, pos, A, B, ExprCode(e, c, l).code);
      if e.Assign? {
        home1 := PlaceBlock(p, pos, e.left, c, l, home);
      } else {
        home1 := ExprBlock(p, pos, e.left, c, l', home);
      }
      home2 := ExprBlock(p, pos + |A.code|, e.right, A.cgt, A.lab, home1);
      home' := StrictBlocked(p, pos, e, c, A, B, l, home1, home2);
    }
    ExtendsMore(c, A.cgt, home, home1, home2);
    ExtendsMore(c, B.cgt, home, home2, home');
  }

  lemma {:induction false} PlaceBlock(p: Code, pos: nat, e: Expr, c: nat, l: nat, home: Spots) returns (home': Spots)
    requires UniqueLabels(p) && Within(p, pos, PlaceCode(e, c, l).code)
    ensures ExprBlocked(p, pos, c, PlaceCode(e, c, l), home') && Extends(c, home, home')
    decreases e, 2
  {
    hide UniqueLabels, Block;
    match e
    case Ident(x, isFn) => home' := SingleBlocked(p, pos, Q1(OpRef, ATemp(c + 1), AName(x, isFn)), c, l, home);
    case Deref(a) =>
      var home1 := PrefixBlock(p, pos, a, c, l, PlaceCode(e, c, l).code, home);
      home' := FreshBlocked(p, pos, Copy, c, ExprCode(a, c, l), home1);
    case Call(_, _, _) => home' := ExprBlock(p, pos, e, c, l, home);
    case _ =>
      home' := home;
      NoBlock(p, pos, home, c);
  }

  // ----- calls -----

  lemma NoStretch(p: Code, i: nat, home: Spots, lo: nat)
    requires i <= |p|
    ensures Stretch(p, i, i, home, lo, lo)
  {
  }

  /** The quad that passes what a block leaves. */
  lemma AddArg(p: Code, i: nat, j: nat, home: Spots, lo: nat, hi: nat, outs: set<nat>)
    requires Block(p, i, j, home, lo, hi, outs) && j < |p| && IsArg(p[j])
    requires forall t: nat :: Mentions(p[j], ATemp(t)) ==> t in outs
    ensures Stretch(p, i, j + 1, home, lo, hi)
  {
    hide QuadHoused;
    assert QuadHoused(p, j, home, lo, hi) by { QuadAtHome(p, i, j, home, lo, hi, outs); }
    ArgNests(p, j);
    forall k: nat, t: nat | i <= k < j + 1 && PassesTemp(p[k], t)
      ensures NotLater(p, k, j + 1, t)
    {
      if k < j {
        assert NotLater(p, k, j, t);
      }
    }
  }

  lemma ArgNests(p: Code, j: nat)
    requires j < |p| && IsArg(p[j])
    ensures OpenAt(p, j + 1) == OpenAt(p, j) && Front(ArgsAt(p, j + 1)) == Front(ArgsAt(p, j))
  {
  }

  /** The temporaries of the second stretch are new. */
  lemma JoinStretches(p: Code, i: nat, j: nat, k: nat, home: Spots, home': Spots, lo: nat, mid: nat, hi: nat)
    requires Stretch(p, i, j, home, lo, mid) && Stretch(p, j, k, home', mid, hi) && Extends(mid, home, home')
    ensures Stretch(p, i, k, home', lo, hi)
  {
    hide OpenAt, ArgsAt, SpotOf, Tidy;
    forall m: nat | i <= m < k
      ensures QuadHoused(p, m, home', lo, hi) && Tidy(p, m)
      ensures m < j ==> QuadHoused(p, m, home, lo, mid)
    {
      assert if m < j then QuadHoused(p, m, home, lo, mid) else QuadHoused(p, m, home', mid, hi);
    }
    forall m: nat, t: nat | i <= m < k && PassesTemp(p[m], t)
      ensures NotLater(p, m, k, t)
    {
      assert Mentions(p[m], ATemp(t));
      if m < j {
        assert NotLater(p, m, j, t) && QuadHoused(p, m, home, lo, mid);
        PassedNumber(p, m, home, lo, mid, t);
        forall n: nat | m < n < k
          ensures !Mentions(p[n], ATemp(t))
        {
          assert n >= j ==> QuadHoused(p, n, home', mid, hi);
        }
      }
    }
  }

  lemma {:induction false} ArgsBlock(p: Code, pos: nat, args: ExprList, c: nat, l: nat, home: Spots)
    returns (home': Spots)
    requires UniqueLabels(p) && Within(p, pos, ArgsCode(args, c, l).code)
    ensures var T := ArgsCode(args, c, l); Stretch(p, pos, pos + |T.code|, home', c, T.cgt) && Extends(c, home, home')
    decreases args, 0
  {
    hide UniqueLabels, ExprCode, ArgsCode, Within, Block, Stretch, Extends;
    ArgsParts(args, c, l);
    if args.ECons? {
      var A := ExprCode(args.head, c, l);
      var T := ArgsCode(args.tail, A.cgt, A.lab);
      var q := Q1(Arg, ANone, A.res);
      var at := pos + |A.code|;
      WithinSplit(p, pos, A.code + [q], T.code);
      LastQuad(p, pos, A.code, q);
      var home1 := PrefixBlock(p, pos, args.head, c, l, A.code + [q], home);
      AddArg(p, pos, at, home1, c, A.cgt, TempOf(A.res));
      home' := ArgsBlock(p, at + 1, args.tail, A.cgt, A.lab, home1);
      JoinStretches(p, pos, at + 1, at + 1 + |T.code|, home1, home', c, A.cgt, T.cgt);
      ExtendsMore(c, A.cgt, home, home1, home');
    } else {
      WithinBound(p, pos, []);
      home' := home;
      NoStretch(p, pos, home, c);
      ExtendsSelf(c, home);
    }
  }

  lemma ExtendsSelf(c: nat, home: Spots)
    ensures Extends(c, home, home)
  {
  }

  /** Stretches that leave nothing. */
  lemma JoinSame(p: Code, i: nat, j: nat, k: nat, home: Spots, home': Spots, lo: nat, mid: nat, hi: nat)
    requires Block(p, i, j, home, lo, mid, {}) && Block(p, j, k, home', mid, hi, {}) && Extends(mid, home, home')
    ensures Block(p, i, k, home', lo, hi, {})
  {
    hide Block;
    OtherHomes(p, i, j, home, home', lo, mid, {});
    JoinBlocks(p, i, j, k, home', lo, mid, hi, {}, {});
    var none: set<nat> := {};
    assert none + none == none;
  }

  lemma {:induction false} CallBlock(p: Code, pos: nat, e: Expr, c: nat, l: nat, home: Spots) returns (home': Spots)
    requires e.Call? && UniqueLabels(p) && Within(p, pos, ExprCode(e, c, l).code)
    ensures ExprBlocked(p, pos, c, ExprCode(e, c, l), home') && Extends(c, home, home')
    decreases e, 0
  {
    hide Within, UniqueLabels, ExprCode, ArgsCode, ExprBlocked, Extends, Block, Stretch, Filled;
    CodeParts(e, c, l);
    var A := ArgsCode(e.args, c, l);
    var F := ExprCode(e.callee, A.cgt, A.lab);
    CallWithin(p, pos, A, F, e.isVoid, Count(e.args));
    var home1 := ArgsBlock(p, pos + 1, e.args, c, l, home);
    var home2 := ExprBlock(p, pos + 1 + |A.code|, e.callee, A.cgt, A.lab, home1);
    WithinBound(p, pos, ExprCode(e, c, l).code);
    InsideCall(p, pos, c, A, F, home1, home2);
    home' := Housing(home2, F.cgt + 1, SpotAt(p, pos));
    CallBlocked(p, pos, c, A, F, e.isVoid, Count(e.args), home2);
    ExtendsMore(c, A.cgt, home, home1, home2);
    HousingExtends(F.cgt, home2, SpotAt(p, pos));
    ExtendsMore(c, F.cgt, home, home2, home');
  }

  lemma HousingExtends(c: nat, home: Spots, o: Spot)
    ensures Extends(c, home, Housing(home, c + 1, o))
  {
  }

  /** A stretch, and temporaries left at its end. */
  ghost predicate Filled(p: Code, i: nat, j: nat, home: Spots, lo: nat, hi: nat, outs: set<nat>)
  {
    && Stretch(p, i, j, home, lo, hi)
    && (forall t :: t in outs ==> lo < t <= hi && home(t) == SpotAt(p, j))
    && (forall k: nat, t: nat :: i <= k < j && PassesTemp(p[k], t) ==> t !in outs)
  }

  lemma BlockStretch(p: Code, i: nat, j: nat, home: Spots, lo: nat, hi: nat, outs: set<nat>)
    requires Block(p, i, j, home, lo, hi, outs)
    ensures Stretch(p, i, j, home, lo, hi)
  {
    hide QuadHoused, Tidy, NotLater;
  }

  lemma InsideCall(p: Code, pos: nat, c: nat, A: Emitted, F: Emitted, home: Spots, home': Spots)
    requires Stretch(p, pos + 1, pos + 1 + |A.code|, home, c, A.cgt)
    requires ExprBlocked(p, pos + 1 + |A.code|, A.cgt, F, home')
    requires Extends(A.cgt, home, home')
    ensures Filled(p, pos + 1, pos + 1 + |A.code| + |F.code|, home', c, F.cgt, TempOf(F.res))
  {
    hide QuadHoused, Tidy, NotLater, SpotAt, OpenAt, ArgsAt;
    var at := pos + 1 + |A.code|;
    var end := at + |F.code|;
    BlockStretch(p, at, end, home', A.cgt, F.cgt, TempOf(F.res));
    JoinStretches(p, pos + 1, at, end, home, home', c, A.cgt, F.cgt);
    forall k: nat, t: nat | pos + 1 <= k < end && PassesTemp(p[k], t)
      ensures t !in TempOf(F.res)
    {
      if k < at {
        assert QuadHoused(p, k, home, c, A.cgt);
        PassedNumber(p, k, home, c, A.cgt, t);
      }
    }
  }

  /** A call: its opening, what is inside it, and the quad that closes it. */
  lemma CallBlocked(p: Code, pos: nat, c: nat, A: Emitted, F: Emitted, isVoid: bool, count: Word, home: Spots)
    requires Within(p, pos, CallCode(A, F, isVoid, count).code) && FreshIn(F.res, F.cgt)
    requires Filled(p, pos + 1, pos + 1 + |A.code| + |F.code|, home, c, F.cgt, TempOf(F.res))
    ensures pos <= |p|
    ensures ExprBlocked(p, pos, c, CallCode(A, F, isVoid, count), Housing(home, F.cgt + 1, SpotAt(p, pos)))
  {
    hide Within, Block, Filled, Housing, SpotAt;
    var E := CallCode(A, F, isVoid, count);
    WithinBound(p, pos, E.code);
    var hint := Q1(HintCall, E.res, ANone);
    var call := Quad(if isVoid then PCall else FCall, E.res, F.res, AConst(count));
    var home' := Housing(home, F.cgt + 1, SpotAt(p, pos));
    var end := pos + 1 + |A.code| + |F.code|;
    LastQuad(p, pos, [hint] + A.code + F.code, call);
    assert [hint] + A.code + F.code == [] + [hint] + (A.code + F.code);
    QuadAt(p, pos, [], hint, A.code + F.code);
    assert p[pos] == hint && p[end] == call;
    CallEnds(p, pos, end, c, F.cgt, home, TempOf(F.res), E.res);
  }

  predicate FreshIn(a: Operand, cgt: nat)
  {
    a.ATemp? ==> a.t <= cgt
  }

  lemma CallEnds(p: Code, pos: nat, end: nat, c: nat, cgt: nat, home: Spots, outs: set<nat>, res: Operand)
    requires pos < end < |p| && Filled(p, pos + 1, end, home, c, cgt, outs)
    requires IsHint(p[pos]) && p[pos].res == res && p[pos].arg1 == ANone && p[pos].arg2 == ANone
    requires IsCall(p[end]) && p[end].res == res && !p[end].arg2.ATemp? && TempOf(p[end].arg1) == outs
    requires p[end].op == PCall ==> res == ANone
    requires res == ANone || res == ATemp(cgt + 1)
    ensures Block(p, pos, end + 1, Housing(home, cgt + 1, SpotAt(p, pos)), c, if res.ATemp? then cgt + 1 else cgt, TempOf(res))
  {
    hide QuadHoused, SpotOf, NestAt, NotLater;
    var o, next := SpotAt(p, pos), cgt + 1;
    var home', hi := Housing(home, next, o), if res.ATemp? then next else cgt;
    CallNests(p, pos, end, res);
    assert QuadHoused(p, pos, home', c, hi) by { HintHoused(p, pos, home', c, hi, res); }
    assert QuadHoused(p, end, home', c, hi) by { CloseHoused(p, pos, end, home', c, hi, res); }
    ExtendsHousing(p, pos + 1, end, home, home', c, cgt);
    forall k: nat | pos <= k < end + 1
      ensures QuadHoused(p, k, home', c, hi) && Tidy(p, k)
    {
      if pos < k < end {
        Wider(p, k, home', c, cgt, hi);
      }
    }
    forall k: nat, t: nat | pos <= k < end + 1 && PassesTemp(p[k], t)
      ensures t !in TempOf(res) && NotLater(p, k, end + 1, t)
    {
      assert pos < k < end && NotLater(p, k, end, t) && t !in outs;
      PassedNumber(p, k, home', c, cgt, t);
      NotAtCall(p, k, end, cgt, t);
    }
  }

  lemma ExtendsHousing(p: Code, i: nat, j: nat, home: Spots, home': Spots, lo: nat, hi: nat)
    requires Stretch(p, i, j, home, lo, hi) && Extends(hi, home, home')
    ensures Stretch(p, i, j, home', lo, hi)
  {
    hide OpenAt, ArgsAt, SpotOf;
    forall k: nat | i <= k < j
      ensures QuadHoused(p, k, home', lo, hi)
    {
      assert QuadHoused(p, k, home, lo, hi);
    }
  }

  lemma NotAtCall(p: Code, k: nat, end: nat, cgt: nat, t: nat)
    requires k < end < |p| && NotLater(p, k, end, t)
    requires IsCall(p[end]) && !p[end].arg2.ATemp? && (p[end].res == ANone || p[end].res == ATemp(cgt + 1))
    requires t <= cgt && t !in TempOf(p[end].arg1)
    ensures NotLater(p, k, end + 1, t)
  {
  }

  lemma CallNests(p: Code, pos: nat, end: nat, res: Operand)
    requires pos < end < |p| && IsHint(p[pos]) && p[pos].res == res && IsCall(p[end])
    requires OpenAt(p, end) == OpenAt(p, pos + 1) && Front(ArgsAt(p, end)) == Front(ArgsAt(p, pos + 1))
    ensures OpenAt(p, end) == OpenAt(p, pos) + [Opening(NestAt(p, pos).count, res)]
    ensures Front(OpenAt(p, end)) == OpenAt(p, pos) && Front(ArgsAt(p, end)) == ArgsAt(p, pos)
    ensures SpotAt(p, end + 1) == SpotAt(p, pos)
  {
  }

  lemma HintHoused(p: Code, pos: nat, home: Spots, lo: nat, hi: nat, res: Operand)
    requires pos < |p| && IsHint(p[pos]) && p[pos].res == res && p[pos].arg1 == ANone && p[pos].arg2 == ANone
    requires res.ATemp? ==> lo < res.t <= hi && home(res.t) == SpotAt(p, pos)
    ensures QuadHoused(p, pos, home, lo, hi)
  {
  }

  lemma CloseHoused(p: Code, pos: nat, end: nat, home: Spots, lo: nat, hi: nat, res: Operand)
    requires pos < end < |p| && IsCall(p[end]) && p[end].res == res && !p[end].arg2.ATemp?
    requires Front(OpenAt(p, end)) == OpenAt(p, pos) && Front(ArgsAt(p, end)) == ArgsAt(p, pos)
    requires res.ATemp? ==> lo < res.t <= hi && home(res.t) == SpotAt(p, pos)
    requires p[end].arg1.ATemp? ==>
               p[end].arg1 != res && lo < p[end].arg1.t <= hi && home(p[end].arg1.t) == SpotAt(p, end)
    ensures QuadHoused(p, end, home, lo, hi)
  {
  }

  lemma Wider(p: Code, k: nat, home: Spots, lo: nat, mid: nat, hi: nat)
    requires k < |p| && QuadHoused(p, k, home, lo, mid) && mid <= hi
    ensures QuadHoused(p, k, home, lo, hi)
  {
  }

  lemma PassedNumber(p: Code, k: nat, home: Spots, lo: nat, hi: nat, t: nat)
    requires k < |p| && QuadHoused(p, k, home, lo, hi) && PassesTemp(p[k], t)
    ensures lo < t <= hi
  {
    assert Mentions(p[k], ATemp(t));
  }

  // ----- statements -----

  ghost predicate StmtBlocked(p: Code, pos: nat, c: nat, E: Emitted, home: Spots)
  {
    Block(p, pos, pos + |E.code|, home, c, E.cgt, {})
  }

  /** A quad without temporaries between statements. */
  lemma AddPlain(p: Code, i: nat, j: nat, home: Spots, lo: nat, hi: nat)
    requires Block(p, i, j, home, lo, hi, {}) && j < |p| && !IsHint(p[j]) && !NeedsCall(p[j])
    requires forall t: nat :: !Mentions(p[j], ATemp(t))
    ensures Block(p, i, j + 1, home, lo, hi, {})
  {
    hide Block;
    AddQuad(p, i, j, home, lo, hi, {}, {});
  }

  /** An expression and the quad that uses its result. */
  lemma UseBlock(p: Code, pos: nat, e: Expr, c: nat, l: nat, q: Quad, home: Spots) returns (home': Spots)
    requires var E := ExprCode(e, c, l);
             && UniqueLabels(p) && Within(p, pos, E.code + [q]) && !IsHint(q) && !IsCall(q) && q.Quad? && q.op != Arg
             && (forall t: nat :: Mentions(q, ATemp(t)) ==> t in TempOf(E.res))
    ensures var E := ExprCode(e, c, l);
            Block(p, pos, pos + |E.code| + 1, home', c, E.cgt, {}) && Extends(c, home, home')
  {
    hide ExprCode, Within, UniqueLabels, Block, Extends;
    var E := ExprCode(e, c, l);
    home' := PrefixBlock(p, pos, e, c, l, E.code + [q], home);
    AddLast(p, pos, E.code, q, home', c, E.cgt, TempOf(E.res), {});
  }

  lemma TestBlock(p: Code, pos: nat, test: Option<Expr>, c: nat, l: nat, out: nat, home: Spots) returns (home': Spots)
    requires UniqueLabels(p) && Within(p, pos, TestCode(test, c, l, out).code)
    ensures StmtBlocked(p, pos, c, TestCode(test, c, l, out), home') && Extends(c, home, home')
  {
    hide ExprCode, Within, UniqueLabels, Block, Extends;
    if test.None? {
      WithinBound(p, pos, []);
      home' := home;
      NoBlock(p, pos, home, c);
      ExtendsSelf(c, home);
    } else {
      home' := UseBlock(p, pos, test.value, c, l, Q1(CJumpF, ALabel(out), ExprCode(test.value, c, l).res), home);
    }
  }

  lemma {:induction false} StmtBlock(p: Code, pos: nat, st: Stmt, c: nat, l: nat, out: nat, iter: nat, home: Spots)
    returns (home': Spots)
    requires UniqueLabels(p) && Within(p, pos, StmtCode(st, c, l, out, iter).code)
    ensures StmtBlocked(p, pos, c, StmtCode(st, c, l, out, iter), home') && Extends(c, home, home')
    decreases st, 1
  {
    hide Within, UniqueLabels, StmtCode, ExprCode, BranchCode, TestCode, Block, Extends, FindLabel;
    StmtParts(st, c, l, out, iter);
    match st
    case Seq(a, b) =>
      var A := StmtCode(a, c, l, out, iter);
      var B := StmtCode(b, A.cgt, A.lab, out, iter);
      WithinSplit(p, pos, A.code, B.code);
      var home1 := StmtBlock(p, pos, a, c, l, out, iter, home);
      home' := StmtBlock(p, pos + |A.code|, b, A.cgt, A.lab, out, iter, home1);
      JoinSame(p, pos, pos + |A.code|, pos + |A.code| + |B.code|, home1, home', c, A.cgt, B.cgt);
      ExtendsMore(c, A.cgt, home, home1, home');
    case If(branch) =>
      var B := BranchCode(branch, c, l + 1, l + 1, out, iter);
      LastQuad(p, pos, B.code, Label(l + 1));
      home' := BranchBlock(p, pos, branch, c, l + 1, l + 1, out, iter, home);
      AddPlain(p, pos, pos + |B.code|, home', c, B.cgt);
    case While(x, body) =>
      var X := TestCode(Some(x), c, l + 2, l + 2);
      var B := StmtCode(body, X.cgt, X.lab, l + 2, l + 1);
      LoopLayout(p, pos, X, B, l);
      var home1 := TestBlock(p, pos + 1, Some(x), c, l + 2, l + 2, home);
      home' := StmtBlock(p, pos + 1 + |X.code|, body, X.cgt, X.lab, l + 2, l + 1, home1);
      JoinSame(p, pos + 1, pos + 1 + |X.code|, pos + 1 + |X.code| + |B.code|, home1, home', c, X.cgt, B.cgt);
      ExtendsMore(c, X.cgt, home, home1, home');
      LoopBlock(p, pos, pos + 1 + |X.code| + |B.code|, home', c, B.cgt, l + 1);
    case Do(body, x) =>
      var B := StmtCode(body, c, l + 2, l + 2, l + 1);
      var X := TestCode(Some(x), B.cgt, B.lab, l + 2);
      LoopLayout(p, pos, B, X, l);
      var home1 := StmtBlock(p, pos + 1, body, c, l + 2, l + 2, l + 1, home);
      home' := TestBlock(p, pos + 1 + |B.code|, Some(x), B.cgt, B.lab, l + 2, home1);
      JoinSame(p, pos + 1, pos + 1 + |B.code|, pos + 1 + |B.code| + |X.code|, home1, home', c, B.cgt, X.cgt);
      ExtendsMore(c, B.cgt, home, home1, home');
      LoopBlock(p, pos, pos + 1 + |B.code| + |X.code|, home', c, X.cgt, l + 1);
    case For(_, _, _, _) => home' := ForBlock(p, pos, st, c, l, out, iter, home);
    case _ => home' := SmallBlock(p, pos, st, c, l, out, iter, home);
  }

  /** The label, the jump back and the label at the exit around the inside of a loop. */
  lemma LoopBlock(p: Code, head: nat, g: nat, home: Spots, lo: nat, hi: nat, l: nat)
    requires head + 1 <= g && g + 2 <= |p| && Block(p, head + 1, g, home, lo, hi, {})
    requires p[head].Label? && p[g] == Goto(l) && p[g + 1].Label?
    ensures Block(p, head, g + 2, home, lo, hi, {})
  {
    hide Block;
    NoBlock(p, head, home, lo);
    AddPlain(p, head, head, home, lo, lo);
    ExtendsSelf(lo, home);
    JoinSame(p, head, head + 1, g, home, home, lo, lo, hi);
    AddPlain(p, head, g, home, lo, hi);
    AddPlain(p, head, g + 1, home, lo, hi);
  }

  lemma SmallBlock(p: Code, pos: nat, st: Stmt, c: nat, l: nat, out: nat, iter: nat, home: Spots) returns (home': Spots)
    requires UniqueLabels(p) && Within(p, pos, StmtCode(st, c, l, out, iter).code)
    requires st.Empty? || st.Eval? || st.Let? || st.Break? || st.Continue? || st.Return?
    ensures StmtBlocked(p, pos, c, StmtCode(st, c, l, out, iter), home') && Extends(c, home, home')
  {
    hide Within, UniqueLabels, Block, ExprCode, Extends;
    ExtendsSelf(c, home);
    if st.Eval? {
      var E := ExprCode(st.expr, c, l);
      home' := ExprBlock(p, pos, st.expr, c, l, home);
      FewerOuts(p, pos, pos + |E.code|, home', c, E.cgt, TempOf(E.res), {});
    } else if st.Let? && st.initial.Some? {
      var E := ExprCode(st.initial.value, c, l);
      LetParts(p, pos, st.name, E);
      NoBlock(p, pos, home, c);
      AddPlain(p, pos, pos, home, c, c);
      home' := UseBlock(p, pos + 1, st.initial.value, c, l, Q1(Copy, AName(st.name, false), E.res), home);
      JoinSame(p, pos, pos + 1, pos + 1 + |E.code| + 1, home, home', c, c, E.cgt);
    } else if st.Return? && st.value.Some? {
      home' := UseBlock(p, pos, st.value.value, c, l, Q1(RetF, ANone, ExprCode(st.value.value, c, l).res), home);
    } else {
      home' := home;
      WithinBound(p, pos, StmtCode(st, c, l, out, iter).code);
      NoBlock(p, pos, home, c);
      if !st.Empty? {
        WithinAt(p, pos, StmtCode(st, c, l, out, iter).code, 0);
        AddPlain(p, pos, pos, home, c, c);
      }
    }
  }

  lemma {:induction false} BranchBlock(p: Code, pos: nat, b: Branch, c: nat, l: nat, done: nat, out: nat, iter: nat,
                                       home: Spots)
    returns (home': Spots)
    requires UniqueLabels(p) && Within(p, pos, BranchCode(b, c, l, done, out, iter).code)
    ensures StmtBlocked(p, pos, c, BranchCode(b, c, l, done, out, iter), home') && Extends(c, home, home')
    decreases b, 0
  {
    hide Within, UniqueLabels, StmtCode, TestCode, Block, Extends, FindLabel;
    var last := b.others.NoElse?;
    var X := if last then TestCode(Some(b.cond), c, l, done) else TestCode(Some(b.cond), c, l + 1, l + 1);
    var B := StmtCode(b.body, X.cgt, X.lab, out, iter);
    var a, j := pos + |X.code|, pos + |X.code| + |B.code|;
    if last {
      WithinSplit(p, pos, X.code, B.code);
      var home1 := TestBlock(p, pos, Some(b.cond), c, l, done, home);
      home' := StmtBlock(p, a, b.body, X.cgt, X.lab, out, iter, home1);
      JoinSame(p, pos, a, j, home1, home', c, X.cgt, B.cgt);
      ExtendsMore(c, X.cgt, home, home1, home');
    } else {
      var E := if b.others.Elif? then BranchCode(b.others.branch, B.cgt, B.lab, done, out, iter)
               else StmtCode(b.others.body, B.cgt, B.lab, out, iter);
      ElseLayout(p, pos, X, B, E, done, l + 1);
      var home1 := TestBlock(p, pos, Some(b.cond), c, l + 1, l + 1, home);
      var home2 := StmtBlock(p, a, b.body, X.cgt, X.lab, out, iter, home1);
      JoinSame(p, pos, a, j, home1, home2, c, X.cgt, B.cgt);
      AddPlain(p, pos, j, home2, c, B.cgt);
      AddPlain(p, pos, j + 1, home2, c, B.cgt);
      if b.others.Elif? {
        home' := BranchBlock(p, j + 2, b.others.branch, B.cgt, B.lab, done, out, iter, home2);
      } else {
        home' := StmtBlock(p, j + 2, b.others.body, B.cgt, B.lab, out, iter, home2);
      }
      JoinSame(p, pos, j + 2, j + 2 + |E.code|, home2, home', c, B.cgt, E.cgt);
      ExtendsMore(c, X.cgt, home, home1, home2);
      ExtendsMore(c, B.cgt, home, home2, home');
    }
  }

  lemma {:induction false} ForBlock(p: Code, pos: nat, st: Stmt, c: nat, l: nat, out: nat, iter: nat, home: Spots)
    returns (home': Spots)
    requires st.For? && UniqueLabels(p) && Within(p, pos, StmtCode(st, c, l, out, iter).code)
    ensures StmtBlocked(p, pos, c, StmtCode(st, c, l, out, iter), home') && Extends(c, home, home')
    decreases st, 0
  {
    hide Within, UniqueLabels, StmtCode, TestCode, Block, Extends, FindLabel;
    StmtParts(st, c, l, out, iter);
    var (I, X, B, S) := ForParts(st, c, l);
    ForLayout(p, pos, I, X, B, S, l);
    var a := pos + |I.code|;
    var b := a + 1 + |X.code|;
    var d := b + |B.code|;
    var g := d + 1 + |S.code|;
    var home1 := StmtBlock(p, pos, st.init, c, l + 3, l + 3, l + 2, home);
    var home2 := TestBlock(p, a + 1, st.test, I.cgt, I.lab, l + 3, home1);
    var home3 := StmtBlock(p, b, st.body, X.cgt, X.lab, l + 3, l + 2, home2);
    home' := StmtBlock(p, d + 1, st.step, B.cgt, B.lab, l + 3, l + 2, home3);
    JoinSame(p, a + 1, b, d, home2, home3, I.cgt, X.cgt, B.cgt);
    AddPlain(p, a + 1, d, home3, I.cgt, B.cgt);
    JoinSame(p, a + 1, d + 1, g, home3, home', I.cgt, B.cgt, S.cgt);
    LoopBlock(p, a, g, home', I.cgt, S.cgt, l + 1);
    ExtendsMore(I.cgt, X.cgt, home1, home2, home3);
    ExtendsMore(I.cgt, B.cgt, home1, home3, home');
    JoinSame(p, pos, a, g + 2, home1, home', c, I.cgt, S.cgt);
    ExtendsMore(c, I.cgt, home, home1, home');
  }

  // ----- jumps stay inside the same calls -----

  /** The register a record holds for the k-th call only. */
  function Mark(p: Code, k: nat): Busy
  {
    (i: nat) => if i < |p| && NestAt(p, i).count == k then [RAX] else []
  }

  /** The generator's records for these registers tell which calls are open. */
  lemma {:induction false} MarksTell(p: Code, k: nat, i: nat)
    requires i <= |p|
    ensures Told(GenAt(Mark(p, k), p, i), NestAt(p, i), k)
  {
    hide Effect, Enter, Told;
    assert i == 0 ==> Told(Gen(0, []), Nest(0, [], []), k) by { NothingTold(k); }
    if i > 0 {
      MarksTell(p, k, i - 1);
      MarkStep(p[i - 1], Mark(p, k)(i - 1), NestAt(p, i - 1), GenAt(Mark(p, k), p, i - 1), k);
    }
  }

  ghost predicate Told(g: Gen, n: Nest, k: nat)
  {
    && |g.calls| == |n.open| == |n.passed|
    && (forall a :: 0 <= a < |g.calls| ==> Passed(g.calls[a]) == n.passed[a])
    && forall a :: 0 <= a < |g.calls| ==> (g.calls[a].pushed == [RAX] <==> n.open[a].k == k)
  }

  lemma NothingTold(k: nat)
    ensures Told(Gen(0, []), Nest(0, [], []), k)
  {
  }

  lemma MarkStep(q: Quad, regs: seq<Reg>, n: Nest, g: Gen, k: nat)
    requires Told(g, n, k) && regs == if n.count == k then [RAX] else []
    ensures Told(Effect(regs, q, g), Enter(q, n), k)
  {
    assert [RAX] != [];
  }

  /** What a call was opened for is told by when. */
  lemma {:induction false} OpeningTells(p: Code, i: nat, j: nat, a: nat, b: nat)
    requires i <= j <= |p| && a < |OpenAt(p, i)| && b < |OpenAt(p, j)| && OpenAt(p, i)[a].k == OpenAt(p, j)[b].k
    ensures OpenAt(p, i)[a] == OpenAt(p, j)[b]
    decreases j
  {
    hide Enter;
    OpenOlder(p, i);
    if i < j {
      CountGrows(p, i, j - 1);
      NewOrOld(p[j - 1], NestAt(p, j - 1), b);
      if OpenAt(p, j)[b].k < NestAt(p, j - 1).count {
        OpeningTells(p, i, j - 1, a, b);
      }
    } else {
      SameTime(p, i, a, b);
    }
  }

  lemma NewOrOld(q: Quad, n: Nest, b: nat)
    requires b < |Enter(q, n).open|
    ensures Enter(q, n).open[b].k == n.count || (b < |n.open| && n.open[b] == Enter(q, n).open[b])
  {
  }

  lemma SameTime(p: Code, i: nat, a: nat, b: nat)
    requires i <= |p| && a < |OpenAt(p, i)| && b < |OpenAt(p, i)| && OpenAt(p, i)[a].k == OpenAt(p, i)[b].k
    ensures a == b
  {
    hide NestAt;
    OpenOlder(p, i);
  }

  lemma SameOpen(p: Code, i: nat, j: nat)
    requires i <= |p| && j <= |p| && forall k: nat :: GenAt(Mark(p, k), p, i) == GenAt(Mark(p, k), p, j)
    ensures SameCalls(p, i, j)
  {
    hide GenAt, NestAt, Mark;
    MarksTell(p, 0, i);
    MarksTell(p, 0, j);
    assert |OpenAt(p, i)| == |OpenAt(p, j)|;
    assert ArgsAt(p, i) == ArgsAt(p, j);
    forall a | 0 <= a < |OpenAt(p, i)|
      ensures OpenAt(p, i)[a] == OpenAt(p, j)[a]
    {
      var k := OpenAt(p, i)[a].k;
      MarksTell(p, k, i);
      MarksTell(p, k, j);
      if i <= j {
        OpeningTells(p, i, j, a, a);
      } else {
        OpeningTells(p, j, i, a, a);
      }
    }
  }

  /** The code of a procedure: every temporary lives in one call; jumps stay inside the same calls; calls and
      arguments find a call open; a call sets what its opening names; an argument is not mentioned again. */
  lemma ProcedureFramed(body: Stmt, l: nat) returns (home: Homes, spot: Spots)
    requires WellFormed(body, false)
    ensures Framed(ProcCode(body, l), home) && Spotted(ProcCode(body, l), spot)
  {
    hide StmtCode, UniqueLabels, Within, GenAt, NestAt, Mark, JumpsLevel, QuadHoused, HomeAt, SpotOf;
    var p := ProcCode(body, l);
    ProcedureLabels(body, 0, l);
    WithinWhole(p);
    spot := StmtBlock(p, 0, body, 0, l, 0, 0, t => Spot([], []));
    home := (t: nat) => spot(t).open;
    assert Block(p, 0, |p|, spot, 0, StmtCode(body, 0, l, 0, 0).cgt, {});
    forall i: nat | i < |p|
      ensures Orderly(p, i)
    {
      assert Tidy(p, i);
      JumpFlat(body, l, i);
      if p[i].Quad? && p[i].op == Arg && p[i].arg1.ATemp? {
        assert PassesTemp(p[i], p[i].arg1.t) && NotLater(p, i, |p|, p[i].arg1.t);
      }
    }
    forall i: nat, t: nat | i < |p| && Mentions(p[i], ATemp(t))
      ensures spot(t) == SpotOf(p, i, t) && home(t) == HomeAt(p, i, t)
    {
      HousedHome(p, i, spot, 0, StmtCode(body, 0, l, 0, 0).cgt, t);
    }
  }

  lemma HousedHome(p: Code, i: nat, home: Spots, lo: nat, hi: nat, t: nat)
    requires i < |p| && QuadHoused(p, i, home, lo, hi) && Mentions(p[i], ATemp(t))
    ensures home(t) == SpotOf(p, i, t) && home(t).open == HomeAt(p, i, t)
  {
  }

  lemma JumpFlat(body: Stmt, l: nat, i: nat)
    requires WellFormed(body, false) && i < |ProcCode(body, l)|
    ensures var p := ProcCode(body, l);
            && (Target(p, p[i]).Some? ==> SameCalls(p, Target(p, p[i]).value, i))
            && (NeedsCall(p[i]) ==> OpenAt(p, i) != [])
  {
    hide ProcCode, GenAt, NestAt, Mark, Accounted, Target;
    var p := ProcCode(body, l);
    forall k: nat
      ensures InOrder(Mark(p, k), p, i)
    {
      ProcedureLevel(Mark(p, k), body, l);
    }
    assert InOrder(Mark(p, 0), p, i);
    MarksTell(p, 0, i);
    if Target(p, p[i]).Some? {
      var to := Target(p, p[i]).value;
      TargetInside(p, p[i]);
      forall k: nat
        ensures GenAt(Mark(p, k), p, i) == GenAt(Mark(p, k), p, to)
      {
        assert InOrder(Mark(p, k), p, i);
      }
      SameOpen(p, to, i);
    }
  }

  lemma TargetInside(p: Code, q: Quad)
    ensures Target(p, q).Some? ==> Target(p, q).value < |p|
  {
  }
}
