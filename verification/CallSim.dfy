/** The depth the generator records at a quad is the depth of the stack on every path to it. */
module CallSim {
  import opened Words
  import opened Ast
  import opened Quads
  import opened Emit
  import opened ExprSim
  import opened Labels
  import opened Liveness
  import opened Nests
  import opened RegAlloc
  import opened Calls

  /** The registers found in use where a call is opened. */
  type Busy = nat -> seq<Reg>

  function Effect(regs: seq<Reg>, q: Quad, g: Gen): Gen
  {
    if q.Label? then g
    else if q.op == HintCall then OpenCall(g, regs)
    else if q.op == Arg then PassArg(g)
    else if q.op == PCall || q.op == FCall then CloseCall(g)
    else g
  }

  /** The generator's record before the quad at i: one pass over the code, whatever its jumps. */
  function GenAt(busy: Busy, p: Code, i: nat): Gen
    requires i <= |p|
  {
    if i == 0 then Gen(0, []) else Effect(busy(i - 1), p[i - 1], GenAt(busy, p, i - 1))
  }

  predicate Quiet(q: Quad)
  {
    q.Quad? ==> q.op !in {HintCall, Arg, PCall, FCall}
  }

  /** A jump goes where the record is the same, arguments and calls find a call open, and a call finds as
      many arguments passed as it says. */
  ghost predicate InOrder(busy: Busy, p: Code, k: nat)
    requires k < |p|
  {
    && (Target(p, p[k]).Some? ==> GenAt(busy, p, Target(p, p[k]).value) == GenAt(busy, p, k))
    && (NeedsCall(p[k]) ==> GenAt(busy, p, k).calls != [])
    && (IsCall(p[k]) ==> p[k].arg2 == AConst(ToWord(Passed(TopCall(GenAt(busy, p, k))))))
  }

  ghost predicate JumpsLevel(busy: Busy, p: Code, i: nat, j: nat)
  {
    i <= j <= |p| && forall k :: i <= k < j ==> InOrder(busy, p, k)
  }

  ghost predicate Level(busy: Busy, p: Code, i: nat, j: nat)
  {
    JumpsLevel(busy, p, i, j) && GenAt(busy, p, j) == GenAt(busy, p, i)
  }

  lemma LevelJoin(busy: Busy, p: Code, i: nat, j: nat, k: nat)
    requires Level(busy, p, i, j) && Level(busy, p, j, k)
    ensures Level(busy, p, i, k)
  {
    hide GenAt;
  }

  lemma JumpsJoin(busy: Busy, p: Code, i: nat, j: nat, k: nat)
    requires JumpsLevel(busy, p, i, j) && JumpsLevel(busy, p, j, k)
    ensures JumpsLevel(busy, p, i, k)
  {
    hide GenAt;
  }

  /** A quad that does not concern calls; if it jumps, the record at its target is the same. */
  lemma QuietLevel(busy: Busy, p: Code, i: nat)
    requires i < |p| && Quiet(p[i])
    requires Target(p, p[i]).Some? ==> GenAt(busy, p, Target(p, p[i]).value) == GenAt(busy, p, i)
    ensures Level(busy, p, i, i + 1)
  {
    hide GenAt, Effect, Target;
    QuietStep(busy, p, i);
  }

  lemma QuietStep(busy: Busy, p: Code, i: nat)
    requires i < |p| && Quiet(p[i])
    ensures GenAt(busy, p, i + 1) == GenAt(busy, p, i)
  {
  }

  lemma Nowhere(busy: Busy, p: Code, i: nat)
    requires i <= |p|
    ensures Level(busy, p, i, i)
  {
  }

  // ----- expressions -----

  ghost predicate ExprLeveled(busy: Busy, p: Code, pos: nat, E: Emitted)
  {
    Level(busy, p, pos, pos + |E.code|)
  }

  lemma LevelAppend(busy: Busy, p: Code, pos: nat, c: Code, q: Quad)
    requires Within(p, pos, c + [q]) && Level(busy, p, pos, pos + |c|) && Quiet(q)
    requires Target(p, q).Some? ==> GenAt(busy, p, Target(p, q).value) == GenAt(busy, p, pos)
    ensures Level(busy, p, pos, pos + |c| + 1)
  {
    hide Within, GenAt, Target;
    LastQuad(p, pos, c, q);
    QuietLevel(busy, p, pos + |c|);
    LevelJoin(busy, p, pos, pos + |c|, pos + |c| + 1);
  }

  lemma SettleLevel(busy: Busy, p: Code, j: nat, r: nat, v: Word, here: nat, next: nat)
    requires v <= 1 && UniqueLabels(p) && Within(p, j, Settle(ATemp(r), v, here, next))
    ensures Level(busy, p, j, j + 5) && GenAt(busy, p, j + 2) == GenAt(busy, p, j)
    ensures FindLabel(p, here, 0) == Some(j + 2)
  {
    hide Within, GenAt, UniqueLabels, FindLabel;
    SettleQuads(p, j, r, v, here, next);
    QuietStep(busy, p, j);
    QuietStep(busy, p, j + 1);
    QuietStep(busy, p, j + 2);
    QuietStep(busy, p, j + 3);
    QuietLevel(busy, p, j);
    QuietLevel(busy, p, j + 1);
    QuietLevel(busy, p, j + 2);
    QuietLevel(busy, p, j + 3);
    QuietLevel(busy, p, j + 4);
    LevelJoin(busy, p, j, j + 1, j + 2);
    LevelJoin(busy, p, j, j + 2, j + 3);
    LevelJoin(busy, p, j, j + 3, j + 4);
    LevelJoin(busy, p, j, j + 4, j + 5);
  }

  /** A body whose own jumps to the settling tail are accounted for. */
  lemma SettleAfterLevel(busy: Busy, p: Code, pos: nat, body: Code, c: nat, l: nat, lab: nat, v: Word)
    requires v <= 1 && UniqueLabels(p) && Within(p, pos, SettleAfter(body, c, l, lab, v).code)
    requires Level(busy, p, pos, pos + |body|)
    ensures ExprLeveled(busy, p, pos, SettleAfter(body, c, l, lab, v))
  {
    hide Within, GenAt, UniqueLabels, JumpsLevel;
    WithinSplit(p, pos, body, Settle(ATemp(c + 1), v, l + 1, l + 2));
    SettleLevel(busy, p, pos + |body|, c + 1, v, l + 1, l + 2);
    LevelJoin(busy, p, pos, pos + |body|, pos + |body| + 5);
  }

  /** The record at the label of the settling tail, when the body ends in quads that do not concern calls. */
  lemma HereState(busy: Busy, p: Code, pos: nat, body: Code, c: nat, l: nat, lab: nat, v: Word)
    requires v <= 1 && UniqueLabels(p) && Within(p, pos, SettleAfter(body, c, l, lab, v).code)
    ensures Within(p, pos, body) && FindLabel(p, l + 1, 0) == Some(pos + |body| + 2) && pos + |body| + 2 <= |p|
    ensures GenAt(busy, p, pos + |body| + 2) == GenAt(busy, p, pos + |body|)
  {
    hide Within, GenAt, UniqueLabels, FindLabel;
    WithinSplit(p, pos, body, Settle(ATemp(c + 1), v, l + 1, l + 2));
    SettleLevel(busy, p, pos + |body|, c + 1, v, l + 1, l + 2);
    SettleQuads(p, pos + |body|, c + 1, v, l + 1, l + 2);
  }

  lemma BothLevel(busy: Busy, p: Code, pos: nat, A: Emitted, B: Emitted)
    requires ExprLeveled(busy, p, pos, A) && ExprLeveled(busy, p, pos + |A.code|, B)
    ensures Level(busy, p, pos, pos + |Both(A, B)|)
  {
    hide GenAt, JumpsLevel;
    LevelJoin(busy, p, pos, pos + |A.code|, pos + |A.code| + |B.code|);
  }

  /** `!` and the relations: an operand or two, a jump to the tail, and the tail. */
  lemma TestedLevel(busy: Busy, p: Code, pos: nat, head: Code, q: Quad, c: nat, l: nat, lab: nat)
    requires UniqueLabels(p) && Within(p, pos, SettleAfter(head + [q], c, l, lab, 0).code)
    requires Level(busy, p, pos, pos + |head|) && Quiet(q) && q.Quad? && q.res == ALabel(l + 1)
    ensures ExprLeveled(busy, p, pos, SettleAfter(head + [q], c, l, lab, 0))
  {
    hide Within, GenAt, UniqueLabels, JumpsLevel;
    HereState(busy, p, pos, head + [q], c, l, lab, 0);
    LastQuad(p, pos, head, q);
    QuietStep(busy, p, pos + |head|);
    LevelAppend(busy, p, pos, head, q);
    SettleAfterLevel(busy, p, pos, head + [q], c, l, lab, 0);
  }

  lemma LogicLevel(busy: Busy, p: Code, pos: nat, isOr: bool, A: Emitted, B: Emitted, l: nat)
    requires UniqueLabels(p) && Within(p, pos, LogicCode(isOr, A, B, l).code)
    requires ExprLeveled(busy, p, pos, A) && ExprLeveled(busy, p, pos + |A.code| + 1, B)
    ensures ExprLeveled(busy, p, pos, LogicCode(isOr, A, B, l))
  {
    hide Within, GenAt, UniqueLabels, JumpsLevel, FindLabel;
    var j1, j2 := LogicJump(isOr, l + 1, A.res), LogicJump(isOr, l + 1, B.res);
    var v: Word := if isOr then 0 else 1;
    var first, body := A.code + [j1], A.code + [j1] + B.code + [j2];
    var at, end := pos + |A.code|, pos + |first| + |B.code|;
    HereState(busy, p, pos, body, B.cgt, l, B.lab, v);
    LastQuad(p, pos, first + B.code, j2);
    PrefixWithin(p, pos, first, first + B.code);
    LastQuad(p, pos, A.code, j1);
    QuietStep(busy, p, at);
    QuietStep(busy, p, end);
    QuietLevel(busy, p, at);
    QuietLevel(busy, p, end);
    LevelJoin(busy, p, pos, at, at + 1);
    LevelJoin(busy, p, pos, at + 1, end);
    LevelJoin(busy, p, pos, end, end + 1);
    SettleAfterLevel(busy, p, pos, body, B.cgt, l, B.lab, v);
  }

  lemma TernaryLevel(busy: Busy, p: Code, pos: nat, X: Emitted, N: Emitted, Y: Emitted, l: nat)
    requires UniqueLabels(p) && Within(p, pos, TernaryCode(X, N, Y, l).code) && ExprLeveled(busy, p, pos, X)
    requires var at := pos + |X.code| + 1; ExprLeveled(busy, p, at, N) && ExprLeveled(busy, p, at + |N.code| + 3, Y)
    ensures ExprLeveled(busy, p, pos, TernaryCode(X, N, Y, l))
  {
    hide Within, GenAt, UniqueLabels, JumpsLevel, FindLabel;
    TernaryLayout(p, pos, X, N, Y, l);
    var at := pos + |X.code|;
    var i, j := at + 1 + |N.code|, at + 4 + |N.code| + |Y.code|;
    QuietStep(busy, p, at);
    QuietStep(busy, p, i);
    QuietStep(busy, p, i + 1);
    QuietStep(busy, p, i + 2);
    QuietStep(busy, p, j);
    QuietLevel(busy, p, at);
    QuietLevel(busy, p, i);
    QuietLevel(busy, p, i + 1);
    QuietLevel(busy, p, i + 2);
    QuietLevel(busy, p, j);
    QuietLevel(busy, p, j + 1);
    LevelJoin(busy, p, pos, at, at + 1);
    LevelJoin(busy, p, pos, at + 1, i);
    LevelJoin(busy, p, pos, i, i + 1);
    LevelJoin(busy, p, pos, i + 1, i + 2);
    LevelJoin(busy, p, pos, i + 2, i + 3);
    LevelJoin(busy, p, pos, i + 3, j);
    LevelJoin(busy, p, pos, j, j + 1);
    LevelJoin(busy, p, pos, j + 1, j + 2);
  }

  /** g is s with one more call open, to which n arguments have been passed, and nothing else on the stack. */
  predicate Opened(s: Gen, g: Gen, n: nat)
  {
    && |g.calls| == |s.calls| + 1 && g.calls[..|s.calls|] == s.calls
    && g.alloc == s.alloc + Bytes(TopCall(g)) && Passed(TopCall(g)) == n
  }

  lemma OpenedSteps(s: Gen, regs: seq<Reg>, g: Gen, n: nat)
    ensures Opened(s, OpenCall(s, regs), 0)
    ensures Opened(s, g, n) ==>
              g.calls != [] && Passed(TopCall(g)) == n && Opened(s, PassArg(g), n + 1) && CloseCall(g) == s
  {
  }

  lemma CallQuad(busy: Busy, p: Code, i: nat)
    requires i < |p| && !Quiet(p[i]) && (NeedsCall(p[i]) ==> GenAt(busy, p, i).calls != [])
    requires IsCall(p[i]) ==> p[i].arg2 == AConst(ToWord(Passed(TopCall(GenAt(busy, p, i)))))
    ensures JumpsLevel(busy, p, i, i + 1) && GenAt(busy, p, i + 1) == Effect(busy(i), p[i], GenAt(busy, p, i))
  {
  }

  lemma CallLevel(busy: Busy, p: Code, pos: nat, A: Emitted, F: Emitted, isVoid: bool, n: nat)
    requires Within(p, pos, CallCode(A, F, isVoid, ToWord(n)).code)
    requires JumpsLevel(busy, p, pos + 1, pos + 1 + |A.code|) && ExprLeveled(busy, p, pos + 1 + |A.code|, F)
    requires Opened(GenAt(busy, p, pos), GenAt(busy, p, pos + 1 + |A.code|), n)
    ensures ExprLeveled(busy, p, pos, CallCode(A, F, isVoid, ToWord(n)))
  {
    hide Within, Opened, OpenCall, CloseCall, Passed, ToWord, GenAt, JumpsLevel;
    var E := CallCode(A, F, isVoid, ToWord(n));
    var hint := Q1(HintCall, E.res, ANone);
    var call := Quad(if isVoid then PCall else FCall, E.res, F.res, AConst(ToWord(n)));
    LastQuad(p, pos, [hint] + A.code + F.code, call);
    assert [hint] + A.code + F.code == [] + [hint] + (A.code + F.code);
    QuadAt(p, pos, [], hint, A.code + F.code);
    var at := pos + 1 + |A.code|;
    var end := at + |F.code|;
    OpenedSteps(GenAt(busy, p, pos), [], GenAt(busy, p, end), n);
    CallQuad(busy, p, pos);
    CallQuad(busy, p, end);
    JumpsJoin(busy, p, pos, pos + 1, at);
    JumpsJoin(busy, p, pos, at, end);
    JumpsJoin(busy, p, pos, end, end + 1);
  }

  lemma {:induction false} ExprLevel(busy: Busy, p: Code, pos: nat, e: Expr, c: nat, l: nat)
    requires UniqueLabels(p) && Within(p, pos, ExprCode(e, c, l).code)
    ensures ExprLeveled(busy, p, pos, ExprCode(e, c, l))
    decreases e, 1
  {
    hide Within, UniqueLabels, GenAt, JumpsLevel, ExprCode, ArgsCode, PlaceCode, ExprLeveled;
    CodeParts(e, c, l);
    match e
    case Const(n) => SingleLevel(busy, p, pos, CopyConst(ATemp(c + 1), ToWord(n)), c + 1, l);
    case Ident(x, isFn) => SingleLevel(busy, p, pos, Q1(Copy, ATemp(c + 1), AName(x, isFn)), c + 1, l);
    case Not(a) =>
      var A := ExprCode(a, c, l + 2);
      PrefixLevel(busy, p, pos, a, c, l + 2, ExprCode(e, c, l).code);
      NotLevel(busy, p, pos, A, l);
    case Unary(k, a) =>
      PrefixLevel(busy, p, pos, a, c, l, ExprCode(e, c, l).code);
      UnaryLevel(busy, p, pos, k, ExprCode(a, c, l));
    case Cast(t, a) =>
      PrefixLevel(busy, p, pos, a, c, l, ExprCode(e, c, l).code);
      FreshLevel(busy, p, pos, OpCast(t), ExprCode(a, c, l));
    case Ref(a) => PlaceLevel(busy, p, pos, a, c, l);
    case Deref(a) =>
      var A := ExprCode(a, c, l);
      PrefixLevel(busy, p, pos, a, c, l, ExprCode(e, c, l).code);
      PrefixWithin(p, pos, FreshCode(Copy, A).code, ExprCode(e, c, l).code);
      FreshLevel(busy, p, pos, Copy, A);
      FreshLevel(busy, p, pos, OpDeref, FreshCode(Copy, A));
    case Ternary(x, y, n) =>
      var X := ExprCode(x, c, l + 2);
      var N := ExprCode(n, X.cgt + 1, X.lab);
      var Y := ExprCode(y, N.cgt, N.lab);
      TernaryLayout(p, pos, X, N, Y, l);
      ExprLevel(busy, p, pos, x, c, l + 2);
      ExprLevel(busy, p, pos + |X.code| + 1, n, X.cgt + 1, X.lab);
      ExprLevel(busy, p, pos + |X.code| + 1 + |N.code| + 3, y, N.cgt, N.lab);
      TernaryLevel(busy, p, pos, X, N, Y, l);
    case Call(f, args, isVoid) =>
      var A := ArgsCode(args, c, l);
      var F := ExprCode(f, A.cgt, A.lab);
      CallWithin(p, pos, A, F, isVoid, Count(args));
      HintOpens(busy, p, pos, A, F, isVoid, Count(args));
      ArgsLevel(busy, p, pos + 1, args, c, l, GenAt(busy, p, pos), 0);
      ExprLevel(busy, p, pos + 1 + |A.code|, f, A.cgt, A.lab);
      CallLevel(busy, p, pos, A, F, isVoid, Length(args));
    case _ => InfixLevel(busy, p, pos, e, c, l);
  }

  lemma SingleLevel(busy: Busy, p: Code, pos: nat, q: Quad, t: nat, l: nat)
    requires Within(p, pos, [q]) && Quiet(q) && !IsJump(q)
    ensures ExprLeveled(busy, p, pos, Emitted([q], ATemp(t), t, l))
  {
    hide GenAt;
    WithinAt(p, pos, [q], 0);
    QuietLevel(busy, p, pos);
  }

  lemma NotLevel(busy: Busy, p: Code, pos: nat, A: Emitted, l: nat)
    requires UniqueLabels(p) && Within(p, pos, NotCode(A, l).code) && ExprLeveled(busy, p, pos, A)
    ensures ExprLeveled(busy, p, pos, NotCode(A, l))
  {
    hide Within, GenAt, UniqueLabels, JumpsLevel;
    TestedLevel(busy, p, pos, A.code, JumpZero(l + 1, A.res), A.cgt, l, A.lab);
  }

  lemma UnaryLevel(busy: Busy, p: Code, pos: nat, k: UnaryKind, A: Emitted)
    requires Within(p, pos, UnaryCode(k, A).code) && ExprLeveled(busy, p, pos, A)
    ensures ExprLeveled(busy, p, pos, UnaryCode(k, A))
  {
    hide Within, GenAt, JumpsLevel;
    LevelAppend(busy, p, pos, A.code, Q1(Un(UnOf(k)), A.res, A.res));
  }

  lemma FreshLevel(busy: Busy, p: Code, pos: nat, op: Op, A: Emitted)
    requires Within(p, pos, FreshCode(op, A).code) && ExprLeveled(busy, p, pos, A)
    requires op.OpCast? || op == Copy || op == OpDeref
    ensures ExprLeveled(busy, p, pos, FreshCode(op, A))
  {
    hide Within, GenAt, JumpsLevel;
    LevelAppend(busy, p, pos, A.code, Q1(op, ATemp(A.cgt + 1), A.res));
  }

  lemma {:induction false} PrefixLevel(busy: Busy, p: Code, pos: nat, a: Expr, c: nat, l: nat, whole: Code)
    requires UniqueLabels(p) && Within(p, pos, whole) && ExprCode(a, c, l).code <= whole
    ensures ExprLeveled(busy, p, pos, ExprCode(a, c, l))
    decreases a, 2
  {
    hide Within, UniqueLabels, ExprLeveled, ExprCode;
    PrefixWithin(p, pos, ExprCode(a, c, l).code, whole);
    ExprLevel(busy, p, pos, a, c, l);
  }

  lemma {:induction false} InfixLevel(busy: Busy, p: Code, pos: nat, e: Expr, c: nat, l: nat)
    requires e.Arith? || e.Relate? || e.Or? || e.And? || e.Assign? || e.Comma?
    requires UniqueLabels(p) && Within(p, pos, ExprCode(e, c, l).code)
    ensures ExprLeveled(busy, p, pos, ExprCode(e, c, l))
    decreases e, 0
  {
    hide Within, UniqueLabels, ExprCode, ExprLeveled;
    CodeParts(e, c, l);
    var logic := e.Or? || e.And?;
    var l' := if e.Relate? || logic then l + 2 else l;
    var A := if e.Assign? then PlaceCode(e.left, c, l) else ExprCode(e.left, c, l');
    var B := ExprCode(e.right, A.cgt, A.lab);
    var at := pos + |A.code|;
    if logic {
      LogicWithin(p, pos, e.Or?, A, B, l);
      ExprLevel(busy, p, pos, e.left, c, l');
      ExprLevel(busy, p, at + 1, e.right, A.cgt, A.lab);
      LogicLevel(busy, p, pos, e.Or?, A, B, l);
    } else {
      InfixCode(e, c, l);
      PairWithin(p, pos, A, B, ExprCode(e, c, l).code);
      if e.Assign? {
        PlaceLevel(busy, p, pos, e.left, c, l);
      } else {
        ExprLevel(busy, p, pos, e.left, c, l');
      }
      ExprLevel(busy, p, at, e.right, A.cgt, A.lab);
      StrictLevel(busy, p, pos, e, A, B, l);
    }
  }

  /** Constructs that run both operands and then a quad or a test. */
  lemma StrictLevel(busy: Busy, p: Code, pos: nat, e: Expr, A: Emitted, B: Emitted, l: nat)
    requires e.Arith? || e.Relate? || e.Assign? || e.Comma?
    requires ExprLeveled(busy, p, pos, A) && ExprLeveled(busy, p, pos + |A.code|, B) && UniqueLabels(p)
    requires Within(p, pos, StrictCode(e, A, B, l).code)
    ensures ExprLeveled(busy, p, pos, StrictCode(e, A, B, l))
  {
    hide Within, GenAt, UniqueLabels, JumpsLevel;
    BothLevel(busy, p, pos, A, B);
    var both := Both(A, B);
    match e
    case Arith(k, _, _) => LevelAppend(busy, p, pos, both, Quad(Alu(AluOf(k)), A.res, A.res, B.res));
    case Relate(k, _, _) =>
      TestedLevel(busy, p, pos, both, Quad(CJump(JumpOf(k)), ALabel(l + 1), A.res, B.res), B.cgt, l, B.lab);
    case Assign(_, _) =>
      var put, copy := Q1(DerefCopy, A.res, B.res), Q1(Copy, ATemp(B.cgt + 1), B.res);
      LastQuad(p, pos, both + [put], copy);
      LevelAppend(busy, p, pos, both, put);
      LevelAppend(busy, p, pos, both + [put], copy);
    case Comma(_, _) => LevelAppend(busy, p, pos, both, Q1(Copy, ATemp(B.cgt + 1), B.res));
  }

  function StrictCode(e: Expr, A: Emitted, B: Emitted, l: nat): Emitted
    requires e.Arith? || e.Relate? || e.Assign? || e.Comma?
  {
    match e
    case Arith(k, _, _) => ArithCode(k, A, B)
    case Relate(k, _, _) => RelateCode(k, A, B, l)
    case Assign(_, _) => AssignCode(A, B)
    case Comma(_, _) => CommaCode(A, B)
  }

  lemma {:induction false} PlaceLevel(busy: Busy, p: Code, pos: nat, e: Expr, c: nat, l: nat)
    requires UniqueLabels(p) && Within(p, pos, PlaceCode(e, c, l).code)
    ensures ExprLeveled(busy, p, pos, PlaceCode(e, c, l))
    decreases e, 2
  {
    hide UniqueLabels, ExprLeveled;
    match e
    case Ident(x, isFn) => SingleLevel(busy, p, pos, Q1(OpRef, ATemp(c + 1), AName(x, isFn)), c + 1, l);
    case Deref(a) =>
      PrefixLevel(busy, p, pos, a, c, l, PlaceCode(e, c, l).code);
      FreshLevel(busy, p, pos, Copy, ExprCode(a, c, l));
    case Call(_, _, _) => ExprLevel(busy, p, pos, e, c, l);
    case _ => NoPlace(busy, p, pos, c, l);
  }

  lemma NoPlace(busy: Busy, p: Code, pos: nat, c: nat, l: nat)
    requires Within(p, pos, [])
    ensures ExprLeveled(busy, p, pos, Emitted([], ANone, c, l))
  {
    Nowhere(busy, p, pos);
  }

  lemma HintOpens(busy: Busy, p: Code, pos: nat, A: Emitted, F: Emitted, isVoid: bool, count: Word)
    requires Within(p, pos, CallCode(A, F, isVoid, count).code)
    ensures pos + 1 <= |p| && Opened(GenAt(busy, p, pos), GenAt(busy, p, pos + 1), 0)
  {
    hide Within, Opened, OpenCall, GenAt;
    var hint := Q1(HintCall, CallCode(A, F, isVoid, count).res, ANone);
    assert CallCode(A, F, isVoid, count).code[0] == hint;
    WithinAt(p, pos, CallCode(A, F, isVoid, count).code, 0);
    CallQuad(busy, p, pos);
    OpenedSteps(GenAt(busy, p, pos), busy(pos), GenAt(busy, p, pos), 0);
  }

  /** Arguments leave the call open and everything below as it was. */
  lemma {:induction false} ArgsLevel(busy: Busy, p: Code, pos: nat, args: ExprList, c: nat, l: nat, s: Gen, n: nat)
    requires UniqueLabels(p) && Within(p, pos, ArgsCode(args, c, l).code)
    requires pos <= |p| && Opened(s, GenAt(busy, p, pos), n)
    ensures var end := pos + |ArgsCode(args, c, l).code|;
            JumpsLevel(busy, p, pos, end) && Opened(s, GenAt(busy, p, end), n + Length(args))
    decreases args, 0
  {
    hide UniqueLabels, ExprCode, ArgsCode, Within, Opened, GenAt, ExprLeveled;
    ArgsParts(args, c, l);
    if args.ECons? {
      var A := ExprCode(args.head, c, l);
      var T := ArgsCode(args.tail, A.cgt, A.lab);
      var q := Q1(Arg, ANone, A.res);
      var at := pos + |A.code|;
      WithinSplit(p, pos, A.code + [q], T.code);
      LastQuad(p, pos, A.code, q);
      PrefixLevel(busy, p, pos, args.head, c, l, A.code + [q]);
      LeveledSame(busy, p, pos, A);
      OpenedSteps(s, [], GenAt(busy, p, at), n);
      CallQuad(busy, p, at);
      ArgsLevel(busy, p, at + 1, args.tail, A.cgt, A.lab, s, n + 1);
      JumpsJoin(busy, p, pos, at, at + 1);
      JumpsJoin(busy, p, pos, at + 1, at + 1 + |T.code|);
    }
  }

  lemma LeveledSame(busy: Busy, p: Code, pos: nat, E: Emitted)
    requires ExprLeveled(busy, p, pos, E)
    ensures JumpsLevel(busy, p, pos, pos + |E.code|) && GenAt(busy, p, pos + |E.code|) == GenAt(busy, p, pos)
  {
  }
}
