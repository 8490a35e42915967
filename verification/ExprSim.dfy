/** Running the code of an expression computes the expression. */
module ExprSim {
  import opened Words
  import opened Ast
  import opened Quads
  import opened Emit
  import opened Operators

  /** What stays fixed while one expression runs. */
  datatype Ctx = Ctx(env: Env, p: Code, frames: seq<seq<Val>>)

  datatype Mem = Mem(temps: Temps, store: Store)

  function StateAt(x: Ctx, i: nat, m: Mem): State
  {
    State(i, m.temps, m.store, x.frames)
  }

  ghost predicate Reaches(env: Env, p: Code, s: State, s': State)
  {
    exists n: nat :: Run(env, p, s, n) == At(s')
  }

  ghost predicate Goes(x: Ctx, i: nat, m: Mem, j: nat, m': Mem)
  {
    Reaches(x.env, x.p, StateAt(x, i, m), StateAt(x, j, m'))
  }

  lemma Step1(env: Env, p: Code, s: State, s': State)
    requires Step(env, p, s) == At(s')
    ensures Reaches(env, p, s, s')
  {
    assert Run(env, p, s', 0) == At(s');
    assert Run(env, p, s, 1) == At(s');
  }

  lemma Trans(env: Env, p: Code, s: State, s1: State, s2: State)
    requires Reaches(env, p, s, s1) && Reaches(env, p, s1, s2)
    ensures Reaches(env, p, s, s2)
  {
    var m: nat :| Run(env, p, s, m) == At(s1);
    var n: nat :| Run(env, p, s1, n) == At(s2);
    RunAdd(env, p, s, m, n);
  }

  lemma Then(x: Ctx, i: nat, m: Mem, j: nat, m1: Mem, k: nat, m2: Mem)
    requires Goes(x, i, m, j, m1) && Goes(x, j, m1, k, m2)
    ensures Goes(x, i, m, k, m2)
  {
    Trans(x.env, x.p, StateAt(x, i, m), StateAt(x, j, m1), StateAt(x, k, m2));
  }

  /** One more quad after a stretch already run. */
  lemma StepAfter(x: Ctx, i: nat, m: Mem, j: nat, m1: Mem, k: nat, m2: Mem)
    requires Goes(x, i, m, j, m1) && Step(x.env, x.p, StateAt(x, j, m1)) == At(StateAt(x, k, m2))
    ensures Goes(x, i, m, k, m2)
  {
    Step1(x.env, x.p, StateAt(x, j, m1), StateAt(x, k, m2));
    Then(x, i, m, j, m1, k, m2);
  }

  lemma Stay(x: Ctx, i: nat, m: Mem)
    ensures Goes(x, i, m, i, m)
  {
    assert Run(x.env, x.p, StateAt(x, i, m), 0) == At(StateAt(x, i, m));
  }

  function Put(m: Mem, t: nat, v: Val): Mem
  {
    m.(temps := m.temps[t := v])
  }

  lemma CopyAfter(x: Ctx, i: nat, m: Mem, j: nat, m1: Mem, r: nat, a: Operand)
    requires Goes(x, i, m, j, m1) && j < |x.p| && x.p[j] == Q1(Copy, ATemp(r), a)
    ensures Goes(x, i, m, j + 1, Put(m1, r, Read(a, m1.temps, m1.store)))
  {
    StepAfter(x, i, m, j, m1, j + 1, Put(m1, r, Read(a, m1.temps, m1.store)));
  }

  lemma GotoAfter(x: Ctx, i: nat, m: Mem, j: nat, m1: Mem, l: nat, k: nat)
    requires Goes(x, i, m, j, m1) && j < |x.p| && x.p[j] == Goto(l) && FindLabel(x.p, l, 0) == Some(k)
    ensures Goes(x, i, m, k, m1)
  {
    StepAfter(x, i, m, j, m1, k, m1);
  }

  lemma LabelAfter(x: Ctx, i: nat, m: Mem, j: nat, m1: Mem)
    requires Goes(x, i, m, j, m1) && j < |x.p| && x.p[j].Label?
    ensures Goes(x, i, m, j + 1, m1)
  {
    StepAfter(x, i, m, j, m1, j + 1, m1);
  }

  /** q is a conditional jump to l that is taken exactly if t. */
  ghost predicate Decides(q: Quad, l: nat, m: Mem, t: bool)
  {
    && q.Quad? && q.res == ALabel(l) && IsCondJump(q.op)
    && Condition(q.op, Read(q.arg1, m.temps, m.store), Read(q.arg2, m.temps, m.store)) == Some(t)
  }

  lemma CondAfter(x: Ctx, i: nat, m: Mem, j: nat, m1: Mem, l: nat, k: nat, t: bool)
    requires Goes(x, i, m, j, m1) && j < |x.p| && Decides(x.p[j], l, m1, t)
    requires FindLabel(x.p, l, 0) == Some(k)
    ensures Goes(x, i, m, if t then k else j + 1, m1)
  {
    StepAfter(x, i, m, j, m1, if t then k else j + 1, m1);
  }

  /** The temporaries up to number c are the same. */
  ghost predicate Agree(c: nat, a: Temps, b: Temps)
  {
    forall t: nat :: t <= c ==> Get(a, t) == Get(b, t)
  }

  lemma AgreePut(c: nat, a: Temps, b: Temps, t: nat, v: Val)
    requires Agree(c, a, b) && c < t
    ensures Agree(c, a, b[t := v])
  {
  }

  /** The code E at pos takes the machine past itself, leaving v in its result and the
      temporaries up to c untouched. */
  ghost predicate Computes(x: Ctx, pos: nat, E: Emitted, c: nat, m: Mem, v: Val, m': Mem)
  {
    && Goes(x, pos, m, pos + |E.code|, m')
    && Read(E.res, m'.temps, m'.store) == v
    && Agree(c, m.temps, m'.temps)
  }

  lemma QuadAt(p: Code, pos: nat, a: Code, q: Quad, b: Code)
    requires Within(p, pos, a + [q] + b)
    ensures pos + |a| < |p| && p[pos + |a|] == q
    ensures Within(p, pos, a) && Within(p, pos + |a| + 1, b)
  {
    WithinSplit(p, pos, a + [q], b);
    WithinSplit(p, pos, a, [q]);
    assert p[pos + |a|] == p[pos + |a|..pos + |a| + 1][0];
  }

  lemma LastQuad(p: Code, pos: nat, a: Code, q: Quad)
    requires Within(p, pos, a + [q])
    ensures pos + |a| < |p| && p[pos + |a|] == q && Within(p, pos, a)
  {
    assert a + [q] + [] == a + [q];
    QuadAt(p, pos, a, q, []);
  }

  // ----- code of a construct, given that the code of its parts works -----

  lemma SettleQuads(p: Code, pos: nat, r: nat, v: Word, here: nat, next: nat)
    requires v <= 1 && UniqueLabels(p) && Within(p, pos, Settle(ATemp(r), v, here, next))
    ensures pos + 5 <= |p| && p[pos] == CopyConst(ATemp(r), v) && p[pos + 1] == Goto(next)
    ensures p[pos + 2] == Label(here) && p[pos + 3] == CopyConst(ATemp(r), 1 - v) && p[pos + 4] == Label(next)
    ensures FindLabel(p, here, 0) == Some(pos + 2) && FindLabel(p, next, 0) == Some(pos + 4)
  {
    var code := Settle(ATemp(r), v, here, next);
    WithinAt(p, pos, code, 0);
    WithinAt(p, pos, code, 1);
    WithinAt(p, pos, code, 2);
    WithinAt(p, pos, code, 3);
    WithinAt(p, pos, code, 4);
    LabelAt(p, pos + 2, here);
    LabelAt(p, pos + 4, next);
  }

  /** Both ways into the tail that settles a truth value. */
  lemma SettleRuns(x: Ctx, pos: nat, r: nat, v: Word, here: nat, next: nat, m: Mem)
    requires v <= 1 && UniqueLabels(x.p) && Within(x.p, pos, Settle(ATemp(r), v, here, next))
    ensures Goes(x, pos, m, pos + 5, Put(m, r, Num(v)))
    ensures Goes(x, pos + 2, m, pos + 5, Put(m, r, Num(1 - v)))
    ensures FindLabel(x.p, here, 0) == Some(pos + 2)
  {
    hide Goes, Within;
    SettleQuads(x.p, pos, r, v, here, next);
    Stay(x, pos, m);
    CopyAfter(x, pos, m, pos, m, r, AConst(v));
    GotoAfter(x, pos, m, pos + 1, Put(m, r, Num(v)), next, pos + 4);
    LabelAfter(x, pos, m, pos + 4, Put(m, r, Num(v)));
    Stay(x, pos + 2, m);
    LabelAfter(x, pos + 2, m, pos + 2, m);
    CopyAfter(x, pos + 2, m, pos + 3, m, r, AConst(1 - v));
    LabelAfter(x, pos + 2, m, pos + 4, Put(m, r, Num(1 - v)));
  }

  /** A body that ends in a conditional jump to the settling tail: falling through gives v,
      jumping gives 1 - v. */
  lemma SettleGlue(x: Ctx, pos: nat, body: Code, c: nat, c0: nat, l: nat, lab: nat, v: Word, jumped: bool,
                   m: Mem, m1: Mem) returns (m': Mem)
    requires v <= 1 && UniqueLabels(x.p) && c0 <= c
    requires Within(x.p, pos, SettleAfter(body, c, l, lab, v).code)
    requires Agree(c0, m.temps, m1.temps)
    requires Goes(x, pos, m, pos + |body| + if jumped then 2 else 0, m1)
    ensures var b := if jumped then 1 - v else v;
            Computes(x, pos, SettleAfter(body, c, l, lab, v), c0, m, Num(b), m')
    ensures m'.store == m1.store
  {
    hide Goes, Within;
    var at := pos + |body|;
    WithinSplit(x.p, pos, body, Settle(ATemp(c + 1), v, l + 1, l + 2));
    SettleRuns(x, at, c + 1, v, l + 1, l + 2, m1);
    m' := Put(m1, c + 1, Num(if jumped then 1 - v else v));
    Then(x, pos, m, at + if jumped then 2 else 0, m1, at + 5, m');
  }

  /** Where the label of the settling tail is. */
  lemma SettleLabel(p: Code, pos: nat, body: Code, c: nat, l: nat, lab: nat, v: Word)
    requires v <= 1 && UniqueLabels(p) && Within(p, pos, SettleAfter(body, c, l, lab, v).code)
    ensures Within(p, pos, body) && FindLabel(p, l + 1, 0) == Some(pos + |body| + 2)
  {
    hide Goes, Within;
    WithinSplit(p, pos, body, Settle(ATemp(c + 1), v, l + 1, l + 2));
    SettleQuads(p, pos + |body|, c + 1, v, l + 1, l + 2);
  }

  lemma NotGlue(x: Ctx, pos: nat, A: Emitted, c: nat, l: nat, m: Mem, v: Val, m1: Mem) returns (m': Mem)
    requires UniqueLabels(x.p) && Within(x.p, pos, NotCode(A, l).code) && FreshResult(A, c, l + 2)
    requires Computes(x, pos, A, c, m, v, m1)
    ensures Computes(x, pos, NotCode(A, l), c, m, Flag(v == Num(0)), m') && m'.store == m1.store
  {
    hide Goes, Within;
    var jump := JumpZero(l + 1, A.res);
    var at := pos + |A.code|;
    SettleLabel(x.p, pos, A.code + [jump], A.cgt, l, A.lab, 0);
    LastQuad(x.p, pos, A.code, jump);
    CondAfter(x, pos, m, at, m1, l + 1, at + 3, v == Num(0));
    m' := SettleGlue(x, pos, A.code + [jump], A.cgt, c, l, A.lab, 0, v == Num(0), m, m1);
  }

  lemma UnaryGlue(x: Ctx, pos: nat, k: UnaryKind, A: Emitted, c: nat, l: nat, m: Mem, w: Word, m1: Mem)
    returns (m': Mem)
    requires Within(x.p, pos, UnaryCode(k, A).code) && FreshResult(A, c, l)
    requires Computes(x, pos, A, c, m, Num(w), m1)
    ensures Computes(x, pos, UnaryCode(k, A), c, m, UnVal(UnOf(k), Num(w)), m') && m'.store == m1.store
  {
    hide Goes, Within;
    var q := Q1(Un(UnOf(k)), A.res, A.res);
    LastQuad(x.p, pos, A.code, q);
    m' := Put(m1, A.res.t, UnVal(UnOf(k), Num(w)));
    StepAfter(x, pos, m, pos + |A.code|, m1, pos + |A.code| + 1, m');
  }

  lemma FreshGlue(x: Ctx, pos: nat, op: Op, A: Emitted, c: nat, l: nat, m: Mem, v: Val, r: Val, m1: Mem)
    returns (m': Mem)
    requires Within(x.p, pos, FreshCode(op, A).code) && FreshResult(A, c, l)
    requires Computes(x, pos, A, c, m, v, m1)
    requires (op == Copy && r == v) || (op.OpCast? && r == CastVal(op.to, v))
             || (op == OpDeref && v.Addr? && r == Load(m1.store, v.name))
    ensures Computes(x, pos, FreshCode(op, A), c, m, r, m') && m'.store == m1.store
  {
    hide Goes, Within;
    LastQuad(x.p, pos, A.code, Q1(op, ATemp(A.cgt + 1), A.res));
    m' := Put(m1, A.cgt + 1, r);
    StepAfter(x, pos, m, pos + |A.code|, m1, pos + |A.code| + 1, m');
  }

  /** The value of a first operand is still there after the second has been computed. */
  lemma BothGlue(x: Ctx, pos: nat, A: Emitted, B: Emitted, c: nat, l: nat,
                 m: Mem, u: Val, m1: Mem, v: Val, m2: Mem)
    requires FreshResult(A, c, l)
    requires Computes(x, pos, A, c, m, u, m1) && Computes(x, pos + |A.code|, B, A.cgt, m1, v, m2)
    ensures Computes(x, pos, B.(code := Both(A, B)), c, m, v, m2)
    ensures Read(A.res, m2.temps, m2.store) == u
  {
    hide Goes, Within;
    var at := pos + |A.code|;
    Then(x, pos, m, at, m1, at + |B.code|, m2);
  }

  lemma ArithGlue(x: Ctx, pos: nat, k: ArithKind, A: Emitted, B: Emitted, c: nat, l: nat,
                  m: Mem, u: Val, m1: Mem, v: Val, m2: Mem, r: Val) returns (m': Mem)
    requires Within(x.p, pos, ArithCode(k, A, B).code) && FreshResult(A, c, l)
    requires Computes(x, pos, A, c, m, u, m1) && Computes(x, pos + |A.code|, B, A.cgt, m1, v, m2)
    requires A.res.ATemp? && AluVal(AluOf(k), u, v) == Some(r)
    ensures Computes(x, pos, ArithCode(k, A, B), c, m, r, m') && m'.store == m2.store
  {
    hide Goes, Within, Agree;
    BothGlue(x, pos, A, B, c, l, m, u, m1, v, m2);
    var q := Quad(Alu(AluOf(k)), A.res, A.res, B.res);
    LastQuad(x.p, pos, Both(A, B), q);
    m' := Put(m2, A.res.t, r);
    var at := pos + |Both(A, B)|;
    AgreePut(c, m.temps, m2.temps, A.res.t, r);
    StepAfter(x, pos, m, at, m2, at + 1, m');
  }

  lemma RelateGlue(x: Ctx, pos: nat, k: RelKind, A: Emitted, B: Emitted, c: nat, l: nat,
                   m: Mem, u: Val, m1: Mem, v: Val, m2: Mem, t: bool) returns (m': Mem)
    requires UniqueLabels(x.p) && Within(x.p, pos, RelateCode(k, A, B, l).code)
    requires FreshResult(A, c, l + 2) && FreshResult(B, A.cgt, A.lab)
    requires Computes(x, pos, A, c, m, u, m1) && Computes(x, pos + |A.code|, B, A.cgt, m1, v, m2)
    requires JumpTaken(JumpOf(k), u, v) == Some(t)
    ensures Computes(x, pos, RelateCode(k, A, B, l), c, m, Flag(t), m') && m'.store == m2.store
  {
    hide Goes, Within;
    BothGlue(x, pos, A, B, c, l + 2, m, u, m1, v, m2);
    var jump := Quad(CJump(JumpOf(k)), ALabel(l + 1), A.res, B.res);
    var at := pos + |Both(A, B)|;
    SettleLabel(x.p, pos, Both(A, B) + [jump], B.cgt, l, B.lab, 0);
    LastQuad(x.p, pos, Both(A, B), jump);
    CondAfter(x, pos, m, at, m2, l + 1, at + 3, t);
    m' := SettleGlue(x, pos, Both(A, B) + [jump], B.cgt, c, l, B.lab, 0, t, m, m2);
  }

  /** A first operand that already decides an `||` or `&&`. */
  lemma DecidedGlue(x: Ctx, pos: nat, isOr: bool, A: Emitted, B: Emitted, c: nat, l: nat, m: Mem, u: Val, m1: Mem)
    returns (m': Mem)
    requires UniqueLabels(x.p) && Within(x.p, pos, LogicCode(isOr, A, B, l).code)
    requires FreshResult(A, c, l + 2) && FreshResult(B, A.cgt, A.lab)
    requires Computes(x, pos, A, c, m, u, m1) && (u != Num(0)) == isOr
    ensures Computes(x, pos, LogicCode(isOr, A, B, l), c, m, Flag(isOr), m') && m'.store == m1.store
  {
    hide Goes, Within;
    var j1, j2 := LogicJump(isOr, l + 1, A.res), LogicJump(isOr, l + 1, B.res);
    var v: Word := if isOr then 0 else 1;
    var body := A.code + [j1] + B.code + [j2];
    SettleLabel(x.p, pos, body, B.cgt, l, B.lab, v);
    assert body == A.code + [j1] + (B.code + [j2]);
    QuadAt(x.p, pos, A.code, j1, B.code + [j2]);
    CondAfter(x, pos, m, pos + |A.code|, m1, l + 1, pos + |body| + 2, true);
    m' := SettleGlue(x, pos, body, B.cgt, c, l, B.lab, v, true, m, m1);
  }

  /** An `||` or `&&` that needs its second operand. */
  lemma UndecidedGlue(x: Ctx, pos: nat, isOr: bool, A: Emitted, B: Emitted, c: nat, l: nat, m: Mem, u: Val, m1: Mem,
                      v: Val, m2: Mem) returns (m': Mem)
    requires UniqueLabels(x.p) && Within(x.p, pos, LogicCode(isOr, A, B, l).code)
    requires FreshResult(A, c, l + 2) && FreshResult(B, A.cgt, A.lab)
    requires Computes(x, pos, A, c, m, u, m1) && (u != Num(0)) != isOr
    requires Computes(x, pos + |A.code| + 1, B, A.cgt, m1, v, m2)
    ensures Computes(x, pos, LogicCode(isOr, A, B, l), c, m, Flag(v != Num(0)), m') && m'.store == m2.store
  {
    hide Goes, Within;
    var j1, j2 := LogicJump(isOr, l + 1, A.res), LogicJump(isOr, l + 1, B.res);
    var w: Word := if isOr then 0 else 1;
    var body := A.code + [j1] + B.code + [j2];
    var at := pos + |A.code|;
    var end := at + 1 + |B.code|;
    var t := (v != Num(0)) == isOr;
    SettleLabel(x.p, pos, body, B.cgt, l, B.lab, w);
    LastQuad(x.p, pos, A.code + [j1] + B.code, j2);
    QuadAt(x.p, pos, A.code, j1, B.code);
    CondAfter(x, pos, m, at, m1, l + 1, end + 3, false);
    Then(x, pos, m, at + 1, m1, end, m2);
    CondAfter(x, pos, m, end, m2, l + 1, end + 3, t);
    m' := SettleGlue(x, pos, body, B.cgt, c, l, B.lab, w, t, m, m2);
  }

  /** Where the operands of `||` and `&&` lie. */
  lemma LogicWithin(p: Code, pos: nat, isOr: bool, A: Emitted, B: Emitted, l: nat)
    requires Within(p, pos, LogicCode(isOr, A, B, l).code)
    ensures Within(p, pos, A.code) && Within(p, pos + |A.code| + 1, B.code)
  {
    hide Within;
    var j1 := LogicJump(isOr, l + 1, A.res);
    PrefixWithin(p, pos, A.code + [j1] + B.code, LogicCode(isOr, A, B, l).code);
    QuadAt(p, pos, A.code, j1, B.code);
  }

  lemma AssignGlue(x: Ctx, pos: nat, A: Emitted, B: Emitted, c: nat, l: nat,
                   m: Mem, n: string, m1: Mem, v: Val, m2: Mem) returns (m': Mem)
    requires Within(x.p, pos, AssignCode(A, B).code) && FreshResult(A, c, l) && FreshResult(B, A.cgt, A.lab)
    requires A.res.ATemp?
    requires Computes(x, pos, A, c, m, Addr(n), m1) && Computes(x, pos + |A.code|, B, A.cgt, m1, v, m2)
    ensures Computes(x, pos, AssignCode(A, B), c, m, v, m') && m'.store == m2.store[n := v]
  {
    hide Goes, Within;
    BothGlue(x, pos, A, B, c, l, m, Addr(n), m1, v, m2);
    var put, copy := Q1(DerefCopy, A.res, B.res), Q1(Copy, ATemp(B.cgt + 1), B.res);
    LastQuad(x.p, pos, Both(A, B) + [put], copy);
    LastQuad(x.p, pos, Both(A, B), put);
    var at := pos + |Both(A, B)|;
    var m3 := m2.(store := m2.store[n := v]);
    StepAfter(x, pos, m, at, m2, at + 1, m3);
    m' := Put(m3, B.cgt + 1, v);
    StepAfter(x, pos, m, at + 1, m3, at + 2, m');
  }

  lemma SixParts(p: Code, pos: nat, a: Code, b: Code, c: Code, d: Code, e: Code, f: Code)
    requires Within(p, pos, a + b + c + d + e + f)
    ensures Within(p, pos, a) && Within(p, pos + |a|, b) && Within(p, pos + |a| + |b|, c)
    ensures Within(p, pos + |a| + |b| + |c|, d) && Within(p, pos + |a| + |b| + |c| + |d|, e)
    ensures Within(p, pos + |a| + |b| + |c| + |d| + |e|, f)
  {
    hide Within;
    WithinSplit(p, pos, a + b + c + d + e, f);
    WithinSplit(p, pos, a + b + c + d, e);
    WithinSplit(p, pos, a + b + c, d);
    WithinSplit(p, pos, a + b, c);
    WithinSplit(p, pos, a, b);
  }

  lemma TernaryLayout(p: Code, pos: nat, X: Emitted, N: Emitted, Y: Emitted, l: nat)
    requires UniqueLabels(p) && Within(p, pos, TernaryCode(X, N, Y, l).code)
    ensures var r, at := ATemp(X.cgt + 1), pos + |X.code|;
            var i, j := at + 1 + |N.code|, at + 4 + |N.code| + |Y.code|;
            && Within(p, pos, X.code) && Within(p, at + 1, N.code) && Within(p, i + 3, Y.code) && j + 2 <= |p|
            && p[at] == JumpTrue(l + 1, X.res)
            && p[i] == Q1(Copy, r, N.res) && p[i + 1] == Goto(l + 2) && p[i + 2] == Label(l + 1)
            && p[j] == Q1(Copy, r, Y.res) && p[j + 1] == Label(l + 2)
            && FindLabel(p, l + 1, 0) == Some(i + 2) && FindLabel(p, l + 2, 0) == Some(j + 1)
            && pos + |TernaryCode(X, N, Y, l).code| == j + 2
  {
    hide Within, FindLabel, UniqueLabels;
    var r := ATemp(X.cgt + 1);
    var mid := [Q1(Copy, r, N.res), Goto(l + 2), Label(l + 1)];
    var tail := [Q1(Copy, r, Y.res), Label(l + 2)];
    var at := pos + |X.code|;
    var i, j := at + 1 + |N.code|, at + 4 + |N.code| + |Y.code|;
    SixParts(p, pos, X.code, [JumpTrue(l + 1, X.res)], N.code, mid, Y.code, tail);
    WithinAt(p, at, [JumpTrue(l + 1, X.res)], 0);
    WithinAt(p, i, mid, 0);
    WithinAt(p, i, mid, 1);
    WithinAt(p, i, mid, 2);
    WithinAt(p, j, tail, 0);
    WithinAt(p, j, tail, 1);
    LabelAt(p, i + 2, l + 1);
    LabelAt(p, j + 1, l + 2);
  }

  lemma TernaryGlue(x: Ctx, pos: nat, X: Emitted, N: Emitted, Y: Emitted, c: nat, l: nat,
                    m: Mem, u: Val, m1: Mem, v: Val, m2: Mem) returns (m': Mem)
    requires UniqueLabels(x.p) && Within(x.p, pos, TernaryCode(X, N, Y, l).code) && FreshResult(X, c, l + 2)
    requires FreshResult(N, X.cgt + 1, X.lab) && FreshResult(Y, N.cgt, N.lab)
    requires Computes(x, pos, X, c, m, u, m1)
    requires var at := pos + |X.code|;
             if u == Num(0) then Computes(x, at + 1, N, X.cgt + 1, m1, v, m2)
             else Computes(x, at + 4 + |N.code|, Y, N.cgt, m1, v, m2)
    ensures Computes(x, pos, TernaryCode(X, N, Y, l), c, m, v, m') && m'.store == m2.store
  {
    hide Goes, Within;
    TernaryLayout(x.p, pos, X, N, Y, l);
    var at := pos + |X.code|;
    var i, j := at + 1 + |N.code|, at + 4 + |N.code| + |Y.code|;
    m' := Put(m2, X.cgt + 1, v);
    CondAfter(x, pos, m, at, m1, l + 1, i + 2, u != Num(0));
    if u == Num(0) {
      Then(x, pos, m, at + 1, m1, i, m2);
      CopyAfter(x, pos, m, i, m2, X.cgt + 1, N.res);
      GotoAfter(x, pos, m, i + 1, m', l + 2, j + 1);
    } else {
      LabelAfter(x, pos, m, i + 2, m1);
      Then(x, pos, m, i + 3, m1, j, m2);
      CopyAfter(x, pos, m, j, m2, X.cgt + 1, Y.res);
    }
    LabelAfter(x, pos, m, j + 1, m');
  }

  lemma CallGlue(x: Ctx, pos: nat, A: Emitted, F: Emitted, isVoid: bool, count: Word, c: nat, l: nat, m: Mem,
                 vs: seq<Val>, m1: Mem, g: string, m2: Mem, v: Val, s3: Store) returns (m': Mem)
    requires Within(x.p, pos, CallCode(A, F, isVoid, count).code)
    requires c <= A.cgt && FreshResult(F, A.cgt, l)
    requires Reaches(x.env, x.p, StateAt(x.(frames := x.frames + [[]]), pos + 1, m),
                     StateAt(x.(frames := x.frames + [vs]), pos + 1 + |A.code|, m1))
    requires Agree(c, m.temps, m1.temps)
    requires Computes(x.(frames := x.frames + [vs]), pos + 1 + |A.code|, F, A.cgt, m1, Fn(g), m2)
    requires x.env(g, vs, m2.store) == Some((v, s3))
    ensures Computes(x, pos, CallCode(A, F, isVoid, count), c, m, if isVoid then Void else v, m') && m'.store == s3
  {
    hide Within, Reaches;
    var E := CallCode(A, F, isVoid, count);
    var hint := Q1(HintCall, E.res, ANone);
    var call := Quad(if isVoid then PCall else FCall, E.res, F.res, AConst(count));
    LastQuad(x.p, pos, [hint] + A.code + F.code, call);
    assert [hint] + A.code + F.code == [] + [hint] + (A.code + F.code);
    QuadAt(x.p, pos, [], hint, A.code + F.code);
    var end := pos + 1 + |A.code| + |F.code|;
    var y := x.(frames := x.frames + [vs]);
    var start := StateAt(x, pos, m);
    var first := StateAt(x.(frames := x.frames + [[]]), pos + 1, m);
    m' := Mem(SetTemp(E.res, v, m2.temps), s3);
    assert y.frames[..|y.frames| - 1] == x.frames;
    Step1(x.env, x.p, start, first);
    Step1(x.env, x.p, StateAt(y, end, m2), StateAt(x, end + 1, m'));
    Trans(x.env, x.p, start, first, StateAt(y, pos + 1 + |A.code|, m1));
    Trans(x.env, x.p, start, StateAt(y, pos + 1 + |A.code|, m1), StateAt(y, end, m2));
    Trans(x.env, x.p, start, StateAt(y, end, m2), StateAt(x, end + 1, m'));
  }

  /** One argument added to the innermost frame. */
  lemma ArgGlue(x: Ctx, pos: nat, A: Emitted, frames: seq<seq<Val>>, done: seq<Val>, m: Mem, v: Val, m1: Mem)
    requires x.frames == frames + [done]
    requires Within(x.p, pos, A.code + [Q1(Arg, ANone, A.res)])
    requires Goes(x, pos, m, pos + |A.code|, m1) && Read(A.res, m1.temps, m1.store) == v
    ensures Reaches(x.env, x.p, StateAt(x, pos, m),
                    StateAt(x.(frames := frames + [done + [v]]), pos + |A.code| + 1, m1))
  {
    hide Within, Reaches;
    LastQuad(x.p, pos, A.code, Q1(Arg, ANone, A.res));
    var y := x.(frames := frames + [done + [v]]);
    assert x.frames[|frames| := done + [v]] == y.frames;
    Step1(x.env, x.p, StateAt(x, pos + |A.code|, m1), StateAt(y, pos + |A.code| + 1, m1));
    Trans(x.env, x.p, StateAt(x, pos, m), StateAt(x, pos + |A.code|, m1), StateAt(y, pos + |A.code| + 1, m1));
  }

  // ----- every expression -----

  /** What is proved of an expression at one place of a program. */
  ghost predicate Correct(x: Ctx, pos: nat, e: Expr, c: nat, l: nat, m: Mem, m': Mem)
    requires EvalExpr(x.env, e, m.store).Some?
  {
    var (v, s) := EvalExpr(x.env, e, m.store).value;
    Computes(x, pos, ExprCode(e, c, l), c, m, v, m') && m'.store == s
  }

  lemma PrefixWithin(p: Code, pos: nat, a: Code, c: Code)
    requires Within(p, pos, c) && a <= c
    ensures Within(p, pos, a)
  {
    WithinSplit(p, pos, a, c[|a|..]);
  }

  lemma PairWithin(p: Code, pos: nat, A: Emitted, B: Emitted, c: Code)
    requires Within(p, pos, c) && Both(A, B) <= c
    ensures Within(p, pos, A.code) && Within(p, pos + |A.code|, B.code)
  {
    PrefixWithin(p, pos, Both(A, B), c);
    WithinSplit(p, pos, A.code, B.code);
  }

  lemma {:induction false} ExprRuns(x: Ctx, pos: nat, e: Expr, c: nat, l: nat, m: Mem) returns (m': Mem)
    requires UniqueLabels(x.p) && Within(x.p, pos, ExprCode(e, c, l).code)
    requires EvalExpr(x.env, e, m.store).Some?
    ensures Correct(x, pos, e, c, l, m, m')
    decreases e, 1
  {
    hide Goes, Within, UniqueLabels;
    match e
    case Const(n) =>
      WithinAt(x.p, pos, ExprCode(e, c, l).code, 0);
      Stay(x, pos, m);
      CopyAfter(x, pos, m, pos, m, c + 1, AConst(ToWord(n)));
      m' := Put(m, c + 1, Num(ToWord(n)));
    case Ident(n, isFn) =>
      WithinAt(x.p, pos, ExprCode(e, c, l).code, 0);
      Stay(x, pos, m);
      CopyAfter(x, pos, m, pos, m, c + 1, AName(n, isFn));
      m' := Put(m, c + 1, ReadName(m.store, n, isFn));
    case Not(_) => m' := PrefixRuns(x, pos, e, c, l, m);
    case Unary(_, _) => m' := PrefixRuns(x, pos, e, c, l, m);
    case Cast(_, _) => m' := PrefixRuns(x, pos, e, c, l, m);
    case Ref(a) => m' := PlaceRuns(x, pos, a, c, l, m);
    case Deref(_) => m' := PrefixRuns(x, pos, e, c, l, m);
    case Arith(_, _, _) => m' := InfixRuns(x, pos, e, c, l, m);
    case Relate(_, _, _) => m' := InfixRuns(x, pos, e, c, l, m);
    case Or(_, _) => m' := LogicRuns(x, pos, e, c, l, m);
    case And(_, _) => m' := LogicRuns(x, pos, e, c, l, m);
    case Assign(_, _) => m' := InfixRuns(x, pos, e, c, l, m);
    case Comma(_, _) => m' := InfixRuns(x, pos, e, c, l, m);
    case Ternary(_, _, _) => m' := TernaryRuns(x, pos, e, c, l, m);
    case Call(_, _, _) => m' := CallRuns(x, pos, e, c, l, m);
  }

  lemma {:induction false} PlaceRuns(x: Ctx, pos: nat, e: Expr, c: nat, l: nat, m: Mem) returns (m': Mem)
    requires UniqueLabels(x.p) && Within(x.p, pos, PlaceCode(e, c, l).code)
    requires EvalPlace(x.env, e, m.store).Some?
    ensures var (v, s) := EvalPlace(x.env, e, m.store).value;
            Computes(x, pos, PlaceCode(e, c, l), c, m, v, m') && m'.store == s
    decreases e, 2
  {
    hide Goes, Within, UniqueLabels;
    match e
    case Ident(n, isFn) =>
      WithinAt(x.p, pos, PlaceCode(e, c, l).code, 0);
      Stay(x, pos, m);
      m' := Put(m, c + 1, Addr(n));
      StepAfter(x, pos, m, pos, m, pos + 1, m');
    case Deref(a) =>
      var A := ExprCode(a, c, l);
      PrefixWithin(x.p, pos, A.code, PlaceCode(e, c, l).code);
      var m1 := ExprRuns(x, pos, a, c, l, m);
      var v := EvalExpr(x.env, a, m.store).value.0;
      m' := FreshGlue(x, pos, Copy, A, c, l, m, v, v, m1);
    case Call(_, _, _) =>
      m' := ExprRuns(x, pos, e, c, l, m);
  }

  /** Constructs with one operand. */
  lemma {:induction false} PrefixRuns(x: Ctx, pos: nat, e: Expr, c: nat, l: nat, m: Mem) returns (m': Mem)
    requires e.Not? || e.Unary? || e.Cast? || e.Deref?
    requires UniqueLabels(x.p) && Within(x.p, pos, ExprCode(e, c, l).code)
    requires EvalExpr(x.env, e, m.store).Some?
    ensures Correct(x, pos, e, c, l, m, m')
    decreases e, 0
  {
    hide Goes, Within, UniqueLabels, Agree;
    var l' := if e.Not? then l + 2 else l;
    var A := ExprCode(e.arg, c, l');
    var (v, s1) := EvalExpr(x.env, e.arg, m.store).value;
    PrefixWithin(x.p, pos, A.code, ExprCode(e, c, l).code);
    var m1 := ExprRuns(x, pos, e.arg, c, l', m);
    match e
    case Not(_) =>
      m' := NotGlue(x, pos, A, c, l, m, v, m1);
    case Unary(k, _) =>
      UnaryAgrees(k, v.w);
      m' := UnaryGlue(x, pos, k, A, c, l, m, v.w, m1);
    case Cast(t, _) =>
      CastAgrees(t, v);
      m' := FreshGlue(x, pos, OpCast(t), A, c, l, m, v, CastVal(t, v), m1);
    case Deref(_) =>
      var P := FreshCode(Copy, A);
      PrefixWithin(x.p, pos, P.code, ExprCode(e, c, l).code);
      var m2 := FreshGlue(x, pos, Copy, A, c, l, m, v, v, m1);
      m' := FreshGlue(x, pos, OpDeref, P, c, l, m, v, Load(s1, v.name), m2);
  }

  /** The operands of a construct that evaluates both. */
  lemma InfixParts(env: Env, e: Expr, s: Store)
    requires e.Arith? || e.Relate? || e.Assign? || e.Comma?
    requires EvalExpr(env, e, s).Some?
    ensures var L := if e.Assign? then EvalPlace(env, e.left, s) else EvalExpr(env, e.left, s);
            && L.Some?
            && var R := EvalExpr(env, e.right, L.value.1);
            && R.Some?
            && var (u, v, s2) := (L.value.0, R.value.0, R.value.1);
            && match e
               case Arith(k, _, _) => EvalArith(k, u, v).Some?
                   && EvalExpr(env, e, s) == Some((EvalArith(k, u, v).value, s2))
               case Relate(k, _, _) => EvalRel(k, u, v).Some?
                   && EvalExpr(env, e, s) == Some((Flag(EvalRel(k, u, v).value), s2))
               case Assign(_, _) => u.Addr? && EvalExpr(env, e, s) == Some((v, s2[u.name := v]))
               case _ => EvalExpr(env, e, s) == Some((v, s2))
  {
  }

  /** Constructs with two operands that are both always evaluated. */
  lemma InfixCode(e: Expr, c: nat, l: nat)
    requires e.Arith? || e.Relate? || e.Assign? || e.Comma?
    ensures var A := if e.Assign? then PlaceCode(e.left, c, l)
                     else ExprCode(e.left, c, if e.Relate? then l + 2 else l);
            var B := ExprCode(e.right, A.cgt, A.lab);
            && Both(A, B) <= ExprCode(e, c, l).code
            && ExprCode(e, c, l) == match e
                                    case Arith(k, _, _) => ArithCode(k, A, B)
                                    case Relate(k, _, _) => RelateCode(k, A, B, l)
                                    case Assign(_, _) => AssignCode(A, B)
                                    case _ => CommaCode(A, B)
  {
  }

  lemma {:induction false} InfixRuns(x: Ctx, pos: nat, e: Expr, c: nat, l: nat, m: Mem) returns (m': Mem)
    requires e.Arith? || e.Relate? || e.Assign? || e.Comma?
    requires UniqueLabels(x.p) && Within(x.p, pos, ExprCode(e, c, l).code)
    requires EvalExpr(x.env, e, m.store).Some?
    ensures Correct(x, pos, e, c, l, m, m')
    decreases e, 0
  {
    hide Goes, Within, UniqueLabels, Agree, ExprCode, PlaceCode, EvalExpr, EvalPlace, EvalRel;
    InfixParts(x.env, e, m.store);
    InfixCode(e, c, l);
    var l' := if e.Relate? then l + 2 else l;
    var A := if e.Assign? then PlaceCode(e.left, c, l) else ExprCode(e.left, c, l');
    var B := ExprCode(e.right, A.cgt, A.lab);
    PairWithin(x.p, pos, A, B, ExprCode(e, c, l).code);
    var m1: Mem;
    if e.Assign? {
      m1 := PlaceRuns(x, pos, e.left, c, l, m);
    } else {
      m1 := ExprRuns(x, pos, e.left, c, l', m);
    }
    var m2 := ExprRuns(x, pos + |A.code|, e.right, A.cgt, A.lab, m1);
    var u := (if e.Assign? then EvalPlace(x.env, e.left, m.store) else EvalExpr(x.env, e.left, m.store)).value.0;
    var v := EvalExpr(x.env, e.right, m1.store).value.0;
    match e
    case Arith(k, _, _) =>
      ArithAgrees(k, u, v);
      m' := ArithGlue(x, pos, k, A, B, c, l, m, u, m1, v, m2, EvalArith(k, u, v).value);
    case Relate(k, _, _) =>
      RelAgrees(k, u, v);
      m' := RelateGlue(x, pos, k, A, B, c, l, m, u, m1, v, m2, EvalRel(k, u, v).value);
    case Assign(_, _) =>
      m' := AssignGlue(x, pos, A, B, c, l, m, u.name, m1, v, m2);
    case Comma(_, _) =>
      BothGlue(x, pos, A, B, c, l, m, u, m1, v, m2);
      m' := FreshGlue(x, pos, Copy, B.(code := Both(A, B)), c, l, m, v, v, m2);
  }

  /** The parts of `||` and `&&`. */
  lemma LogicParts(env: Env, e: Expr, c: nat, l: nat, s: Store)
    requires e.Or? || e.And?
    ensures var A := ExprCode(e.left, c, l + 2);
            var B := ExprCode(e.right, A.cgt, A.lab);
            ExprCode(e, c, l) == LogicCode(e.Or?, A, B, l)
    ensures EvalExpr(env, e, s).Some? ==>
              var L := EvalExpr(env, e.left, s);
              && L.Some? && L.value.0 != Void
              && if (L.value.0 != Num(0)) == e.Or? then EvalExpr(env, e, s) == Some((Flag(e.Or?), L.value.1))
                 else var R := EvalExpr(env, e.right, L.value.1);
                      && R.Some? && R.value.0 != Void
                      && EvalExpr(env, e, s) == Some((Flag(R.value.0 != Num(0)), R.value.1))
  {
  }

  lemma {:induction false} LogicRuns(x: Ctx, pos: nat, e: Expr, c: nat, l: nat, m: Mem) returns (m': Mem)
    requires e.Or? || e.And?
    requires UniqueLabels(x.p) && Within(x.p, pos, ExprCode(e, c, l).code)
    requires EvalExpr(x.env, e, m.store).Some?
    ensures Correct(x, pos, e, c, l, m, m')
    decreases e, 0
  {
    hide Goes, Within, UniqueLabels, Agree, ExprCode, EvalExpr, LogicCode;
    LogicParts(x.env, e, c, l, m.store);
    var A := ExprCode(e.left, c, l + 2);
    var B := ExprCode(e.right, A.cgt, A.lab);
    LogicWithin(x.p, pos, e.Or?, A, B, l);
    var m1 := ExprRuns(x, pos, e.left, c, l + 2, m);
    var u := EvalExpr(x.env, e.left, m.store).value.0;
    if (u != Num(0)) == e.Or? {
      m' := DecidedGlue(x, pos, e.Or?, A, B, c, l, m, u, m1);
    } else {
      var m2 := ExprRuns(x, pos + |A.code| + 1, e.right, A.cgt, A.lab, m1);
      var v := EvalExpr(x.env, e.right, m1.store).value.0;
      m' := UndecidedGlue(x, pos, e.Or?, A, B, c, l, m, u, m1, v, m2);
    }
  }

  lemma TernaryParts(env: Env, e: Expr, c: nat, l: nat, s: Store)
    requires e.Ternary?
    ensures var X := ExprCode(e.cond, c, l + 2);
            var N := ExprCode(e.no, X.cgt + 1, X.lab);
            ExprCode(e, c, l) == TernaryCode(X, N, ExprCode(e.yes, N.cgt, N.lab), l)
    ensures EvalExpr(env, e, s).Some? ==>
              var X := EvalExpr(env, e.cond, s);
              && X.Some?
              && EvalExpr(env, e, s) == EvalExpr(env, if X.value.0 == Num(0) then e.no else e.yes, X.value.1)
  {
  }

  lemma {:induction false} TernaryRuns(x: Ctx, pos: nat, e: Expr, c: nat, l: nat, m: Mem) returns (m': Mem)
    requires e.Ternary?
    requires UniqueLabels(x.p) && Within(x.p, pos, ExprCode(e, c, l).code)
    requires EvalExpr(x.env, e, m.store).Some?
    ensures Correct(x, pos, e, c, l, m, m')
    decreases e, 0
  {
    hide Goes, Within, UniqueLabels, Agree, ExprCode, EvalExpr, TernaryCode;
    TernaryParts(x.env, e, c, l, m.store);
    var X := ExprCode(e.cond, c, l + 2);
    var N := ExprCode(e.no, X.cgt + 1, X.lab);
    var Y := ExprCode(e.yes, N.cgt, N.lab);
    TernaryLayout(x.p, pos, X, N, Y, l);
    var m1 := ExprRuns(x, pos, e.cond, c, l + 2, m);
    var u := EvalExpr(x.env, e.cond, m.store).value.0;
    var v := EvalExpr(x.env, e, m.store).value.0;
    var m2: Mem;
    if u == Num(0) {
      m2 := ExprRuns(x, pos + |X.code| + 1, e.no, X.cgt + 1, X.lab, m1);
    } else {
      m2 := ExprRuns(x, pos + |X.code| + 4 + |N.code|, e.yes, N.cgt, N.lab, m1);
    }
    m' := TernaryGlue(x, pos, X, N, Y, c, l, m, u, m1, v, m2);
  }

  lemma CallParts(env: Env, e: Expr, c: nat, l: nat, s: Store)
    requires e.Call?
    ensures var A := ArgsCode(e.args, c, l);
            ExprCode(e, c, l) == CallCode(A, ExprCode(e.callee, A.cgt, A.lab), e.isVoid, Count(e.args))
    ensures EvalExpr(env, e, s).Some? ==>
              var A := EvalArgs(env, e.args, s);
              && A.Some?
              && var F := EvalExpr(env, e.callee, A.value.1);
              && F.Some? && F.value.0.Fn?
              && var R := env(F.value.0.name, A.value.0, F.value.1);
              && R.Some?
              && EvalExpr(env, e, s) == Some((if e.isVoid then Void else R.value.0, R.value.1))
  {
  }

  lemma CallWithin(p: Code, pos: nat, A: Emitted, F: Emitted, isVoid: bool, count: Word)
    requires Within(p, pos, CallCode(A, F, isVoid, count).code)
    ensures Within(p, pos + 1, A.code) && Within(p, pos + 1 + |A.code|, F.code)
  {
    hide Within;
    var E := CallCode(A, F, isVoid, count);
    var hint := Q1(HintCall, E.res, ANone);
    PrefixWithin(p, pos, [hint] + A.code + F.code, E.code);
    WithinSplit(p, pos, [hint] + A.code, F.code);
    WithinSplit(p, pos, [hint], A.code);
  }

  lemma {:induction false} CallRuns(x: Ctx, pos: nat, e: Expr, c: nat, l: nat, m: Mem) returns (m': Mem)
    requires e.Call?
    requires UniqueLabels(x.p) && Within(x.p, pos, ExprCode(e, c, l).code)
    requires EvalExpr(x.env, e, m.store).Some?
    ensures Correct(x, pos, e, c, l, m, m')
    decreases e, 0
  {
    hide Goes, Within, UniqueLabels, Reaches, Agree, ExprCode, ArgsCode, EvalExpr, EvalArgs, CallCode;
    CallParts(x.env, e, c, l, m.store);
    var A := ArgsCode(e.args, c, l);
    var F := ExprCode(e.callee, A.cgt, A.lab);
    CallWithin(x.p, pos, A, F, e.isVoid, Count(e.args));
    var (vs, s1) := EvalArgs(x.env, e.args, m.store).value;
    var m1 := ArgsRun(x, pos + 1, e.args, c, l, m, []);
    assert [] + vs == vs;
    var y := x.(frames := x.frames + [vs]);
    var m2 := ExprRuns(y, pos + 1 + |A.code|, e.callee, A.cgt, A.lab, m1);
    var g := EvalExpr(x.env, e.callee, s1).value.0;
    var (v, s3) := x.env(g.name, vs, m2.store).value;
    m' := CallGlue(x, pos, A, F, e.isVoid, Count(e.args), c, A.lab, m, vs, m1, g.name, m2, v, s3);
  }

  /** The arguments end up, in order, in the innermost frame. */
  lemma {:induction false} ArgsRun(x: Ctx, pos: nat, args: ExprList, c: nat, l: nat, m: Mem, done: seq<Val>)
    returns (m': Mem)
    requires UniqueLabels(x.p) && Within(x.p, pos, ArgsCode(args, c, l).code)
    requires EvalArgs(x.env, args, m.store).Some?
    ensures var (vs, s) := EvalArgs(x.env, args, m.store).value;
            && Reaches(x.env, x.p, StateAt(x.(frames := x.frames + [done]), pos, m),
                       StateAt(x.(frames := x.frames + [done + vs]), pos + |ArgsCode(args, c, l).code|, m'))
            && m'.store == s
    ensures Agree(c, m.temps, m'.temps)
    decreases args, 0
  {
    hide Within, UniqueLabels, Reaches, ExprCode, EvalExpr;
    match args
    case ENil =>
      m' := m;
      assert done + [] == done;
      assert Reaches(x.env, x.p, StateAt(x.(frames := x.frames + [done]), pos, m),
                     StateAt(x.(frames := x.frames + [done]), pos, m)) by {
        Stay(x.(frames := x.frames + [done]), pos, m);
      }
    case ECons(e, tail) =>
      var A := ExprCode(e, c, l);
      var T := ArgsCode(tail, A.cgt, A.lab);
      var body := A.code + [Q1(Arg, ANone, A.res)];
      WithinSplit(x.p, pos, body, T.code);
      PrefixWithin(x.p, pos, A.code, body);
      var y := x.(frames := x.frames + [done]);
      var m1 := ExprRuns(y, pos, e, c, l, m);
      var v := EvalExpr(x.env, e, m.store).value.0;
      ArgGlue(y, pos, A, x.frames, done, m, v, m1);
      m' := ArgsRun(x, pos + |body|, tail, A.cgt, A.lab, m1, done + [v]);
      var vs := EvalArgs(x.env, tail, m1.store).value.0;
      assert done + [v] + vs == done + ([v] + vs);
      Trans(x.env, x.p, StateAt(y, pos, m), StateAt(x.(frames := x.frames + [done + [v]]), pos + |body|, m1),
            StateAt(x.(frames := x.frames + [done + ([v] + vs)]), pos + |body| + |T.code|, m'));
  }
}
