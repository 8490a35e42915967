/** What code generation emits, as a function of the tree and the two counters. */
module Emit {
  import opened Words
  import opened Ast
  import opened Quads

  /** Code, the operand holding its result, and the temporary and label counters afterwards. */
  datatype Emitted = Emitted(code: Code, res: Operand, cgt: nat, lab: nat)

  function AluOf(k: ArithKind): AluOp
  {
    match k
    case Add => OpAdd
    case Sub => OpSub
    case Mul => OpMul
    case Div => OpDiv
    case Mod => OpMod
    case Shr => OpShr
    case Shl => OpShl
    case BwOr => OpBwOr
    case BwAnd => OpBwAnd
    case BwXor => OpBwXor
  }

  function UnOf(k: UnaryKind): UnOp
  {
    match k
    case Plus => OpPlus
    case Minus => OpMinus
    case BwNot => OpBwNot
  }

  function JumpOf(k: RelKind): JumpRel
  {
    match k
    case Lt => JumpLt
    case Gt => JumpGt
    case Lte => JumpLte
    case Gte => JumpGte
    case Eq => JumpE
    case Neq => JumpNe
  }

  function Q1(op: Op, res: Operand, arg: Operand): Quad
  {
    Quad(op, res, arg, ANone)
  }

  function CopyConst(res: Operand, w: Word): Quad
  {
    Q1(Copy, res, AConst(w))
  }

  function Goto(l: nat): Quad
  {
    Quad(UJump, ALabel(l), ANone, ANone)
  }

  /** Leaves v in r when entered at the top and 1 - v when entered at the label. */
  function Settle(r: Operand, v: Word, here: nat, next: nat): Code
    requires v <= 1
  {
    [CopyConst(r, v), Goto(next), Label(here), CopyConst(r, 1 - v), Label(next)]
  }

  // Each construct's code from the code of its parts; `l` is the label counter at entry.

  /** Code for a truth value: `l + 1` is where a jump that decides early goes. */
  function SettleAfter(body: Code, c: nat, l: nat, lab: nat, v: Word): Emitted
    requires v <= 1
  {
    Emitted(body + Settle(ATemp(c + 1), v, l + 1, l + 2), ATemp(c + 1), c + 1, lab)
  }

  function JumpZero(l: nat, a: Operand): Quad
  {
    Quad(CJump(JumpE), ALabel(l), a, AConst(0))
  }

  function JumpTrue(l: nat, a: Operand): Quad
  {
    Q1(CJumpT, ALabel(l), a)
  }

  function NotCode(A: Emitted, l: nat): Emitted
  {
    SettleAfter(A.code + [JumpZero(l + 1, A.res)], A.cgt, l, A.lab, 0)
  }

  function UnaryCode(k: UnaryKind, A: Emitted): Emitted
  {
    A.(code := A.code + [Q1(Un(UnOf(k)), A.res, A.res)])
  }

  /** One operator whose result goes to a new temporary. */
  function FreshCode(op: Op, A: Emitted): Emitted
  {
    var r := ATemp(A.cgt + 1);
    Emitted(A.code + [Q1(op, r, A.res)], r, A.cgt + 1, A.lab)
  }

  /** The code of two operands; B was emitted after A. */
  function Both(A: Emitted, B: Emitted): Code
  {
    A.code + B.code
  }

  function ArithCode(k: ArithKind, A: Emitted, B: Emitted): Emitted
  {
    Emitted(Both(A, B) + [Quad(Alu(AluOf(k)), A.res, A.res, B.res)], A.res, B.cgt, B.lab)
  }

  function RelateCode(k: RelKind, A: Emitted, B: Emitted, l: nat): Emitted
  {
    SettleAfter(Both(A, B) + [Quad(CJump(JumpOf(k)), ALabel(l + 1), A.res, B.res)], B.cgt, l, B.lab, 0)
  }

  function LogicJump(isOr: bool, l: nat, a: Operand): Quad
  {
    if isOr then JumpTrue(l, a) else JumpZero(l, a)
  }

  /** `||` and `&&`: either operand may decide by jumping to the label. */
  function LogicCode(isOr: bool, A: Emitted, B: Emitted, l: nat): Emitted
  {
    SettleAfter(A.code + [LogicJump(isOr, l + 1, A.res)] + B.code + [LogicJump(isOr, l + 1, B.res)],
                B.cgt, l, B.lab, if isOr then 0 else 1)
  }

  function AssignCode(A: Emitted, B: Emitted): Emitted
  {
    FreshCode(Copy, B.(code := Both(A, B) + [Q1(DerefCopy, A.res, B.res)]))
  }

  function CommaCode(A: Emitted, B: Emitted): Emitted
  {
    FreshCode(Copy, B.(code := Both(A, B)))
  }

  /** X is the condition, N the second alternative and Y the first; the result is the temporary after X's. */
  function TernaryCode(X: Emitted, N: Emitted, Y: Emitted, l: nat): Emitted
  {
    var r := ATemp(X.cgt + 1);
    Emitted(X.code + [JumpTrue(l + 1, X.res)] + N.code + [Q1(Copy, r, N.res), Goto(l + 2), Label(l + 1)]
            + Y.code + [Q1(Copy, r, Y.res), Label(l + 2)],
            r, Y.cgt, Y.lab)
  }

  function CallCode(A: Emitted, F: Emitted, isVoid: bool, count: Word): Emitted
  {
    var cgt := if isVoid then F.cgt else F.cgt + 1;
    var r := if isVoid then ANone else ATemp(cgt);
    Emitted([Q1(HintCall, r, ANone)] + A.code + F.code
            + [Quad(if isVoid then PCall else FCall, r, F.res, AConst(count))],
            r, cgt, F.lab)
  }

  /** A result is a temporary numbered after the counter at entry, or nothing. */
  ghost predicate FreshResult(E: Emitted, c: nat, l: nat)
  {
    && c <= E.cgt
    && l <= E.lab
    && (E.res.ATemp? ==> c < E.res.t <= E.cgt)
    && (E.res.ATemp? || E.res.ANone?)
  }

  function ExprCode(e: Expr, c: nat, l: nat): (E: Emitted)
    ensures FreshResult(E, c, l)
    decreases e, 0
  {
    match e
    case Const(n) =>
      Emitted([CopyConst(ATemp(c + 1), ToWord(n))], ATemp(c + 1), c + 1, l)
    case Ident(x, isFn) =>
      Emitted([Q1(Copy, ATemp(c + 1), AName(x, isFn))], ATemp(c + 1), c + 1, l)
    case Not(a) => NotCode(ExprCode(a, c, l + 2), l)
    case Unary(k, a) => UnaryCode(k, ExprCode(a, c, l))
    case Cast(t, a) => FreshCode(OpCast(t), ExprCode(a, c, l))
    case Ref(a) => PlaceCode(a, c, l)
    case Deref(a) => FreshCode(OpDeref, FreshCode(Copy, ExprCode(a, c, l)))
    case Arith(k, a, b) =>
      var A := ExprCode(a, c, l);
      ArithCode(k, A, ExprCode(b, A.cgt, A.lab))
    case Relate(k, a, b) =>
      var A := ExprCode(a, c, l + 2);
      RelateCode(k, A, ExprCode(b, A.cgt, A.lab), l)
    case Or(a, b) =>
      var A := ExprCode(a, c, l + 2);
      LogicCode(true, A, ExprCode(b, A.cgt, A.lab), l)
    case And(a, b) =>
      var A := ExprCode(a, c, l + 2);
      LogicCode(false, A, ExprCode(b, A.cgt, A.lab), l)
    case Assign(a, b) =>
      var A := PlaceCode(a, c, l);
      AssignCode(A, ExprCode(b, A.cgt, A.lab))
    case Comma(a, b) =>
      var A := ExprCode(a, c, l);
      CommaCode(A, ExprCode(b, A.cgt, A.lab))
    case Ternary(x, y, n) =>
      var X := ExprCode(x, c, l + 2);
      var N := ExprCode(n, X.cgt + 1, X.lab);
      TernaryCode(X, N, ExprCode(y, N.cgt, N.lab), l)
    case Call(f, args, isVoid) =>
      var A := ArgsCode(args, c, l);
      CallCode(A, ExprCode(f, A.cgt, A.lab), isVoid, Count(args))
  }

  /** Code leaving the address of an expression; nothing when it has none. */
  function PlaceCode(e: Expr, c: nat, l: nat): (E: Emitted)
    ensures FreshResult(E, c, l)
    decreases e, 1
  {
    match e
    case Ident(x, isFn) =>
      Emitted([Q1(OpRef, ATemp(c + 1), AName(x, isFn))], ATemp(c + 1), c + 1, l)
    case Deref(a) => FreshCode(Copy, ExprCode(a, c, l))
    case Call(_, _, _) => ExprCode(e, c, l)
    case _ => Emitted([], ANone, c, l)
  }

  function ArgsCode(args: ExprList, c: nat, l: nat): (E: Emitted)
    ensures c <= E.cgt && l <= E.lab
    decreases args, 0
  {
    match args
    case ENil => Emitted([], ANone, c, l)
    case ECons(e, tail) =>
      var A := ExprCode(e, c, l);
      var T := ArgsCode(tail, A.cgt, A.lab);
      T.(code := A.code + [Q1(Arg, ANone, A.res)] + T.code)
  }

  /** The number of arguments, as the operand of a call carries it. */
  function Count(args: ExprList): Word
  {
    ToWord(Length(args))
  }

  function Length(args: ExprList): nat
  {
    match args
    case ENil => 0
    case ECons(_, tail) => 1 + Length(tail)
  }

  // ----- statements -----

  /** A condition that leaves for `out` when it fails; a `for` loop may have none. */
  function TestCode(test: Option<Expr>, c: nat, l: nat, out: nat): (E: Emitted)
    ensures c <= E.cgt && l <= E.lab
  {
    match test
    case None => Emitted([], ANone, c, l)
    case Some(x) =>
      var X := ExprCode(x, c, l);
      X.(code := X.code + [Q1(CJumpF, ALabel(out), X.res)])
  }

  /** A loop over P and Q between its label and its exit; Q was emitted after P. */
  function LoopCode(P: Emitted, Q: Emitted, l: nat): Emitted
  {
    Q.(code := [Label(l + 1)] + P.code + Q.code + [Goto(l + 1), Label(l + 2)])
  }

  /** A `for` loop: first part, condition, body and step. */
  function ForCode(I: Emitted, X: Emitted, B: Emitted, S: Emitted, l: nat): Emitted
  {
    S.(code := I.code + [Label(l + 1)] + X.code + B.code + [Label(l + 2)] + S.code + [Goto(l + 1), Label(l + 3)])
  }

  /** A branch that is followed by E, which starts at the label `next`. */
  function ElseCode(X: Emitted, B: Emitted, E: Emitted, done: nat, next: nat): Emitted
  {
    E.(code := X.code + B.code + [Goto(done), Label(next)] + E.code)
  }

  function LetCode(x: string, E: Emitted): Emitted
  {
    E.(code := [Q1(HintLocal, AName(x, false), ANone)] + E.code + [Q1(Copy, AName(x, false), E.res)])
  }

  /** `out` and `iter` are the labels `break` and `continue` jump to. */
  function StmtCode(st: Stmt, c: nat, l: nat, out: nat, iter: nat): (E: Emitted)
    ensures c <= E.cgt && l <= E.lab
    decreases st, 0
  {
    match st
    case Empty => Emitted([], ANone, c, l)
    case Eval(e) => ExprCode(e, c, l)
    case Let(x, None) => Emitted([Q1(HintLocal, AName(x, false), ANone)], ANone, c, l)
    case Let(x, Some(e)) => LetCode(x, ExprCode(e, c, l))
    case Seq(a, b) =>
      var A := StmtCode(a, c, l, out, iter);
      var B := StmtCode(b, A.cgt, A.lab, out, iter);
      B.(code := Both(A, B))
    case If(branch) =>
      var B := BranchCode(branch, c, l + 1, l + 1, out, iter);
      B.(code := B.code + [Label(l + 1)])
    case While(x, body) =>
      var X := TestCode(Some(x), c, l + 2, l + 2);
      LoopCode(X, StmtCode(body, X.cgt, X.lab, l + 2, l + 1), l)
    case Do(body, x) =>
      var B := StmtCode(body, c, l + 2, l + 2, l + 1);
      LoopCode(B, TestCode(Some(x), B.cgt, B.lab, l + 2), l)
    case For(init, test, step, body) =>
      var I := StmtCode(init, c, l + 3, l + 3, l + 2);
      var X := TestCode(test, I.cgt, I.lab, l + 3);
      var B := StmtCode(body, X.cgt, X.lab, l + 3, l + 2);
      ForCode(I, X, B, StmtCode(step, B.cgt, B.lab, l + 3, l + 2), l)
    case Break => Emitted([Goto(out)], ANone, c, l)
    case Continue => Emitted([Goto(iter)], ANone, c, l)
    case Return(None) => Emitted([Q1(RetP, ANone, ANone)], ANone, c, l)
    case Return(Some(e)) =>
      var E := ExprCode(e, c, l);
      E.(code := E.code + [Q1(RetF, ANone, E.res)])
  }

  /** A branch and what follows it; `done` is the label after the whole `if`. */
  function BranchCode(b: Branch, c: nat, l: nat, done: nat, out: nat, iter: nat): (E: Emitted)
    ensures c <= E.cgt && l <= E.lab
    decreases b, 0
  {
    match b.others
    case NoElse =>
      var X := TestCode(Some(b.cond), c, l, done);
      var B := StmtCode(b.body, X.cgt, X.lab, out, iter);
      B.(code := Both(X, B))
    case Elif(b') =>
      var X := TestCode(Some(b.cond), c, l + 1, l + 1);
      var B := StmtCode(b.body, X.cgt, X.lab, out, iter);
      ElseCode(X, B, BranchCode(b', B.cgt, B.lab, done, out, iter), done, l + 1)
    case ElseBody(body) =>
      var X := TestCode(Some(b.cond), c, l + 1, l + 1);
      var B := StmtCode(b.body, X.cgt, X.lab, out, iter);
      ElseCode(X, B, StmtCode(body, B.cgt, B.lab, out, iter), done, l + 1)
  }

  /** The parts of a `for` statement's code. */
  function ForParts(st: Stmt, c: nat, l: nat): (Emitted, Emitted, Emitted, Emitted)
    requires st.For?
  {
    var I := StmtCode(st.init, c, l + 3, l + 3, l + 2);
    var X := TestCode(st.test, I.cgt, I.lab, l + 3);
    var B := StmtCode(st.body, X.cgt, X.lab, l + 3, l + 2);
    (I, X, B, StmtCode(st.step, B.cgt, B.lab, l + 3, l + 2))
  }

  // ----- equations, for proofs that do not unfold the functions above -----

  /** The code of a construct from the code of its parts. */
  lemma CodeParts(e: Expr, c: nat, l: nat)
    ensures e.Const? ==> ExprCode(e, c, l) == Emitted([CopyConst(ATemp(c + 1), ToWord(e.value))], ATemp(c + 1), c + 1,
            l)
    ensures e.Ident? ==> ExprCode(e, c, l) == Emitted([Q1(Copy, ATemp(c + 1), AName(e.name, e.isFn))], ATemp(c + 1),
            c + 1, l)
    ensures e.Ref? ==> ExprCode(e, c, l) == PlaceCode(e.arg, c, l)
    ensures e.Not? ==> ExprCode(e, c, l) == NotCode(ExprCode(e.arg, c, l + 2), l)
    ensures e.Unary? ==> ExprCode(e, c, l) == UnaryCode(e.op, ExprCode(e.arg, c, l))
    ensures e.Cast? ==> ExprCode(e, c, l) == FreshCode(OpCast(e.to), ExprCode(e.arg, c, l))
    ensures e.Deref? ==> ExprCode(e, c, l) == FreshCode(OpDeref, FreshCode(Copy, ExprCode(e.arg, c, l)))
    ensures e.Arith? || e.Comma? ==>
              var A := ExprCode(e.left, c, l);
              var B := ExprCode(e.right, A.cgt, A.lab);
              ExprCode(e, c, l) == if e.Arith? then ArithCode(e.kind, A, B) else CommaCode(A, B)
    ensures e.Relate? || e.Or? || e.And? ==>
              var A := ExprCode(e.left, c, l + 2);
              var B := ExprCode(e.right, A.cgt, A.lab);
              ExprCode(e, c, l) == if e.Relate? then RelateCode(e.rel, A, B, l) else LogicCode(e.Or?, A, B, l)
    ensures e.Assign? ==>
              var A := PlaceCode(e.left, c, l);
              ExprCode(e, c, l) == AssignCode(A, ExprCode(e.right, A.cgt, A.lab))
    ensures e.Ternary? ==>
              var X := ExprCode(e.cond, c, l + 2);
              var N := ExprCode(e.no, X.cgt + 1, X.lab);
              ExprCode(e, c, l) == TernaryCode(X, N, ExprCode(e.yes, N.cgt, N.lab), l)
    ensures e.Call? ==>
              var A := ArgsCode(e.args, c, l);
              ExprCode(e, c, l) == CallCode(A, ExprCode(e.callee, A.cgt, A.lab), e.isVoid, Count(e.args))
  {
    hide NotCode, UnaryCode, FreshCode, ArithCode, CommaCode, RelateCode, LogicCode, AssignCode, TernaryCode, CallCode;
  }

  /** The code of a statement from the code of its parts. */
  lemma StmtParts(st: Stmt, c: nat, l: nat, out: nat, iter: nat)
    ensures st.Seq? ==>
              var A := StmtCode(st.first, c, l, out, iter);
              var B := StmtCode(st.rest, A.cgt, A.lab, out, iter);
              StmtCode(st, c, l, out, iter) == B.(code := Both(A, B))
    ensures st.If? ==>
              var B := BranchCode(st.branch, c, l + 1, l + 1, out, iter);
              StmtCode(st, c, l, out, iter) == B.(code := B.code + [Label(l + 1)])
    ensures st.While? ==>
              var X := TestCode(Some(st.cond), c, l + 2, l + 2);
              StmtCode(st, c, l, out, iter) == LoopCode(X, StmtCode(st.body, X.cgt, X.lab, l + 2, l + 1), l)
    ensures st.Do? ==>
              var B := StmtCode(st.body, c, l + 2, l + 2, l + 1);
              StmtCode(st, c, l, out, iter) == LoopCode(B, TestCode(Some(st.cond), B.cgt, B.lab, l + 2), l)
    ensures st.For? ==>
              var (I, X, B, S) := ForParts(st, c, l);
              StmtCode(st, c, l, out, iter) == ForCode(I, X, B, S, l)
  {
  }
}
