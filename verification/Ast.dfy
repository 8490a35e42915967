/** The abstract syntax that reaches code generation, and what a program means. */
module Ast {
  import opened Words

  /** Targets of a cast; pointers and arrays convert like u64. */
  datatype CastType = TI8 | TI16 | TI32 | TI64 | TU8 | TU16 | TU32 | TU64 | TPtr

  datatype UnaryKind = Plus | Minus | BwNot

  datatype ArithKind = Add | Sub | Mul | Div | Mod | Shr | Shl | BwAnd | BwXor | BwOr

  datatype RelKind = Lt | Gt | Lte | Gte | Eq | Neq

  /** Integer and character literals, enumerators, `sizeof` and `lengthof` are all `Const`. */
  datatype Expr =
    | Const(value: I64)
    | Ident(name: string, isFn: bool)
    | Not(arg: Expr)
    | Unary(op: UnaryKind, arg: Expr)
    | Cast(to: CastType, arg: Expr)
    | Ref(arg: Expr)
    | Deref(arg: Expr)
    | Arith(kind: ArithKind, left: Expr, right: Expr)
    | Relate(rel: RelKind, left: Expr, right: Expr)
    | Or(left: Expr, right: Expr)
    | And(left: Expr, right: Expr)
    | Assign(left: Expr, right: Expr)
    | Comma(left: Expr, right: Expr)
    | Ternary(cond: Expr, yes: Expr, no: Expr)
    | Call(callee: Expr, args: ExprList, isVoid: bool)

  datatype ExprList = ENil | ECons(head: Expr, tail: ExprList)

  /** A compound statement is a `Seq` chain ending in `Empty`. */
  datatype Stmt =
    | Empty
    | Eval(expr: Expr)
    | Let(name: string, initial: Option<Expr>)
    | Seq(first: Stmt, rest: Stmt)
    | If(branch: Branch)
    | While(cond: Expr, body: Stmt)
    | Do(body: Stmt, cond: Expr)
    | For(init: Stmt, test: Option<Expr>, step: Stmt, body: Stmt)
    | Break
    | Continue
    | Return(value: Option<Expr>)

  /** A branch of an `if` together with what follows it. */
  datatype Branch = Branch(cond: Expr, body: Stmt, others: Else)

  datatype Else = NoElse | Elif(branch: Branch) | ElseBody(body: Stmt)

  datatype Option<+T> = None | Some(value: T) {
    predicate IsFailure() { None? }
    function PropagateFailure<U>(): Option<U> requires None? { None }
    function Extract(): T requires Some? { value }
  }

  // ----- values and the store -----

  /** A word, the address of a variable, a function, or nothing usable. */
  datatype Val = Num(w: Word) | Addr(name: string) | Fn(name: string) | Void

  type Store = map<string, Val>

  /** What calling a function by name does: its result and the store afterwards. */
  type Env = (string, seq<Val>, Store) -> Option<(Val, Store)>

  function Load(s: Store, x: string): Val
  {
    if x in s then s[x] else Void
  }

  function ReadName(s: Store, x: string, isFn: bool): Val
  {
    if isFn then Fn(x) else Load(s, x)
  }

  function Flag(b: bool): Val
  {
    Num(if b then 1 else 0)
  }

  // ----- arithmetic on signed 64-bit values -----

  /** Division that truncates toward zero. */
  function Quot(x: int, y: int): int
    requires y != 0
  {
    if (x < 0) == (y < 0) then Abs(x) / Abs(y) else -(Abs(x) / Abs(y))
  }

  function Abs(x: int): nat
  {
    if x < 0 then -x else x
  }

  /** None where C leaves the result undefined or implementation-defined. */
  function Compute(k: ArithKind, x: I64, y: I64): Option<I64>
  {
    match k
    case Add => Some(ToI64(x + y))
    case Sub => Some(ToI64(x - y))
    case Mul => Some(ToI64(x * y))
    case Div => if y == 0 || (x == -SIGN && y == -1) then None else Some(ToI64(Quot(x, y)))
    case Mod => if y == 0 || (x == -SIGN && y == -1) then None else Some(ToI64(x - Quot(x, y) * y))
    case Shl => if 0 <= y < 64 then Some(ToI64(x * Pow2(y))) else None
    case Shr => if 0 <= y < 64 && 0 <= x then Some(ToI64(x / Pow2(y))) else None
    case BwAnd => Some(Signed(Bitwise(BitAnd, ToWord(x), ToWord(y))))
    case BwOr => Some(Signed(Bitwise(BitOr, ToWord(x), ToWord(y))))
    case BwXor => Some(Signed(Bitwise(BitXor, ToWord(x), ToWord(y))))
  }

  function Compare(k: RelKind, x: I64, y: I64): bool
  {
    match k
    case Lt => x < y
    case Gt => x > y
    case Lte => x <= y
    case Gte => x >= y
    case Eq => x == y
    case Neq => x != y
  }

  /** The conversion a C cast to an integer type performs, widened back to 64 bits. */
  function Convert(t: CastType, x: I64): I64
  {
    match t
    case TI8 => Narrow(x, 0x100)
    case TI16 => Narrow(x, 0x1_0000)
    case TI32 => Narrow(x, 0x1_0000_0000)
    case TU8 => x % 0x100
    case TU16 => x % 0x1_0000
    case TU32 => x % 0x1_0000_0000
    case _ => x
  }

  /** Signed reading of x modulo m. */
  function Narrow(x: I64, m: int): I64
    requires 0 < m <= 0x1_0000_0000
  {
    if x % m < m / 2 then x % m else x % m - m
  }

  // ----- meaning of expressions -----

  /** Whether a value counts as true in a condition. */
  function Holds(v: Val): Option<bool>
  {
    if v == Void then None else Some(v != Num(0))
  }

  function ComputeUnary(k: UnaryKind, x: I64): I64
  {
    match k
    case Plus => x
    case Minus => ToI64(0 - x)
    case BwNot => -1 - x
  }

  function EvalCast(t: CastType, v: Val): Option<Val>
  {
    if v.Num? then Some(Num(ToWord(Convert(t, Signed(v.w)))))
    else if t.TPtr? && v.Addr? then Some(v)
    else None
  }

  function EvalArith(k: ArithKind, a: Val, b: Val): Option<Val>
  {
    if a.Num? && b.Num? then
      var r :- Compute(k, Signed(a.w), Signed(b.w));
      Some(Num(ToWord(r)))
    else None
  }

  /** Addresses and functions may be compared for equality only. */
  function EvalRel(k: RelKind, a: Val, b: Val): Option<bool>
  {
    if a.Num? && b.Num? then Some(Compare(k, Signed(a.w), Signed(b.w)))
    else if k in {Eq, Neq} && a != Void && b != Void then Some((k == Eq) == (a == b))
    else None
  }

  /** Expressions that code generation accepts on the left of `=` and under `&`. */
  predicate Locatable(e: Expr)
  {
    e.Ident? || e.Call? || e.Deref?
  }

  /** The value of an expression and the store after its side effects. */
  function EvalExpr(env: Env, e: Expr, s: Store): Option<(Val, Store)>
    decreases e, 0
  {
    match e
    case Const(n) => Some((Num(ToWord(n)), s))
    case Ident(x, isFn) => Some((ReadName(s, x, isFn), s))
    case Ref(a) => EvalPlace(env, a, s)
    case Deref(a) =>
      var (v, s1) :- EvalExpr(env, a, s);
      if v.Addr? then Some((Load(s1, v.name), s1)) else None
    case Not(a) =>
      var (v, s1) :- EvalExpr(env, a, s);
      var t :- Holds(v);
      Some((Flag(!t), s1))
    case Unary(k, a) =>
      var (v, s1) :- EvalExpr(env, a, s);
      if v.Num? then Some((Num(ToWord(ComputeUnary(k, Signed(v.w)))), s1)) else None
    case Cast(t, a) =>
      var (v, s1) :- EvalExpr(env, a, s);
      var r :- EvalCast(t, v);
      Some((r, s1))
    case Arith(k, l, r) =>
      var (a, s1) :- EvalExpr(env, l, s);
      var (b, s2) :- EvalExpr(env, r, s1);
      var v :- EvalArith(k, a, b);
      Some((v, s2))
    case Relate(k, l, r) =>
      var (a, s1) :- EvalExpr(env, l, s);
      var (b, s2) :- EvalExpr(env, r, s1);
      var t :- EvalRel(k, a, b);
      Some((Flag(t), s2))
    case Or(l, r) =>
      var (a, s1) :- EvalExpr(env, l, s);
      var t :- Holds(a);
      if t then Some((Flag(true), s1))
      else
        var (b, s2) :- EvalExpr(env, r, s1);
        var u :- Holds(b);
        Some((Flag(u), s2))
    case And(l, r) =>
      var (a, s1) :- EvalExpr(env, l, s);
      var t :- Holds(a);
      if !t then Some((Flag(false), s1))
      else
        var (b, s2) :- EvalExpr(env, r, s1);
        var u :- Holds(b);
        Some((Flag(u), s2))
    case Assign(l, r) =>
      var (a, s1) :- EvalPlace(env, l, s);
      var (v, s2) :- EvalExpr(env, r, s1);
      if a.Addr? then Some((v, s2[a.name := v])) else None
    case Comma(l, r) =>
      var (_, s1) :- EvalExpr(env, l, s);
      EvalExpr(env, r, s1)
    case Ternary(c, y, n) =>
      var (v, s1) :- EvalExpr(env, c, s);
      var t :- Holds(v);
      EvalExpr(env, if t then y else n, s1)
    case Call(f, args, isVoid) =>
      var (vs, s1) :- EvalArgs(env, args, s);
      var (g, s2) :- EvalExpr(env, f, s1);
      if !g.Fn? then None
      else
        var (v, s3) :- env(g.name, vs, s2);
        Some((if isVoid then Void else v, s3))
  }

  /** The address an expression designates; a call designates the address it returns. */
  function EvalPlace(env: Env, e: Expr, s: Store): Option<(Val, Store)>
    decreases e, 1
  {
    match e
    case Ident(x, _) => Some((Addr(x), s))
    case Deref(a) => EvalExpr(env, a, s)
    case Call(_, _, _) => EvalExpr(env, e, s)
    case _ => None
  }

  function EvalArgs(env: Env, args: ExprList, s: Store): Option<(seq<Val>, Store)>
    decreases args, 0
  {
    match args
    case ENil => Some(([], s))
    case ECons(e, tail) =>
      var (v, s1) :- EvalExpr(env, e, s);
      var (vs, s2) :- EvalArgs(env, tail, s1);
      Some(([v] + vs, s2))
  }

  // ----- meaning of statements -----

  /** How a statement ends. */
  datatype Outcome = Normal | Broke | Continued | Returned(value: Val)

  /** The store and the outcome a statement ends with; None if it is undefined or has not
      ended after `fuel` iterations of its loops. */
  function Exec(env: Env, st: Stmt, s: Store, fuel: nat): Option<(Store, Outcome)>
    decreases fuel, st, 1
  {
    match st
    case Empty => Some((s, Normal))
    case Eval(e) =>
      var (_, s1) :- EvalExpr(env, e, s);
      Some((s1, Normal))
    case Let(x, None) => Some((s, Normal))
    case Let(x, Some(e)) =>
      var (v, s1) :- EvalExpr(env, e, s);
      Some((s1[x := v], Normal))
    case Seq(a, b) =>
      var (s1, o) :- Exec(env, a, s, fuel);
      if o.Normal? then Exec(env, b, s1, fuel) else Some((s1, o))
    case If(branch) => ExecBranch(env, branch, s, fuel)
    case While(c, body) =>
      var (t, s1) :- Test(env, Some(c), s);
      if !t then Some((s1, Normal))
      else
        var (s2, o) :- Exec(env, body, s1, fuel);
        NextRound(env, st, s2, o, fuel)
    case Do(body, c) =>
      var (s1, o) :- Exec(env, body, s, fuel);
      if o.Normal? then
        var (t, s2) :- Test(env, Some(c), s1);
        if t then NextRound(env, st, s2, Normal, fuel) else Some((s2, Normal))
      else NextRound(env, st, s1, o, fuel)
    case For(init, test, step, body) =>
      var (s1, o) :- Exec(env, init, s, fuel);
      if o.Normal? then ExecFor(env, st, s1, fuel) else Some((s1, o))
    case Break => Some((s, Broke))
    case Continue => Some((s, Continued))
    case Return(None) => Some((s, Returned(Void)))
    case Return(Some(e)) =>
      var (v, s1) :- EvalExpr(env, e, s);
      Some((s1, Returned(v)))
  }

  /** A branch of an `if`, or what follows it when its condition fails. */
  function ExecBranch(env: Env, b: Branch, s: Store, fuel: nat): Option<(Store, Outcome)>
    decreases fuel, b, 0
  {
    var (t, s1) :- Test(env, Some(b.cond), s);
    if t then Exec(env, b.body, s1, fuel)
    else match b.others
      case NoElse => Some((s1, Normal))
      case Elif(next) => ExecBranch(env, next, s1, fuel)
      case ElseBody(body) => Exec(env, body, s1, fuel)
  }

  /** Going round a `while` or `do` loop again, or leaving it. `continue` in a `do` loop starts
      the body again without testing the condition, which is what its code does. */
  function NextRound(env: Env, loop: Stmt, s: Store, o: Outcome, fuel: nat): Option<(Store, Outcome)>
    decreases fuel, loop, 0
  {
    match o
    case Broke => Some((s, Normal))
    case Returned(_) => Some((s, o))
    case _ => if fuel == 0 then None else Exec(env, loop, s, fuel - 1)
  }

  /** The rounds of a `for` loop after its first part. */
  function ExecFor(env: Env, loop: Stmt, s: Store, fuel: nat): Option<(Store, Outcome)>
    requires loop.For?
    decreases fuel, loop, 0
  {
    var (t, s1) :- Test(env, loop.test, s);
    if !t then Some((s1, Normal))
    else
      var (s2, o) :- Exec(env, loop.body, s1, fuel);
      if o.Broke? then Some((s2, Normal))
      else if o.Returned? then Some((s2, o))
      else
        var (s3, o3) :- Exec(env, loop.step, s2, fuel);
        if !o3.Normal? then Some((s3, o3))
        else if fuel == 0 then None
        else ExecFor(env, loop, s3, fuel - 1)
  }

  /** The truth of a condition; a missing condition holds. */
  function Test(env: Env, c: Option<Expr>, s: Store): Option<(bool, Store)>
  {
    match c
    case None => Some((true, s))
    case Some(e) =>
      var (v, s1) :- EvalExpr(env, e, s);
      var t :- Holds(v);
      Some((t, s1))
  }

  // ----- shape of programs -----

  /** `break` and `continue` occur only inside loops, and a `for` header holds only simple statements. */
  predicate WellFormed(st: Stmt, inLoop: bool)
  {
    match st
    case Seq(a, b) => WellFormed(a, inLoop) && WellFormed(b, inLoop)
    case If(branch) => WellFormedBranch(branch, inLoop)
    case While(_, body) => WellFormed(body, true)
    case Do(body, _) => WellFormed(body, true)
    case For(init, _, step, body) => Simple(init) && Simple(step) && WellFormed(body, true)
    case Break => inLoop
    case Continue => inLoop
    case _ => true
  }

  predicate WellFormedBranch(b: Branch, inLoop: bool)
  {
    && WellFormed(b.body, inLoop)
    && match b.others
       case NoElse => true
       case Elif(next) => WellFormedBranch(next, inLoop)
       case ElseBody(body) => WellFormed(body, inLoop)
  }

  predicate Simple(st: Stmt)
  {
    st.Empty? || st.Eval? || st.Let?
  }
}
