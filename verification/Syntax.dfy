/** Expressions as the parser builds them, their tokens, and the grammar as functions on token lists. */
module Syntax {
  import opened Ast

  datatype BinOp =
    | BComma | BAssign | BOr | BAnd | BBwOr | BBwXor | BBwAnd | BEq | BNeq
    | BLt | BGt | BLte | BGte | BShl | BShr | BAdd | BSub | BMul | BDiv | BMod

  datatype UnOp = UPlus | UMinus | UBwNot | UDeref | URef | UNot

  /** A primitive type followed by a number of `*`. */
  datatype TypeExpr = TypeExpr(base: string, stars: nat)

  datatype Tree =
    | Lit(value: string)
    | Id(name: string)
    | Un(op: UnOp, arg: Tree)
    | CastTo(to: TypeExpr, arg: Tree)
    | SizeOf(to: TypeExpr)
    | LengthOf(arg: Tree)
    | AsType(arg: Tree, to: TypeExpr)
    | Dot(arg: Tree, name: string)
    | CallOf(arg: Tree, args: Trees)
    | Index(arg: Tree, at: Tree)
    | Bin(bin: BinOp, left: Tree, right: Tree)
    | Cond(cond: Tree, yes: Tree, no: Tree)

  datatype Trees = TNil | TCons(head: Tree, tail: Trees)

  /** Symbols that serve as prefix and as infix operators are one token. */
  datatype Tok =
    | TkLit(value: string) | TkIdent(name: string) | TkType(base: string)
    | TkComma | TkAssign | TkOr | TkAnd | TkVLine | TkCircumflex | TkAmpersand | TkEq | TkNeq
    | TkLt | TkGt | TkLte | TkGte | TkLShift | TkRShift | TkPlus | TkMinus | TkAsterisk | TkSlash | TkPercent
    | TkTilde | TkExcmark | TkQuestion | TkColon | TkOParen | TkCParen | TkOBracket | TkCBracket | TkDot
    | TkAs | TkSizeof | TkLengthof | TkOther

  // Levels of the grammar, from the loosest to the tightest.
  const COMMA: nat := 0
  const ASSIGNMENT: nat := 1
  const TERNARY: nat := 2
  const OR: nat := 3
  const MULTIPLICATION: nat := 12
  const UNARY: nat := 13
  const POSTFIX: nat := 14
  const PRIMARY: nat := 15

  function BinLevel(op: BinOp): (k: nat)
    ensures k <= MULTIPLICATION && k != TERNARY
  {
    match op
    case BComma => 0
    case BAssign => 1
    case BOr => 3
    case BAnd => 4
    case BBwOr => 5
    case BBwXor => 6
    case BBwAnd => 7
    case BEq => 8 case BNeq => 8
    case BLt => 9 case BGt => 9 case BLte => 9 case BGte => 9
    case BShl => 10 case BShr => 10
    case BAdd => 11 case BSub => 11
    case BMul => 12 case BDiv => 12 case BMod => 12
  }

  function BinTok(op: BinOp): Tok
  {
    match op
    case BComma => TkComma
    case BAssign => TkAssign
    case BOr => TkOr
    case BAnd => TkAnd
    case BBwOr => TkVLine
    case BBwXor => TkCircumflex
    case BBwAnd => TkAmpersand
    case BEq => TkEq
    case BNeq => TkNeq
    case BLt => TkLt
    case BGt => TkGt
    case BLte => TkLte
    case BGte => TkGte
    case BShl => TkLShift
    case BShr => TkRShift
    case BAdd => TkPlus
    case BSub => TkMinus
    case BMul => TkAsterisk
    case BDiv => TkSlash
    case BMod => TkPercent
  }

  /** The infix operator a token stands for, at any level. */
  function InfixOf(t: Tok): Option<BinOp>
  {
    match t
    case TkComma => Some(BComma)
    case TkAssign => Some(BAssign)
    case TkOr => Some(BOr)
    case TkAnd => Some(BAnd)
    case TkVLine => Some(BBwOr)
    case TkCircumflex => Some(BBwXor)
    case TkAmpersand => Some(BBwAnd)
    case TkEq => Some(BEq)
    case TkNeq => Some(BNeq)
    case TkLt => Some(BLt)
    case TkGt => Some(BGt)
    case TkLte => Some(BLte)
    case TkGte => Some(BGte)
    case TkLShift => Some(BShl)
    case TkRShift => Some(BShr)
    case TkPlus => Some(BAdd)
    case TkMinus => Some(BSub)
    case TkAsterisk => Some(BMul)
    case TkSlash => Some(BDiv)
    case TkPercent => Some(BMod)
    case _ => None
  }

  /** The operator the loop of level k goes on with. */
  function BinAt(k: nat, ts: seq<Tok>): Option<BinOp>
  {
    if ts == [] then None
    else
      var op := InfixOf(ts[0]);
      if op.Some? && BinLevel(op.value) == k then op else None
  }

  function PrefixTok(op: UnOp): Tok
  {
    match op
    case UPlus => TkPlus
    case UMinus => TkMinus
    case UBwNot => TkTilde
    case UDeref => TkAsterisk
    case URef => TkAmpersand
    case UNot => TkExcmark
  }

  function PrefixOf(t: Tok): Option<UnOp>
  {
    match t
    case TkPlus => Some(UPlus)
    case TkMinus => Some(UMinus)
    case TkTilde => Some(UBwNot)
    case TkAsterisk => Some(UDeref)
    case TkAmpersand => Some(URef)
    case TkExcmark => Some(UNot)
    case _ => None
  }

  predicate Starts(ts: seq<Tok>, t: Tok)
  {
    ts != [] && ts[0] == t
  }

  // ----- parsing: the tree and the tokens left over, or a syntax error -----

  function Stars(ts: seq<Tok>): (r: (nat, seq<Tok>))
    ensures |r.1| <= |ts|
  {
    if Starts(ts, TkAsterisk) then
      var (n, rest) := Stars(ts[1..]);
      (n + 1, rest)
    else (0, ts)
  }

  /** A primitive type and its `*`s. A `[` would start an array declarator, which this does not cover. */
  function ParseType(ts: seq<Tok>): (r: Option<(TypeExpr, seq<Tok>)>)
    ensures r.Some? ==> |r.value.1| < |ts|
  {
    if ts == [] || !ts[0].TkType? then None
    else
      var (n, rest) := Stars(ts[1..]);
      if Starts(rest, TkOBracket) then None else Some((TypeExpr(ts[0].base, n), rest))
  }

  function Expect(ts: seq<Tok>, t: Tok): (r: Option<seq<Tok>>)
    ensures r.Some? ==> |r.value| < |ts|
  {
    if Starts(ts, t) then Some(ts[1..]) else None
  }

  /** An expression of level k. */
  function Parse(k: nat, ts: seq<Tok>): (r: Option<(Tree, seq<Tok>)>)
    requires k <= PRIMARY
    ensures r.Some? ==> |r.value.1| < |ts|
    decreases |ts|, 1, PRIMARY - k
  {
    if k == PRIMARY then ParsePrimary(ts)
    else if k == UNARY then ParseUnary(ts)
    else
      var (e, rest) :- Parse(k + 1, ts);
      if k == POSTFIX then ParsePostfix(e, rest)
      else if k == TERNARY then ParseTernary(e, rest)
      else Loop(k, e, rest)
  }

  /** The left-folding loop of a binary level. */
  function Loop(k: nat, e: Tree, ts: seq<Tok>): (r: Option<(Tree, seq<Tok>)>)
    requires k <= MULTIPLICATION
    ensures r.Some? ==> |r.value.1| <= |ts|
    decreases |ts|, 2
  {
    match BinAt(k, ts)
    case None => Some((e, ts))
    case Some(op) =>
      var (right, rest) :- Parse(k + 1, ts[1..]);
      Loop(k, Bin(op, e, right), rest)
  }

  function ParseTernary(c: Tree, ts: seq<Tok>): (r: Option<(Tree, seq<Tok>)>)
    ensures r.Some? ==> |r.value.1| <= |ts|
    decreases |ts|, 2
  {
    if !Starts(ts, TkQuestion) then Some((c, ts))
    else
      var (yes, r1) :- Parse(COMMA, ts[1..]);
      var r2 :- Expect(r1, TkColon);
      var (no, r3) :- Parse(COMMA, r2);
      Some((Cond(c, yes, no), r3))
  }

  function ParseUnary(ts: seq<Tok>): (r: Option<(Tree, seq<Tok>)>)
    ensures r.Some? ==> |r.value.1| < |ts|
    decreases |ts|, 1, PRIMARY - UNARY, 0
  {
    if ts == [] then None
    else if ts[0] == TkOParen && |ts| > 1 && ts[1].TkType? then
      var (to, r1) :- ParseType(ts[1..]);
      var r2 :- Expect(r1, TkCParen);
      var (e, r3) :- Parse(UNARY, r2);
      Some((CastTo(to, e), r3))
    else if PrefixOf(ts[0]).Some? then
      var (e, rest) :- Parse(UNARY, ts[1..]);
      Some((Un(PrefixOf(ts[0]).value, e), rest))
    else if ts[0] == TkSizeof then
      var r1 :- Expect(ts[1..], TkOParen);
      var (to, r2) :- ParseType(r1);
      var r3 :- Expect(r2, TkCParen);
      Some((SizeOf(to), r3))
    else if ts[0] == TkLengthof then
      var r1 :- Expect(ts[1..], TkOParen);
      var (e, r2) :- Parse(COMMA, r1);
      var r3 :- Expect(r2, TkCParen);
      Some((LengthOf(e), r3))
    else Parse(POSTFIX, ts)
  }

  /** What follows a primary expression: `as` and a type, or any number of accesses. */
  function ParsePostfix(e: Tree, ts: seq<Tok>): (r: Option<(Tree, seq<Tok>)>)
    ensures r.Some? ==> |r.value.1| <= |ts|
    decreases |ts|, 3
  {
    if Starts(ts, TkAs) then
      var (to, rest) :- ParseType(ts[1..]);
      Some((AsType(e, to), rest))
    else Accesses(e, ts)
  }

  function Accesses(e: Tree, ts: seq<Tok>): (r: Option<(Tree, seq<Tok>)>)
    ensures r.Some? ==> |r.value.1| <= |ts|
    decreases |ts|, 2
  {
    if Starts(ts, TkDot) then
      if |ts| > 1 && ts[1].TkIdent? then Accesses(Dot(e, ts[1].name), ts[2..]) else None
    else if Starts(ts, TkOParen) then
      var (args, r1) :- Arguments(ts[1..]);
      var r2 :- Expect(r1, TkCParen);
      Accesses(CallOf(e, args), r2)
    else if Starts(ts, TkOBracket) then
      var (at, r1) :- Parse(COMMA, ts[1..]);
      var r2 :- Expect(r1, TkCBracket);
      Accesses(Index(e, at), r2)
    else Some((e, ts))
  }

  /** Arguments up to a closing parenthesis or the end; a trailing comma is accepted. */
  function Arguments(ts: seq<Tok>): (r: Option<(Trees, seq<Tok>)>)
    ensures r.Some? ==> |r.value.1| <= |ts|
    decreases |ts|, 2
  {
    if ts == [] || ts[0] == TkCParen then Some((TNil, ts))
    else
      var (e, r1) :- Parse(ASSIGNMENT, ts);
      if r1 == [] || r1[0] == TkCParen then Some((TCons(e, TNil), r1))
      else
        var r2 :- Expect(r1, TkComma);
        var (tail, r3) :- Arguments(r2);
        Some((TCons(e, tail), r3))
  }

  function ParsePrimary(ts: seq<Tok>): (r: Option<(Tree, seq<Tok>)>)
    ensures r.Some? ==> |r.value.1| < |ts|
    decreases |ts|, 1, 0, 0
  {
    if ts == [] then None
    else match ts[0]
      case TkLit(v) => Some((Lit(v), ts[1..]))
      case TkIdent(x) => Some((Id(x), ts[1..]))
      case TkOParen =>
        var (e, r1) :- Parse(COMMA, ts[1..]);
        var r2 :- Expect(r1, TkCParen);
        Some((e, r2))
      case _ => None
  }

  // ----- rendering -----

  function LevelOf(e: Tree): (k: nat)
    ensures k <= PRIMARY
  {
    match e
    case Bin(op, _, _) => BinLevel(op)
    case Un(_, _) => UNARY
    case CastTo(_, _) => UNARY
    case SizeOf(_) => UNARY
    case LengthOf(_) => UNARY
    case Dot(_, _) => POSTFIX
    case CallOf(_, _) => POSTFIX
    case Index(_, _) => POSTFIX
    case _ => PRIMARY
  }

  function Paren(ts: seq<Tok>): seq<Tok>
  {
    [TkOParen] + ts + [TkCParen]
  }

  function Repeat(n: nat): seq<Tok>
  {
    if n == 0 then [] else [TkAsterisk] + Repeat(n - 1)
  }

  function RenderType(t: TypeExpr): seq<Tok>
  {
    [TkType(t.base)] + Repeat(t.stars)
  }

  /** The tokens of e where level k is wanted: in parentheses if e is looser than that. */
  function Render(k: nat, e: Tree): seq<Tok>
    decreases e, 1
  {
    if LevelOf(e) >= k then Body(e) else Paren(Body(e))
  }

  /** Conditionals and `as` are always in parentheses. */
  function Body(e: Tree): seq<Tok>
    decreases e, 0
  {
    match e
    case Lit(v) => [TkLit(v)]
    case Id(x) => [TkIdent(x)]
    case Un(op, a) => [PrefixTok(op)] + Render(UNARY, a)
    case CastTo(t, a) => Paren(RenderType(t)) + Render(UNARY, a)
    case SizeOf(t) => [TkSizeof] + Paren(RenderType(t))
    case LengthOf(a) => [TkLengthof] + Paren(Render(COMMA, a))
    case AsType(a, t) => Paren(Render(PRIMARY, a) + [TkAs] + RenderType(t))
    case Dot(a, x) => Render(POSTFIX, a) + [TkDot, TkIdent(x)]
    case CallOf(a, args) => Render(POSTFIX, a) + Paren(RenderArgs(args))
    case Index(a, i) => Render(POSTFIX, a) + [TkOBracket] + Render(COMMA, i) + [TkCBracket]
    case Bin(op, l, r) => Render(BinLevel(op), l) + [BinTok(op)] + Render(BinLevel(op) + 1, r)
    case Cond(c, y, n) => Paren(Render(OR, c) + [TkQuestion] + Render(COMMA, y) + [TkColon] + Render(COMMA, n))
  }

  function RenderArgs(args: Trees): seq<Tok>
    decreases args
  {
    match args
    case TNil => []
    case TCons(e, TNil) => Render(ASSIGNMENT, e)
    case TCons(e, tail) => Render(ASSIGNMENT, e) + [TkComma] + RenderArgs(tail)
  }
}
