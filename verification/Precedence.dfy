/** The precedence list, written out by operators, and what it makes of expressions without parentheses. */
module Precedence {
  import opened Ast
  import opened Syntax
  import opened RoundTrip

  /** The rows of the list, the loosest first. */
  function Row(i: nat): set<BinOp>
  {
    match i
    case 0 => {BComma}
    case 1 => {BAssign}
    case 2 => {BOr}
    case 3 => {BAnd}
    case 4 => {BBwOr}
    case 5 => {BBwXor}
    case 6 => {BBwAnd}
    case 7 => {BEq, BNeq}
    case 8 => {BLt, BGt, BLte, BGte}
    case 9 => {BShl, BShr}
    case 10 => {BAdd, BSub}
    case 11 => {BMul, BDiv, BMod}
    case _ => {}
  }

  /** How each operator is written. */
  predicate Writes(t: Tok, op: BinOp)
  {
    match op
    case BComma => t == TkComma
    case BAssign => t == TkAssign
    case BOr => t == TkOr
    case BAnd => t == TkAnd
    case BBwOr => t == TkVLine
    case BBwXor => t == TkCircumflex
    case BBwAnd => t == TkAmpersand
    case BEq => t == TkEq
    case BNeq => t == TkNeq
    case BLt => t == TkLt
    case BGt => t == TkGt
    case BLte => t == TkLte
    case BGte => t == TkGte
    case BShl => t == TkLShift
    case BShr => t == TkRShift
    case BAdd => t == TkPlus
    case BSub => t == TkMinus
    case BMul => t == TkAsterisk
    case BDiv => t == TkSlash
    case BMod => t == TkPercent
  }

  /** Prefix operators are tighter than all of these. */
  const PREFIXES: seq<(Tok, UnOp)> :=
    [(TkPlus, UPlus), (TkMinus, UMinus), (TkTilde, UBwNot), (TkAsterisk, UDeref), (TkAmpersand, URef), (TkExcmark, UNot)]

  predicate IsPrefix(t: Tok, u: UnOp)
  {
    (t, u) in PREFIXES
  }

  predicate InRow(t: Tok, op: BinOp, i: nat)
  {
    Writes(t, op) && op in Row(i)
  }

  /** q is in a tighter row than p. */
  ghost predicate Tighter(q: BinOp, p: BinOp)
  {
    exists i, j :: i < j && p in Row(i) && q in Row(j)
  }

  // ----- the list and the levels of the grammar -----

  lemma RowLevel(op: BinOp, i: nat)
    requires op in Row(i)
    ensures i < 12 && BinLevel(op) == if i < 2 then i else i + 1
  {
  }

  lemma HasRow(op: BinOp) returns (i: nat)
    ensures op in Row(i) && InRow(BinTok(op), op, i)
  {
    var k := BinLevel(op);
    i := if k < 2 then k else k - 1;
  }

  lemma TokIs(t: Tok, op: BinOp)
    requires Writes(t, op)
    ensures t == BinTok(op)
  {
  }

  lemma RowOf(t: Tok, op: BinOp, i: nat)
    requires InRow(t, op, i)
    ensures op in Row(i) && t == BinTok(op)
  {
    hide Row;
    TokIs(t, op);
  }

  lemma TighterLevel(q: BinOp, p: BinOp)
    ensures Tighter(q, p) <==> BinLevel(p) < BinLevel(q)
  {
    hide InRow, Row, BinLevel, BinTok, Tighter;
    var i := HasRow(p);
    var j := HasRow(q);
    RowLevel(p, i);
    RowLevel(q, j);
    if i < j {
      RowsTight(q, p, i, j);
    } else if Tighter(q, p) {
      LevelsTight(q, p);
    }
  }

  lemma RowsTight(q: BinOp, p: BinOp, i: nat, j: nat)
    requires i < j && p in Row(i) && q in Row(j)
    ensures Tighter(q, p)
  {
    hide Row;
  }

  lemma LevelsTight(q: BinOp, p: BinOp)
    requires Tighter(q, p)
    ensures BinLevel(p) < BinLevel(q)
  {
    hide Row, BinLevel;
    var i, j :| i < j && p in Row(i) && q in Row(j);
    RowLevel(p, i);
    RowLevel(q, j);
  }

  // ----- flat expressions -----

  /** A tree whose tokens in order, without parentheses, are these. */
  ghost predicate Spells(e: Tree, ts: seq<Tok>)
    decreases e
  {
    match e
    case Id(x) => ts == [TkIdent(x)]
    case Lit(v) => ts == [TkLit(v)]
    case Dot(a, x) => |ts| >= 2 && ts[|ts| - 2..] == [TkDot, TkIdent(x)] && Spells(a, ts[..|ts| - 2])
    case Un(u, a) => |ts| >= 1 && IsPrefix(ts[0], u) && Spells(a, ts[1..])
    case Bin(p, l, r) => exists k, i: nat :: Splits(ts, p, k, i) && Spells(l, ts[..k]) && Spells(r, ts[k + 1..])
    case _ => false
  }

  predicate Splits(ts: seq<Tok>, p: BinOp, k: int, i: nat)
  {
    0 <= k < |ts| && InRow(ts[k], p, i)
  }

  /** Accesses stand on names, literals and accesses, prefix operators on these and on prefix operators; the operator
      of a right operand is tighter than the one above it, and that of a left operand is not looser. */
  ghost predicate Obeys(e: Tree)
  {
    match e
    case Dot(a, _) => (a.Id? || a.Lit? || a.Dot?) && Obeys(a)
    case Un(_, a) => (a.Id? || a.Lit? || a.Dot? || a.Un?) && Obeys(a)
    case Bin(p, l, r) =>
      && Obeys(l) && Obeys(r)
      && (l.Bin? ==> !Tighter(p, l.bin))
      && (r.Bin? ==> Tighter(r.bin, p))
    case Id(_) => true
    case Lit(_) => true
    case _ => false
  }

  /** Such a tree is rendered without parentheses. */
  lemma {:induction false} FlatRender(e: Tree, ts: seq<Tok>)
    requires Obeys(e) && Spells(e, ts)
    ensures ts == Body(e)
    decreases e
  {
    hide InRow, IsPrefix, Render, Tighter, Splits;
    match e
    case Dot(a, x) =>
      FlatRender(a, ts[..|ts| - 2]);
      AccessRender(a, POSTFIX);
      assert ts == ts[..|ts| - 2] + ts[|ts| - 2..];
    case Un(u, a) =>
      FlatRender(a, ts[1..]);
      PrefixIs(ts[0], u);
      AccessRender(a, UNARY);
      assert ts == [ts[0]] + ts[1..];
    case Bin(p, l, r) =>
      var k, i := SplitOf(e, ts);
      FlatRender(l, ts[..k]);
      FlatRender(r, ts[k + 1..]);
      SplitRender(e, ts, k, i);
    case _ =>
  }

  lemma SplitOf(e: Tree, ts: seq<Tok>) returns (k: nat, i: nat)
    requires e.Bin? && Spells(e, ts)
    ensures k < |ts| && Splits(ts, e.bin, k, i) && Spells(e.left, ts[..k]) && Spells(e.right, ts[k + 1..])
  {
    k, i :| Splits(ts, e.bin, k, i) && Spells(e.left, ts[..k]) && Spells(e.right, ts[k + 1..]);
  }

  lemma PrefixIs(t: Tok, u: UnOp)
    ensures IsPrefix(t, u) <==> t == PrefixTok(u)
  {
  }

  lemma AccessRender(a: Tree, k: nat)
    requires a.Id? || a.Lit? || a.Dot? || (a.Un? && k == UNARY)
    requires k <= POSTFIX
    ensures Render(k, a) == Body(a)
  {
    hide Body;
  }

  lemma SplitRender(e: Tree, ts: seq<Tok>, k: nat, i: nat)
    requires e.Bin? && Obeys(e) && k < |ts| && Splits(ts, e.bin, k, i) && ts[..k] == Body(e.left) && ts[k + 1..] == Body(e.right)
    ensures ts == Body(e)
  {
    hide InRow, Tighter, BinLevel, BinTok;
    RowOf(ts[k], e.bin, i);
    OperandLevel(e.left, e.bin);
    OperandLevel(e.right, e.bin);
    assert ts == ts[..k] + [ts[k]] + ts[k + 1..];
  }

  lemma OperandLevel(a: Tree, p: BinOp)
    requires Obeys(a)
    ensures (a.Bin? ==> !Tighter(p, a.bin)) ==> LevelOf(a) >= BinLevel(p)
    ensures (a.Bin? ==> Tighter(a.bin, p)) ==> LevelOf(a) >= BinLevel(p) + 1
  {
    hide Tighter;
    if a.Bin? {
      TighterLevel(p, a.bin);
      TighterLevel(a.bin, p);
    }
  }

  /** Without parentheses the tree that obeys the list is the one that is parsed. */
  lemma FlatParses(e: Tree, ts: seq<Tok>, rest: seq<Tok>)
    requires Obeys(e) && Spells(e, ts)
    requires rest == [] || rest[0] in {TkCParen, TkCBracket, TkColon, TkOther}
    ensures Parse(COMMA, ts + rest) == Some((e, rest))
  {
    FlatRender(e, ts);
    RoundTrip.RoundTrip(e, rest);
  }

  // ----- chains of operands and operators of any length -----

  /** An operand of a chain. */
  predicate IsOperand(e: Tree)
  {
    match e
    case Id(_) => true
    case Lit(_) => true
    case Dot(a, _) => (a.Id? || a.Lit? || a.Dot?) && IsOperand(a)
    case Un(_, a) => IsOperand(a)
    case _ => false
  }

  /** The next operator of a chain with its token and the operand after it. */
  datatype Link = Link(tok: Tok, op: BinOp, operand: Tree, toks: seq<Tok>)

  ghost predicate IsLink(k: Link)
  {
    (exists i: nat :: InRow(k.tok, k.op, i)) && IsOperand(k.operand) && Spells(k.operand, k.toks)
  }

  /** The operator goes down the right edge of the tree as long as it is tighter than the operator there. */
  ghost function Attach(e: Tree, p: BinOp, operand: Tree): Tree
  {
    if e.Bin? && Tighter(p, e.bin) then Bin(e.bin, e.left, Attach(e.right, p, operand)) else Bin(p, e, operand)
  }

  /** The tree of a chain, by the list alone. */
  ghost function Grown(first: Tree, links: seq<Link>): Tree
  {
    if links == [] then first
    else
      var last := links[|links| - 1];
      Attach(Grown(first, links[..|links| - 1]), last.op, last.operand)
  }

  function Spelled(first: seq<Tok>, links: seq<Link>): seq<Tok>
  {
    if links == [] then first
    else
      var last := links[|links| - 1];
      Spelled(first, links[..|links| - 1]) + [last.tok] + last.toks
  }

  lemma {:induction false} OperandObeys(e: Tree)
    requires IsOperand(e)
    ensures Obeys(e) && !e.Bin?
  {
    match e
    case Dot(a, _) => OperandObeys(a);
    case Un(_, a) => OperandObeys(a);
    case _ =>
  }

  lemma {:induction false} AttachObeys(e: Tree, p: BinOp, operand: Tree)
    requires Obeys(e) && IsOperand(operand)
    ensures Obeys(Attach(e, p, operand))
    ensures var top := Attach(e, p, operand); top.Bin? && (top.bin == p || (e.Bin? && top.bin == e.bin))
    decreases e
  {
    hide Tighter;
    OperandObeys(operand);
    if e.Bin? && Tighter(p, e.bin) {
      AttachObeys(e.right, p, operand);
    }
  }

  lemma {:induction false} AttachSpells(e: Tree, ts: seq<Tok>, t: Tok, p: BinOp, i: nat, operand: Tree, more: seq<Tok>)
    requires Spells(e, ts) && InRow(t, p, i) && Spells(operand, more)
    ensures Spells(Attach(e, p, operand), ts + [t] + more)
    decreases e
  {
    hide Tighter, InRow, Splits, Spells;
    if e.Bin? && Tighter(p, e.bin) {
      var k, j := SplitOf(e, ts);
      AttachSpells(e.right, ts[k + 1..], t, p, i, operand, more);
      assert ts[k + 1..] + ([t] + more) == ts[k + 1..] + [t] + more && ts + ([t] + more) == ts + [t] + more;
      Deeper(e, ts, k, j, [t] + more, Attach(e.right, p, operand));
    } else {
      Above(e, ts, t, p, i, operand, more);
    }
  }

  lemma Deeper(e: Tree, ts: seq<Tok>, k: nat, j: nat, more: seq<Tok>, right: Tree)
    requires e.Bin? && k < |ts| && Splits(ts, e.bin, k, j) && Spells(e.left, ts[..k]) && Spells(right, ts[k + 1..] + more)
    ensures Spells(Bin(e.bin, e.left, right), ts + more)
  {
    hide InRow, Splits, Spells;
    var all := ts + more;
    assert all[..k] == ts[..k] && all[k] == ts[k] && all[k + 1..] == ts[k + 1..] + more;
    SplitMore(ts, e.bin, k, j, all);
    Joined(Bin(e.bin, e.left, right), all, k, j);
  }

  lemma Above(e: Tree, ts: seq<Tok>, t: Tok, p: BinOp, i: nat, operand: Tree, more: seq<Tok>)
    requires Spells(e, ts) && InRow(t, p, i) && Spells(operand, more)
    ensures Spells(Bin(p, e, operand), ts + [t] + more)
  {
    hide InRow, Splits, Spells;
    var all := ts + [t] + more;
    assert all[..|ts|] == ts && all[|ts| + 1..] == more && all[|ts|] == t;
    SplitHere(all, p, |ts|, i);
    Joined(Bin(p, e, operand), all, |ts|, i);
  }

  lemma SplitMore(ts: seq<Tok>, p: BinOp, k: nat, i: nat, all: seq<Tok>)
    requires Splits(ts, p, k, i) && |ts| <= |all| && all[k] == ts[k]
    ensures Splits(all, p, k, i)
  {
  }

  lemma SplitHere(ts: seq<Tok>, p: BinOp, k: nat, i: nat)
    requires k < |ts| && InRow(ts[k], p, i)
    ensures Splits(ts, p, k, i)
  {
  }

  lemma Joined(e: Tree, ts: seq<Tok>, k: nat, i: nat)
    requires e.Bin? && k < |ts| && Splits(ts, e.bin, k, i) && Spells(e.left, ts[..k]) && Spells(e.right, ts[k + 1..])
    ensures Spells(e, ts)
  {
  }

  /** Any chain of operands and binary operators is parsed to the tree the list gives it. */
  lemma {:induction false} ChainParses(first: Tree, ts: seq<Tok>, links: seq<Link>, rest: seq<Tok>)
    requires IsOperand(first) && Spells(first, ts) && forall k :: k in links ==> IsLink(k)
    requires rest == [] || rest[0] in {TkCParen, TkCBracket, TkColon, TkOther}
    ensures Parse(COMMA, Spelled(ts, links) + rest) == Some((Grown(first, links), rest))
  {
    hide Parse, Obeys, Spells, IsOperand;
    GrownFits(first, ts, links);
    FlatParses(Grown(first, links), Spelled(ts, links), rest);
  }

  lemma {:induction false} GrownFits(first: Tree, ts: seq<Tok>, links: seq<Link>)
    requires IsOperand(first) && Spells(first, ts) && forall k :: k in links ==> IsLink(k)
    ensures Obeys(Grown(first, links)) && Spells(Grown(first, links), Spelled(ts, links))
  {
    hide Obeys, Spells, IsOperand, InRow;
    if links == [] {
      OperandObeys(first);
    } else {
      var last, before := links[|links| - 1], links[..|links| - 1];
      assert IsLink(last);
      var i: nat :| InRow(last.tok, last.op, i);
      GrownFits(first, ts, before);
      AttachObeys(Grown(first, before), last.op, last.operand);
      AttachSpells(Grown(first, before), Spelled(ts, before), last.tok, last.op, i, last.operand, last.toks);
    }
  }

  // ----- two operators -----

  lemma TightRows(p: BinOp, i: nat, q: BinOp, j: nat)
    requires p in Row(i) && q in Row(j)
    ensures Tighter(q, p) <==> i < j
  {
    hide Row, Tighter, BinLevel;
    RowLevel(p, i);
    RowLevel(q, j);
    TighterLevel(q, p);
  }

  /** `a p b q c` with operators from any two rows: the tighter one is applied first, the left one if they are in
      the same row. */
  lemma TwoOperators(a: string, b: string, c: string, t: Tok, p: BinOp, i: nat, u: Tok, q: BinOp, j: nat)
    requires InRow(t, p, i) && InRow(u, q, j)
    ensures Parse(COMMA, [TkIdent(a), t, TkIdent(b), u, TkIdent(c)]) ==
            Some((if i < j then Bin(p, Id(a), Bin(q, Id(b), Id(c))) else Bin(q, Bin(p, Id(a), Id(b)), Id(c)), []))
  {
    hide Parse, InRow, Tighter;
    var first, second := Link(t, p, Id(b), [TkIdent(b)]), Link(u, q, Id(c), [TkIdent(c)]);
    assert IsLink(first) && IsLink(second);
    ChainParses(Id(a), [TkIdent(a)], [first, second], []);
    TightRows(p, i, q, j) by { RowOf(t, p, i); RowOf(u, q, j); }
    TwoLinks(Id(a), [TkIdent(a)], first, second);
    assert Spelled([TkIdent(a)], [first, second]) + [] == [TkIdent(a), t, TkIdent(b), u, TkIdent(c)];
  }

  lemma TwoLinks(e: Tree, ts: seq<Tok>, first: Link, second: Link)
    ensures Spelled(ts, [first, second]) == ts + [first.tok] + first.toks + [second.tok] + second.toks
    ensures !e.Bin? ==>
              Grown(e, [first, second]) ==
              if Tighter(second.op, first.op) then Bin(first.op, e, Attach(first.operand, second.op, second.operand))
              else Bin(second.op, Bin(first.op, e, first.operand), second.operand)
  {
    hide Tighter;
    assert [first, second][..1] == [first] && [first][..0] == [];
    assert Spelled(ts, [first]) == ts + [first.tok] + first.toks;
    assert Grown(e, [first]) == Attach(e, first.op, first.operand);
  }

  /** A prefix operator applies to the operand after it alone, and to its accesses: `u a p b` and `u a.x p b`. */
  lemma PrefixFirst(a: string, x: string, b: string, w: Tok, un: UnOp, t: Tok, p: BinOp, i: nat)
    requires IsPrefix(w, un) && InRow(t, p, i)
    ensures Parse(COMMA, [w, TkIdent(a), t, TkIdent(b)]) == Some((Bin(p, Un(un, Id(a)), Id(b)), []))
    ensures Parse(COMMA, [w, TkIdent(a), TkDot, TkIdent(x), t, TkIdent(b)]) ==
            Some((Bin(p, Un(un, Dot(Id(a), x)), Id(b)), []))
    ensures Parse(COMMA, [TkIdent(b), t, w, TkIdent(a)]) == Some((Bin(p, Id(b), Un(un, Id(a))), []))
  {
    hide Parse, InRow, Tighter, IsPrefix;
    var name, member := [w, TkIdent(a)], [w, TkIdent(a), TkDot, TkIdent(x)];
    assert name[1..] == [TkIdent(a)] && member[1..] == [TkIdent(a), TkDot, TkIdent(x)];
    assert [TkIdent(a), TkDot, TkIdent(x)][..1] == [TkIdent(a)] && [TkIdent(a), TkDot, TkIdent(x)][1..] == [TkDot, TkIdent(x)];
    OneOperator(Un(un, Id(a)), name, Id(b), [TkIdent(b)], t, p, i);
    OneOperator(Un(un, Dot(Id(a), x)), member, Id(b), [TkIdent(b)], t, p, i);
    OneOperator(Id(b), [TkIdent(b)], Un(un, Id(a)), name, t, p, i);
    assert name + [t] + [TkIdent(b)] == [w, TkIdent(a), t, TkIdent(b)];
    assert member + [t] + [TkIdent(b)] == [w, TkIdent(a), TkDot, TkIdent(x), t, TkIdent(b)];
    assert [TkIdent(b)] + [t] + name == [TkIdent(b), t, w, TkIdent(a)];
  }

  lemma OneOperator(l: Tree, ls: seq<Tok>, r: Tree, rs: seq<Tok>, t: Tok, p: BinOp, i: nat)
    requires IsOperand(l) && Spells(l, ls) && IsOperand(r) && Spells(r, rs) && InRow(t, p, i)
    ensures Parse(COMMA, ls + [t] + rs) == Some((Bin(p, l, r), []))
  {
    hide Parse, InRow, Tighter, Spells, IsOperand;
    var link := Link(t, p, r, rs);
    assert [link][..0] == [];
    OperandObeys(l);
    ChainParses(l, ls, [link], []);
    assert ls + [t] + rs + [] == ls + [t] + rs;
  }

  // ----- conditionals -----

  /** What may follow a whole expression. */
  predicate Ends(rest: seq<Tok>)
  {
    rest == [] || rest[0] in {TkCParen, TkCBracket, TkColon, TkOther}
  }

  /** A conditional without parentheses: its condition takes everything tighter than an assignment, and its second
      alternative everything up to the end of the expression. */
  lemma CondFlat(c: Tree, cs: seq<Tok>, y: Tree, ys: seq<Tok>, n: Tree, ns: seq<Tok>, rest: seq<Tok>)
    requires Obeys(c) && Spells(c, cs) && Obeys(y) && Spells(y, ys) && Obeys(n) && Spells(n, ns) && Ends(rest)
    requires c.Bin? ==> Tighter(c.bin, BAssign)
    ensures Parse(TERNARY, cs + [TkQuestion] + ys + [TkColon] + ns + rest) == Some((Cond(c, y, n), rest))
  {
    hide Parse, Obeys, Spells, Tighter, Calm, Body;
    var no := ns + rest;
    var yes := ys + ([TkColon] + no);
    FlatRender(c, cs);
    if c.Bin? { TighterLevel(c.bin, BAssign); }
    ConditionLevel(c);
    CalmQuestion(c, yes);
    RenderParses(OR, c, [TkQuestion] + yes);
    FlatParses(y, ys, [TkColon] + no);
    FlatParses(n, ns, rest);
    assert cs + [TkQuestion] + ys + [TkColon] + ns + rest == cs + ([TkQuestion] + yes);
    CondOnce(Cond(c, y, n), cs + ([TkQuestion] + yes), yes, no, rest);
  }

  lemma ConditionLevel(c: Tree)
    requires Obeys(c) && (c.Bin? ==> BinLevel(c.bin) > BinLevel(BAssign))
    ensures Render(OR, c) == Body(c)
  {
    hide Body;
  }

  /** A conditional as a right operand of an operator that is not tighter than an assignment. */
  lemma CondRight(a: string, c: Tree, ts: seq<Tok>, p: BinOp)
    requires p in {BComma, BAssign} && Parse(TERNARY, ts) == Some((c, []))
    ensures Parse(COMMA, [TkIdent(a), BinTok(p)] + ts) == Some((Bin(p, Id(a), c), []))
  {
    hide Parse, Loop, Calm;
    var k, all := BinLevel(p), [TkIdent(a)] + ([BinTok(p)] + ts);
    InfixBack(p, ts);
    RenderParses(k, Id(a), [BinTok(p)] + ts);
    assert Render(k, Id(a)) == [TkIdent(a)];
    NothingLeft(k + 1, c);
    Descend(k + 1, TERNARY, c, ts, []);
    LoopOnce(k, p, Id(a), c, ts, []);
    NothingLeft(k, Bin(p, Id(a), c));
    NothingLeft(COMMA, Bin(p, Id(a), c));
    Descend(COMMA, k, Bin(p, Id(a), c), all, []);
    assert all == [TkIdent(a), BinTok(p)] + ts;
  }

  lemma NothingLeft(k: nat, e: Tree)
    requires k <= TERNARY
    ensures Calm(k, []) && Tail(k, e, []) == Some((e, [])) && Tail(TERNARY, e, []) == Some((e, []))
  {
    assert BinAt(k, []) == None;
  }

  /** `a p b ? c : d`: the condition is all of `a p b` if p is tighter than an assignment, and b otherwise. */
  lemma CondAfter(a: string, b: string, c: string, d: string, t: Tok, p: BinOp, i: nat)
    requires InRow(t, p, i)
    ensures Parse(COMMA, [TkIdent(a), t, TkIdent(b), TkQuestion, TkIdent(c), TkColon, TkIdent(d)]) ==
            Some((if i < 2 then Bin(p, Id(a), Cond(Id(b), Id(c), Id(d))) else Cond(Bin(p, Id(a), Id(b)), Id(c), Id(d)), []))
  {
    hide Parse, InRow, Tighter, Row;
    var more := [TkQuestion, TkIdent(c), TkColon, TkIdent(d)];
    RowOf(t, p, i);
    RowLevel(p, i);
    assert [TkIdent(a), t, TkIdent(b)] + more == [TkIdent(a), t, TkIdent(b), TkQuestion, TkIdent(c), TkColon, TkIdent(d)];
    if i < 2 {
      CondFlat(Id(b), [TkIdent(b)], Id(c), [TkIdent(c)], Id(d), [TkIdent(d)], []);
      var ts := [TkIdent(b)] + [TkQuestion] + [TkIdent(c)] + [TkColon] + [TkIdent(d)] + [];
      CondRight(a, Cond(Id(b), Id(c), Id(d)), ts, p);
      assert [TkIdent(a), t] + ts == [TkIdent(a), t, TkIdent(b)] + more;
    } else {
      var e, es := Bin(p, Id(a), Id(b)), [TkIdent(a), t, TkIdent(b)];
      TighterLevel(p, BAssign);
      Above(Id(a), [TkIdent(a)], t, p, i, Id(b), [TkIdent(b)]);
      assert [TkIdent(a)] + [t] + [TkIdent(b)] == es;
      CondFlat(e, es, Id(c), [TkIdent(c)], Id(d), [TkIdent(d)], []);
      CondWhole(Cond(e, Id(c), Id(d)), es + [TkQuestion] + [TkIdent(c)] + [TkColon] + [TkIdent(d)] + []);
      assert es + [TkQuestion] + [TkIdent(c)] + [TkColon] + [TkIdent(d)] + [] == es + more;
    }
  }

  lemma CondWhole(e: Tree, ts: seq<Tok>)
    requires Parse(TERNARY, ts) == Some((e, []))
    ensures Parse(COMMA, ts) == Some((e, []))
  {
    hide Parse, Tail, Calm;
    NothingLeft(COMMA, e);
    Descend(COMMA, TERNARY, e, ts, []);
  }

  /** `a ? b : c p d`: the second alternative is all of `c p d`, whatever p is. */
  lemma CondBefore(a: string, b: string, c: string, d: string, t: Tok, p: BinOp, i: nat)
    requires InRow(t, p, i)
    ensures Parse(COMMA, [TkIdent(a), TkQuestion, TkIdent(b), TkColon, TkIdent(c), t, TkIdent(d)]) ==
            Some((Cond(Id(a), Id(b), Bin(p, Id(c), Id(d))), []))
  {
    hide Parse, InRow, Tighter;
    var n, ns := Bin(p, Id(c), Id(d)), [TkIdent(c), t, TkIdent(d)];
    Above(Id(c), [TkIdent(c)], t, p, i, Id(d), [TkIdent(d)]);
    assert [TkIdent(c)] + [t] + [TkIdent(d)] == ns;
    CondFlat(Id(a), [TkIdent(a)], Id(b), [TkIdent(b)], n, ns, []);
    var all := [TkIdent(a)] + [TkQuestion] + [TkIdent(b)] + [TkColon] + ns + [];
    CondWhole(Cond(Id(a), Id(b), n), all);
    assert all == [TkIdent(a), TkQuestion, TkIdent(b), TkColon, TkIdent(c), t, TkIdent(d)];
  }

  // ----- lists in brackets -----

  /** A comma separates the arguments of a call, and an assignment is one argument; between square brackets a comma is
      an operator. */
  lemma CommaInBrackets(f: string, a: string, b: string, c: string)
    ensures Parse(COMMA, [TkIdent(f), TkOParen, TkIdent(a), TkComma, TkIdent(b), TkAssign, TkIdent(c), TkCParen]) ==
            Some((CallOf(Id(f), TCons(Id(a), TCons(Bin(BAssign, Id(b), Id(c)), TNil))), []))
    ensures Parse(COMMA, [TkIdent(f), TkOBracket, TkIdent(a), TkComma, TkIdent(b), TkCBracket]) ==
            Some((Index(Id(f), Bin(BComma, Id(a), Id(b))), []))
  {
    hide Parse;
    var assign, comma := Bin(BAssign, Id(b), Id(c)), Bin(BComma, Id(a), Id(b));
    var call, index := CallOf(Id(f), TCons(Id(a), TCons(assign, TNil))), Index(Id(f), comma);
    RoundTrip.RoundTrip(call, []);
    RoundTrip.RoundTrip(index, []);
    RenderNames(ASSIGNMENT, BAssign, b, c);
    RenderNames(COMMA, BComma, a, b);
    assert RenderArgs(TCons(assign, TNil)) == Render(ASSIGNMENT, assign);
    assert RenderArgs(call.args) == Render(ASSIGNMENT, Id(a)) + [TkComma] + Render(ASSIGNMENT, assign);
    assert Render(ASSIGNMENT, Id(a)) == [TkIdent(a)] && Render(POSTFIX, Id(f)) == [TkIdent(f)];
    assert Body(call) == [TkIdent(f)] + Paren(RenderArgs(call.args));
    assert Body(index) == [TkIdent(f)] + [TkOBracket] + Render(COMMA, comma) + [TkCBracket];
    assert Render(COMMA, call) + [] == [TkIdent(f), TkOParen, TkIdent(a), TkComma, TkIdent(b), TkAssign, TkIdent(c), TkCParen];
    assert Render(COMMA, index) + [] == [TkIdent(f), TkOBracket, TkIdent(a), TkComma, TkIdent(b), TkCBracket];
  }

  lemma RenderNames(k: nat, p: BinOp, a: string, b: string)
    requires k <= BinLevel(p)
    ensures Render(k, Bin(p, Id(a), Id(b))) == [TkIdent(a), BinTok(p), TkIdent(b)]
  {
    RenderName(BinLevel(p), a);
    RenderName(BinLevel(p) + 1, b);
  }

  lemma RenderName(k: nat, a: string)
    requires k <= PRIMARY
    ensures Render(k, Id(a)) == [TkIdent(a)]
  {
  }
}
