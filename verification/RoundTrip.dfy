/** Rendering an expression and parsing it again gives the same expression and uses up exactly its tokens. */
module RoundTrip {
  import opened Ast
  import opened Syntax

  /** What level k does after an operand e has been parsed. */
  function Tail(k: nat, e: Tree, ts: seq<Tok>): Option<(Tree, seq<Tok>)>
    requires k <= PRIMARY
  {
    if k == PRIMARY || k == UNARY then Some((e, ts))
    else if k == POSTFIX then ParsePostfix(e, ts)
    else if k == TERNARY then ParseTernary(e, ts)
    else Loop(k, e, ts)
  }

  /** No level tighter than k goes on with these tokens. */
  predicate Calm(k: nat, ts: seq<Tok>)
  {
    ts == [] ||
    (&& (InfixOf(ts[0]).Some? ==> BinLevel(InfixOf(ts[0]).value) <= k)
     && (ts[0] == TkQuestion ==> TERNARY <= k)
     && (ts[0] in {TkDot, TkOParen, TkOBracket} ==> POSTFIX <= k)
     && (ts[0] == TkAs ==> PRIMARY <= k))
  }

  lemma TailCalm(k: nat, m: nat, e: Tree, ts: seq<Tok>)
    requires Calm(k, ts) && k < m <= PRIMARY
    ensures Tail(m, e, ts) == Some((e, ts))
  {
    if m == POSTFIX {
      assert Accesses(e, ts) == Some((e, ts));
    } else if m <= MULTIPLICATION {
      assert BinAt(m, ts) == None;
    }
  }

  /** Neither a prefix operator nor a cast. */
  predicate Plain(ts: seq<Tok>)
  {
    ts != [] && (ts[0].TkLit? || ts[0].TkIdent? || (ts[0] == TkOParen && |ts| > 1 && !ts[1].TkType?))
  }

  lemma PlainUnary(ts: seq<Tok>)
    requires Plain(ts)
    ensures ParseUnary(ts) == Parse(POSTFIX, ts)
  {
  }

  /** From the level at which an expression stands to any looser one. */
  lemma {:induction false} Descend(k: nat, j: nat, e: Tree, ts: seq<Tok>, rest: seq<Tok>)
    requires k <= j <= PRIMARY && Parse(j, ts) == Tail(j, e, rest) && Calm(k, rest)
    requires j <= UNARY || Plain(ts)
    ensures Parse(k, ts) == Tail(k, e, rest)
    decreases j - k
  {
    hide ParseUnary, ParsePrimary, ParsePostfix, ParseTernary, Loop, Calm;
    if k < j {
      CalmUp(k, k + 1, rest);
      Descend(k + 1, j, e, ts, rest);
      TailCalm(k, k + 1, e, rest);
      if k == UNARY {
        PlainUnary(ts);
      }
    }
  }

  lemma CalmUp(k: nat, j: nat, ts: seq<Tok>)
    requires Calm(k, ts) && k <= j
    ensures Calm(j, ts)
  {
  }

  lemma Chop(t: Tok, ts: seq<Tok>)
    ensures ([t] + ts)[0] == t && ([t] + ts)[1..] == ts
  {
  }

  /** Symbols after which every level stops. */
  lemma CalmAt(t: Tok, ts: seq<Tok>)
    requires t in {TkCParen, TkCBracket, TkColon}
    ensures forall k: nat :: Calm(k, [t] + ts)
  {
  }

  // ----- first tokens -----

  /** A rendered expression does not start with a type. */
  lemma {:induction false} FirstToken(k: nat, e: Tree)
    ensures Render(k, e) != [] && !Render(k, e)[0].TkType?
    ensures Body(e) != [] && !Body(e)[0].TkType?
    decreases e
  {
    match e
    case Dot(a, _) => FirstToken(POSTFIX, a);
    case CallOf(a, _) => FirstToken(POSTFIX, a);
    case Index(a, _) => FirstToken(POSTFIX, a);
    case Bin(op, l, _) => FirstToken(BinLevel(op), l);
    case _ =>
  }

  /** A primary expression or an access starts plainly. */
  lemma {:induction false} PlainStart(k: nat, e: Tree, rest: seq<Tok>)
    requires k >= POSTFIX
    ensures Plain(Render(k, e) + rest)
    decreases e
  {
    if LevelOf(e) < k {
      FirstToken(0, e);
      PlainParen(Body(e), rest);
    } else {
      match e
      case Dot(a, x) =>
        PlainStart(POSTFIX, a, []);
        PlainMore(Render(POSTFIX, a) + [], [TkDot, TkIdent(x)] + rest);
        assert Render(k, e) + rest == Render(POSTFIX, a) + [] + ([TkDot, TkIdent(x)] + rest);
      case CallOf(a, args) =>
        PlainStart(POSTFIX, a, []);
        PlainMore(Render(POSTFIX, a) + [], Paren(RenderArgs(args)) + rest);
        assert Render(k, e) + rest == Render(POSTFIX, a) + [] + (Paren(RenderArgs(args)) + rest);
      case Index(a, i) =>
        PlainStart(POSTFIX, a, []);
        PlainMore(Render(POSTFIX, a) + [], [TkOBracket] + Render(COMMA, i) + [TkCBracket] + rest);
        assert Render(k, e) + rest
               == Render(POSTFIX, a) + [] + ([TkOBracket] + Render(COMMA, i) + [TkCBracket] + rest);
      case AsType(a, t) =>
        FirstToken(PRIMARY, a);
        PlainParen(Render(PRIMARY, a) + [TkAs] + RenderType(t), rest);
      case Cond(c, y, n) =>
        FirstToken(OR, c);
        PlainParen(Render(OR, c) + [TkQuestion] + Render(COMMA, y) + [TkColon] + Render(COMMA, n), rest);
      case _ =>
    }
  }

  lemma PlainParen(ts: seq<Tok>, rest: seq<Tok>)
    requires ts != [] && !ts[0].TkType?
    ensures Plain(Paren(ts) + rest)
  {
  }

  lemma PlainMore(ts: seq<Tok>, rest: seq<Tok>)
    requires Plain(ts)
    ensures Plain(ts + rest)
  {
  }

  // ----- types -----

  lemma {:induction false} StarsBack(n: nat, rest: seq<Tok>)
    requires !Syntax.Starts(rest, TkAsterisk)
    ensures Stars(Repeat(n) + rest) == (n, rest)
  {
    if n == 0 {
      assert Repeat(0) + rest == rest;
    } else {
      assert Repeat(n) + rest == [TkAsterisk] + (Repeat(n - 1) + rest);
      Chop(TkAsterisk, Repeat(n - 1) + rest);
      StarsBack(n - 1, rest);
    }
  }

  lemma TypeBack(t: TypeExpr, rest: seq<Tok>)
    requires !Syntax.Starts(rest, TkAsterisk) && !Syntax.Starts(rest, TkOBracket)
    ensures ParseType(RenderType(t) + rest) == Some((t, rest))
  {
    assert RenderType(t) + rest == [TkType(t.base)] + (Repeat(t.stars) + rest);
    Chop(TkType(t.base), Repeat(t.stars) + rest);
    StarsBack(t.stars, rest);
  }

  // ----- the round trip -----

  /** What is proved of an expression where level k is wanted. */
  predicate Returns(k: nat, e: Tree, rest: seq<Tok>)
    requires k <= PRIMARY
  {
    Parse(k, Render(k, e) + rest) == Tail(k, e, rest)
  }

  lemma {:induction false} RenderParses(k: nat, e: Tree, rest: seq<Tok>)
    requires k <= PRIMARY && Calm(k, rest)
    ensures Returns(k, e, rest)
    decreases e, 2
  {
    hide Parse, Tail, Calm, Body;
    var j := LevelOf(e);
    if j >= k {
      CalmUp(k, j, rest);
      BodyParses(e, rest);
      if j >= POSTFIX {
        PlainStart(j, e, rest);
      }
      Descend(k, j, e, Body(e) + rest, rest);
    } else {
      CalmAt(TkCParen, rest);
      BodyParses(e, [TkCParen] + rest);
      if j >= POSTFIX {
        PlainStart(j, e, [TkCParen] + rest);
      }
      Descend(COMMA, j, e, Body(e) + ([TkCParen] + rest), [TkCParen] + rest);
      TailStops(COMMA, e, TkCParen, rest);
      ParenParses(Body(e), e, rest);
      FirstToken(0, e);
      PlainParen(Body(e), rest);
      Descend(k, PRIMARY, e, Paren(Body(e)) + rest, rest);
    }
  }

  lemma TailStops(k: nat, e: Tree, t: Tok, ts: seq<Tok>)
    requires k <= PRIMARY && t in {TkCParen, TkCBracket, TkColon}
    ensures Tail(k, e, [t] + ts) == Some((e, [t] + ts))
  {
    if k == POSTFIX {
      assert Accesses(e, [t] + ts) == Some((e, [t] + ts));
    }
  }

  /** Parentheses around tokens that parse to e. */
  lemma ParenParses(ts: seq<Tok>, e: Tree, rest: seq<Tok>)
    requires Parse(COMMA, ts + ([TkCParen] + rest)) == Some((e, [TkCParen] + rest))
    ensures Parse(PRIMARY, Paren(ts) + rest) == Tail(PRIMARY, e, rest)
  {
    assert Paren(ts) + rest == [TkOParen] + (ts + ([TkCParen] + rest));
    Chop(TkOParen, ts + ([TkCParen] + rest));
    Chop(TkCParen, rest);
  }

  /** An expression inside brackets of some kind, up to the closing one. */
  lemma {:induction false} InnerParses(k: nat, e: Tree, t: Tok, rest: seq<Tok>)
    requires k <= PRIMARY && t in {TkCParen, TkCBracket, TkColon}
    ensures Parse(k, Render(k, e) + ([t] + rest)) == Some((e, [t] + rest))
    decreases e, 3
  {
    hide Parse, Tail, Calm, Render;
    CalmAt(t, rest);
    RenderParses(k, e, [t] + rest);
    TailStops(k, e, t, rest);
  }

  lemma {:induction false} BodyParses(e: Tree, rest: seq<Tok>)
    requires Calm(LevelOf(e), rest)
    ensures Parse(LevelOf(e), Body(e) + rest) == Tail(LevelOf(e), e, rest)
    decreases e, 1
  {
    hide Parse, Tail, Calm, Body, Render;
    match e
    case Lit(_) => AtomParses(e, rest);
    case Id(_) => AtomParses(e, rest);
    case Un(_, _) => PrefixParses(e, rest);
    case CastTo(_, _) => PrefixParses(e, rest);
    case SizeOf(_) => SizeParses(e, rest);
    case LengthOf(_) => LengthParses(e, rest);
    case AsType(_, _) => AsParses(e, rest);
    case Dot(_, _) => AccessParses(e, rest);
    case CallOf(_, _) => AccessParses(e, rest);
    case Index(_, _) => AccessParses(e, rest);
    case Bin(_, _, _) => BinParses(e, rest);
    case Cond(_, _, _) => CondParses(e, rest);
  }

  lemma AtomParses(e: Tree, rest: seq<Tok>)
    requires e.Lit? || e.Id?
    ensures Parse(PRIMARY, Body(e) + rest) == Tail(PRIMARY, e, rest)
  {
    assert Body(e) + rest == [Body(e)[0]] + rest;
    Chop(Body(e)[0], rest);
  }

  /** Binary operators associate to the left at every level, `=` and `,` included. */
  lemma {:induction false} BinParses(e: Tree, rest: seq<Tok>)
    requires e.Bin? && Calm(BinLevel(e.bin), rest)
    ensures Parse(BinLevel(e.bin), Body(e) + rest) == Tail(BinLevel(e.bin), e, rest)
    decreases e, 0
  {
    hide Parse, Calm, Render, Loop;
    var k, t := BinLevel(e.bin), BinTok(e.bin);
    var right := Render(k + 1, e.right) + rest;
    InfixBack(e.bin, right);
    assert Body(e) + rest == Render(k, e.left) + ([t] + right);
    RenderParses(k, e.left, [t] + right);
    CalmUp(k, k + 1, rest);
    RenderParses(k + 1, e.right, rest);
    TailCalm(k, k + 1, e.right, rest);
    LoopOnce(k, e.bin, e.left, e.right, right, rest);
  }

  lemma InfixBack(op: BinOp, ts: seq<Tok>)
    ensures BinAt(BinLevel(op), [BinTok(op)] + ts) == Some(op) && Calm(BinLevel(op), [BinTok(op)] + ts)
  {
    Chop(BinTok(op), ts);
  }

  lemma LoopOnce(k: nat, op: BinOp, l: Tree, r: Tree, right: seq<Tok>, rest: seq<Tok>)
    requires k == BinLevel(op) && Parse(k + 1, right) == Some((r, rest))
    ensures Loop(k, l, [BinTok(op)] + right) == Loop(k, Bin(op, l, r), rest)
  {
    hide Parse;
    InfixBack(op, right);
    Chop(BinTok(op), right);
  }

  lemma {:induction false} PrefixParses(e: Tree, rest: seq<Tok>)
    requires (e.Un? || e.CastTo?) && Calm(UNARY, rest)
    ensures Parse(UNARY, Body(e) + rest) == Tail(UNARY, e, rest)
    decreases e, 0
  {
    hide Calm, Render, RenderType, Parse;
    RenderParses(UNARY, e.arg, rest);
    var arg := Render(UNARY, e.arg) + rest;
    if e.Un? {
      assert Body(e) + rest == [PrefixTok(e.op)] + arg;
      UnOnce(e.op, arg);
    } else {
      assert Body(e) + rest == Paren(RenderType(e.to)) + arg;
      CastOnce(e.to, arg);
    }
  }

  lemma UnOnce(op: UnOp, arg: seq<Tok>)
    ensures Parse(UNARY, [PrefixTok(op)] + arg) ==
            match Parse(UNARY, arg) { case None => None case Some((e, rest)) => Some((Un(op, e), rest)) }
  {
    Chop(PrefixTok(op), arg);
  }

  lemma TypeHead(t: TypeExpr)
    ensures RenderType(t) != [] && RenderType(t)[0] == TkType(t.base)
  {
  }

  lemma AtUnary(ts: seq<Tok>)
    ensures Parse(UNARY, ts) == ParseUnary(ts)
  {
  }

  lemma CastOnce(t: TypeExpr, arg: seq<Tok>)
    ensures Parse(UNARY, Paren(RenderType(t)) + arg) ==
            match Parse(UNARY, arg) { case None => None case Some((e, rest)) => Some((CastTo(t, e), rest)) }
  {
    hide Parse, ParseType, RenderType;
    AtUnary(Paren(RenderType(t)) + arg);
    var ts := Paren(RenderType(t)) + arg;
    var inner := RenderType(t) + ([TkCParen] + arg);
    assert ts == [TkOParen] + inner;
    Chop(TkOParen, inner);
    Chop(TkCParen, arg);
    TypeBack(t, [TkCParen] + arg);
    TypeHead(t);
    assert ts[1] == inner[0] == TkType(t.base);
  }

  lemma SizeParses(e: Tree, rest: seq<Tok>)
    requires e.SizeOf?
    ensures Parse(UNARY, Body(e) + rest) == Tail(UNARY, e, rest)
  {
    hide ParseType, RenderType;
    var inner := RenderType(e.to) + ([TkCParen] + rest);
    assert Body(e) + rest == [TkSizeof] + ([TkOParen] + inner);
    Chop(TkSizeof, [TkOParen] + inner);
    Chop(TkOParen, inner);
    Chop(TkCParen, rest);
    TypeBack(e.to, [TkCParen] + rest);
  }

  lemma {:induction false} LengthParses(e: Tree, rest: seq<Tok>)
    requires e.LengthOf?
    ensures Parse(UNARY, Body(e) + rest) == Tail(UNARY, e, rest)
    decreases e, 0
  {
    hide Render;
    var inner := Render(COMMA, e.arg) + ([TkCParen] + rest);
    assert Body(e) + rest == [TkLengthof] + ([TkOParen] + inner);
    Chop(TkLengthof, [TkOParen] + inner);
    Chop(TkOParen, inner);
    Chop(TkCParen, rest);
    InnerParses(COMMA, e.arg, TkCParen, rest);
  }

  /** A primary expression, `as` and a type, in parentheses. */
  lemma {:induction false} AsParses(e: Tree, rest: seq<Tok>)
    requires e.AsType?
    ensures Parse(PRIMARY, Body(e) + rest) == Tail(PRIMARY, e, rest)
    decreases e, 0
  {
    hide Calm, Render, RenderType, Parse;
    var close := [TkCParen] + rest;
    var ty := RenderType(e.to) + close;
    var inner := Render(PRIMARY, e.arg) + [TkAs] + RenderType(e.to);
    assert inner + close == Render(PRIMARY, e.arg) + ([TkAs] + ty);
    CalmPrimary([TkAs] + ty);
    RenderParses(PRIMARY, e.arg, [TkAs] + ty);
    TypeBack(e.to, close);
    AsOnce(e.arg, inner + close, e.to, ty, close);
    PlainStart(PRIMARY, e.arg, [TkAs] + ty);
    TailStops(POSTFIX, e, TkCParen, rest);
    CalmAt(TkCParen, rest);
    Descend(COMMA, POSTFIX, e, inner + close, close);
    TailStops(COMMA, e, TkCParen, rest);
    ParenParses(inner, e, rest);
  }

  lemma CalmPrimary(ts: seq<Tok>)
    ensures Calm(PRIMARY, ts)
  {
  }

  lemma AsOnce(a: Tree, ts: seq<Tok>, t: TypeExpr, ty: seq<Tok>, rest: seq<Tok>)
    requires Parse(PRIMARY, ts) == Some((a, [TkAs] + ty)) && ParseType(ty) == Some((t, rest))
    ensures Parse(POSTFIX, ts) == Some((AsType(a, t), rest))
  {
    hide ParsePrimary, ParseType;
    Chop(TkAs, ty);
  }

  /** Member, call and index expressions. */
  lemma {:induction false} AccessParses(e: Tree, rest: seq<Tok>)
    requires (e.Dot? || e.CallOf? || e.Index?) && Calm(POSTFIX, rest)
    ensures Parse(POSTFIX, Body(e) + rest) == Tail(POSTFIX, e, rest)
    decreases e, 0
  {
    hide Calm, Render, Parse, Accesses;
    var more := if e.Dot? then [TkDot] + ([TkIdent(e.name)] + rest)
                else if e.CallOf? then [TkOParen] + (RenderArgs(e.args) + ([TkCParen] + rest))
                else [TkOBracket] + (Render(COMMA, e.at) + ([TkCBracket] + rest));
    assert Body(e) + rest == Render(POSTFIX, e.arg) + more;
    CalmAccess(more);
    RenderParses(POSTFIX, e.arg, more);
    NoAs(e, rest);
    if e.Dot? {
      DotOnce(e.arg, e.name, rest);
    } else if e.CallOf? {
      ArgsParse(e.args, rest);
      CallOnce(e.arg, e.args, RenderArgs(e.args) + ([TkCParen] + rest), rest);
    } else {
      InnerParses(COMMA, e.at, TkCBracket, rest);
      IndexOnce(e.arg, e.at, Render(COMMA, e.at) + ([TkCBracket] + rest), rest);
    }
  }

  lemma CalmAccess(ts: seq<Tok>)
    requires ts != [] && ts[0] in {TkDot, TkOParen, TkOBracket}
    ensures Calm(POSTFIX, ts)
    ensures forall e :: ParsePostfix(e, ts) == Accesses(e, ts)
  {
  }

  lemma NoAs(e: Tree, rest: seq<Tok>)
    requires Calm(POSTFIX, rest)
    ensures Tail(POSTFIX, e, rest) == Accesses(e, rest)
  {
  }

  lemma DotOnce(a: Tree, x: string, rest: seq<Tok>)
    ensures Accesses(a, [TkDot] + ([TkIdent(x)] + rest)) == Accesses(Dot(a, x), rest)
  {
    var ts := [TkDot] + ([TkIdent(x)] + rest);
    assert ts[1] == TkIdent(x) && ts[2..] == rest;
  }

  lemma CallOnce(a: Tree, args: Trees, inner: seq<Tok>, rest: seq<Tok>)
    requires Arguments(inner) == Some((args, [TkCParen] + rest))
    ensures Accesses(a, [TkOParen] + inner) == Accesses(CallOf(a, args), rest)
  {
    hide Arguments;
    Chop(TkOParen, inner);
    Chop(TkCParen, rest);
  }

  lemma IndexOnce(a: Tree, i: Tree, inner: seq<Tok>, rest: seq<Tok>)
    requires Parse(COMMA, inner) == Some((i, [TkCBracket] + rest))
    ensures Accesses(a, [TkOBracket] + inner) == Accesses(Index(a, i), rest)
  {
    hide Parse;
    Chop(TkOBracket, inner);
    Chop(TkCBracket, rest);
  }

  /** The arguments of a call, up to the closing parenthesis. */
  lemma {:induction false} ArgsParse(args: Trees, rest: seq<Tok>)
    ensures Arguments(RenderArgs(args) + ([TkCParen] + rest)) == Some((args, [TkCParen] + rest))
    decreases args, 4
  {
    hide Render, Parse, Calm;
    var close := [TkCParen] + rest;
    if args.TNil? {
      assert RenderArgs(args) + close == close;
      Chop(TkCParen, rest);
    } else if args.tail.TNil? {
      InnerParses(ASSIGNMENT, args.head, TkCParen, rest);
      FirstToken(ASSIGNMENT, args.head);
      LastArg(args.head, RenderArgs(args) + close, rest);
    } else {
      var more := RenderArgs(args.tail) + close;
      assert RenderArgs(args) + close == Render(ASSIGNMENT, args.head) + ([TkComma] + more);
      CalmComma(more, args.head);
      RenderParses(ASSIGNMENT, args.head, [TkComma] + more);
      ArgsParse(args.tail, rest);
      NextArg(args.head, args.tail, RenderArgs(args) + close, more, close);
    }
  }

  lemma CalmComma(ts: seq<Tok>, e: Tree)
    ensures Calm(ASSIGNMENT, [TkComma] + ts) && Tail(ASSIGNMENT, e, [TkComma] + ts) == Some((e, [TkComma] + ts))
  {
    assert BinAt(ASSIGNMENT, [TkComma] + ts) == None;
  }

  /** Where an expression can be parsed, it is not closing. */
  lemma NotClosing(k: nat, ts: seq<Tok>)
    requires k <= PRIMARY && Parse(k, ts).Some?
    ensures ts != [] && ts[0] != TkCParen
    decreases PRIMARY - k
  {
    if k < PRIMARY {
      if k == UNARY {
        if ts[0] == TkCParen {
          NotClosing(k + 1, ts);
        }
      } else {
        NotClosing(k + 1, ts);
      }
    }
  }

  lemma LastArg(e: Tree, ts: seq<Tok>, rest: seq<Tok>)
    requires Parse(ASSIGNMENT, ts) == Some((e, [TkCParen] + rest))
    ensures Arguments(ts) == Some((TCons(e, TNil), [TkCParen] + rest))
  {
    hide Parse;
    NotClosing(ASSIGNMENT, ts);
    Chop(TkCParen, rest);
  }

  lemma NextArg(e: Tree, tail: Trees, ts: seq<Tok>, more: seq<Tok>, rest: seq<Tok>)
    requires Parse(ASSIGNMENT, ts) == Some((e, [TkComma] + more)) && Arguments(more) == Some((tail, rest))
    ensures Arguments(ts) == Some((TCons(e, tail), rest))
  {
    hide Parse;
    NotClosing(ASSIGNMENT, ts);
    Chop(TkComma, more);
  }

  /** A conditional, in parentheses. */
  lemma {:induction false} CondParses(e: Tree, rest: seq<Tok>)
    requires e.Cond?
    ensures Parse(PRIMARY, Body(e) + rest) == Tail(PRIMARY, e, rest)
    decreases e, 0
  {
    hide Calm, Render, Parse;
    var close := [TkCParen] + rest;
    var no := Render(COMMA, e.no) + close;
    var yes := Render(COMMA, e.yes) + ([TkColon] + no);
    var inner := Render(OR, e.cond) + [TkQuestion] + Render(COMMA, e.yes) + [TkColon] + Render(COMMA, e.no);
    assert inner + close == Render(OR, e.cond) + ([TkQuestion] + yes);
    CalmQuestion(e.cond, yes);
    RenderParses(OR, e.cond, [TkQuestion] + yes);
    InnerParses(COMMA, e.yes, TkColon, no);
    InnerParses(COMMA, e.no, TkCParen, rest);
    CondOnce(e, inner + close, yes, no, close);
    TailStops(TERNARY, e, TkCParen, rest);
    CalmAt(TkCParen, rest);
    Descend(COMMA, TERNARY, e, inner + close, close);
    TailStops(COMMA, e, TkCParen, rest);
    ParenParses(inner, e, rest);
  }

  lemma CalmQuestion(e: Tree, ts: seq<Tok>)
    ensures Calm(OR, [TkQuestion] + ts) && Tail(OR, e, [TkQuestion] + ts) == Some((e, [TkQuestion] + ts))
  {
    assert BinAt(OR, [TkQuestion] + ts) == None;
  }

  lemma CondOnce(e: Tree, ts: seq<Tok>, yes: seq<Tok>, no: seq<Tok>, rest: seq<Tok>)
    requires e.Cond? && Parse(OR, ts) == Some((e.cond, [TkQuestion] + yes))
    requires Parse(COMMA, yes) == Some((e.yes, [TkColon] + no)) && Parse(COMMA, no) == Some((e.no, rest))
    ensures Parse(TERNARY, ts) == Some((e, rest))
  {
    hide Loop;
    Chop(TkQuestion, yes);
    Chop(TkColon, no);
  }

  /** Whatever follows, as long as it does not go on with the expression, parsing the rendered tokens of a
      tree gives back the tree and leaves exactly what follows. */
  lemma RoundTrip(e: Tree, rest: seq<Tok>)
    requires rest == [] || rest[0] in {TkCParen, TkCBracket, TkColon, TkOther}
    ensures Parse(COMMA, Render(COMMA, e) + rest) == Some((e, rest))
  {
    hide Parse, Render;
    assert Calm(COMMA, rest);
    assert BinAt(COMMA, rest) == None;
    RenderParses(COMMA, e, rest);
  }

  /** Different trees are rendered differently. */
  lemma RenderUnique(a: Tree, b: Tree)
    requires Render(COMMA, a) == Render(COMMA, b)
    ensures a == b
  {
    hide Parse, Render;
    RoundTrip(a, []);
    RoundTrip(b, []);
  }

  /** `a = b = c` is the assignment of c to `a = b`. */
  lemma AssignLeft(a: string, b: string, c: string)
    ensures Parse(COMMA, [TkIdent(a), TkAssign, TkIdent(b), TkAssign, TkIdent(c)])
            == Some((Bin(BAssign, Bin(BAssign, Id(a), Id(b)), Id(c)), []))
  {
    hide Parse;
    var inner := Bin(BAssign, Id(a), Id(b));
    var e := Bin(BAssign, inner, Id(c));
    RoundTrip(e, []);
    assert Render(ASSIGNMENT, Id(a)) == [TkIdent(a)] && Render(TERNARY, Id(b)) == [TkIdent(b)];
    assert Render(ASSIGNMENT, inner) == [TkIdent(a), TkAssign, TkIdent(b)];
    assert Render(TERNARY, Id(c)) == [TkIdent(c)];
    assert Render(COMMA, e) + [] == [TkIdent(a), TkAssign, TkIdent(b), TkAssign, TkIdent(c)];
  }
}
