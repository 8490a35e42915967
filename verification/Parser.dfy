/** The expression parser: it advances over the tokens and builds trees. */
module Parser {
  import opened Ast
  import opened Syntax

  class ExprParser {
    const toks: seq<Tok>
    var pos: nat

    constructor (toks: seq<Tok>)
      ensures this.toks == toks && pos == 0
    {
      this.toks, pos := toks, 0;
    }

    ghost predicate Valid()
      reads this
    {
      pos <= |toks|
    }

    /** The tokens not yet consumed. */
    ghost function Rest(): seq<Tok>
      requires Valid()
      reads this
    {
      toks[pos..]
    }

    function Peek(): (t: Option<Tok>)
      requires Valid()
      reads this
      ensures t == if Rest() == [] then None else Some(Rest()[0])
    {
      if pos < |toks| then Some(toks[pos]) else None
    }

    method Next()
      requires Valid() && pos < |toks|
      modifies this
      ensures Valid() && pos == old(pos) + 1 && Rest() == old(Rest())[1..]
    {
      pos := pos + 1;
    }

    /** Consumes one token of the wanted kind, or fails. */
    method ExpectTok(t: Tok) returns (ok: bool)
      requires Valid()
      modifies this
      ensures Valid() && ok == Expect(old(Rest()), t).Some?
      ensures ok ==> Rest() == Expect(old(Rest()), t).value && pos == old(pos) + 1
    {
      ok := pos < |toks| && toks[pos] == t;
      if ok {
        Next();
      }
    }

    /** The outcome of a parsing method against the grammar function. */
    ghost predicate Parsed(r: Option<Tree>, spec: Option<(Tree, seq<Tok>)>)
      reads this
    {
      && Valid()
      && (spec.None? ==> r == None)
      && (spec.Some? ==> r == Some(spec.value.0) && Rest() == spec.value.1)
    }

    method ParseTypeExpr() returns (r: Option<TypeExpr>)
      requires Valid()
      modifies this
      ensures Valid() && pos >= old(pos)
      ensures var spec := ParseType(old(Rest()));
              if spec.None? then r == None else r == Some(spec.value.0) && Rest() == spec.value.1
    {
      if pos == |toks| || !toks[pos].TkType? {
        return None;
      }
      var base := toks[pos].base;
      Next();
      var stars := 0;
      ghost var start := Rest();
      while pos < |toks| && toks[pos] == TkAsterisk
        invariant Valid() && pos >= old(pos)
        invariant Stars(start) == (Stars(Rest()).0 + stars, Stars(Rest()).1)
        decreases |toks| - pos
      {
        Next();
        stars := stars + 1;
      }
      if pos < |toks| && toks[pos] == TkOBracket {
        return None;
      }
      r := Some(TypeExpr(base, stars));
    }

    /** One level of the grammar. */
    method ParseLevel(k: nat) returns (r: Option<Tree>)
      requires Valid() && k <= PRIMARY
      modifies this
      ensures Parsed(r, Parse(k, old(Rest())))
      decreases |toks| - pos, 1, PRIMARY - k, 1
    {
      if k == PRIMARY {
        r := PrimaryExpr();
      } else if k == UNARY {
        r := UnaryExpr();
      } else if k == POSTFIX {
        r := PostfixExpr();
      } else if k == TERNARY {
        r := TernaryExpr();
      } else {
        r := BinaryExpr(k);
      }
    }

    /** A binary level: operands of the next level, folded to the left in a loop. */
    method BinaryExpr(k: nat) returns (r: Option<Tree>)
      requires Valid() && k <= MULTIPLICATION && k != TERNARY
      modifies this
      ensures Parsed(r, Parse(k, old(Rest())))
      decreases |toks| - pos, 1, PRIMARY - k, 0
    {
      ghost var start := Rest();
      var nether := ParseLevel(k + 1);
      if nether.None? {
        return None;
      }
      var expr := nether.value;
      while BinAt(k, toks[pos..]).Some?
        invariant Valid() && pos > old(pos)
        invariant Parse(k, start) == Loop(k, expr, Rest())
        decreases |toks| - pos
      {
        var op := BinAt(k, toks[pos..]).value;
        Next();
        var right := ParseLevel(k + 1);
        if right.None? {
          return None;
        }
        expr := Bin(op, expr, right.value);
      }
      r := Some(expr);
    }

    method TernaryExpr() returns (r: Option<Tree>)
      requires Valid()
      modifies this
      ensures Parsed(r, Parse(TERNARY, old(Rest())))
      decreases |toks| - pos, 1, PRIMARY - TERNARY, 0
    {
      hide Parse;
      TernaryParts(Rest());
      var cond := ParseLevel(TERNARY + 1);
      if cond.None? || Peek() != Some(TkQuestion) {
        return cond;
      }
      Next();
      var yes := ParseLevel(COMMA);
      if yes.None? {
        return None;
      }
      var ok := ExpectTok(TkColon);
      if !ok {
        return None;
      }
      var no := ParseLevel(COMMA);
      if no.None? {
        return None;
      }
      r := Some(Cond(cond.value, yes.value, no.value));
    }

    method UnaryExpr() returns (r: Option<Tree>)
      requires Valid()
      modifies this
      ensures Parsed(r, ParseUnary(old(Rest())))
      decreases |toks| - pos, 1, PRIMARY - UNARY, 0
    {
      if pos == |toks| {
        return None;
      }
      var tok := toks[pos];
      if tok == TkOParen && pos + 1 < |toks| && toks[pos + 1].TkType? {
        r := CastExpr();
      } else if PrefixOf(tok).Some? {
        Next();
        var e := ParseLevel(UNARY);
        r := if e.Some? then Some(Un(PrefixOf(tok).value, e.value)) else None;
      } else if tok == TkSizeof {
        r := SizeofExpr();
      } else if tok == TkLengthof {
        r := LengthofExpr();
      } else {
        r := ParseLevel(POSTFIX);
      }
    }

    method CastExpr() returns (r: Option<Tree>)
      requires Valid() && pos + 1 < |toks| && toks[pos] == TkOParen && toks[pos + 1].TkType?
      modifies this
      ensures Parsed(r, ParseUnary(old(Rest())))
      decreases |toks| - pos, 0
    {
      Next();
      var to := ParseTypeExpr();
      if to.None? {
        return None;
      }
      var ok := ExpectTok(TkCParen);
      if !ok {
        return None;
      }
      var e := ParseLevel(UNARY);
      r := if e.Some? then Some(CastTo(to.value, e.value)) else None;
    }

    method SizeofExpr() returns (r: Option<Tree>)
      requires Valid() && pos < |toks| && toks[pos] == TkSizeof
      modifies this
      ensures Parsed(r, ParseUnary(old(Rest())))
    {
      Next();
      var ok := ExpectTok(TkOParen);
      if !ok {
        return None;
      }
      var to := ParseTypeExpr();
      if to.None? {
        return None;
      }
      ok := ExpectTok(TkCParen);
      r := if ok then Some(SizeOf(to.value)) else None;
    }

    method LengthofExpr() returns (r: Option<Tree>)
      requires Valid() && pos < |toks| && toks[pos] == TkLengthof
      modifies this
      ensures Parsed(r, ParseUnary(old(Rest())))
      decreases |toks| - pos, 0
    {
      Next();
      var ok := ExpectTok(TkOParen);
      if !ok {
        return None;
      }
      var e := ParseLevel(COMMA);
      if e.None? {
        return None;
      }
      ok := ExpectTok(TkCParen);
      r := if ok then Some(LengthOf(e.value)) else None;
    }

    /** A primary expression, then `as` and a type or a loop over accesses. */
    method PostfixExpr() returns (r: Option<Tree>)
      requires Valid()
      modifies this
      ensures Parsed(r, Parse(POSTFIX, old(Rest())))
      decreases |toks| - pos, 1, PRIMARY - POSTFIX, 0
    {
      hide Parse, ParsePrimary, Accesses;
      ghost var start := Rest();
      PostfixParts(start);
      var primary := ParseLevel(PRIMARY);
      if primary.None? {
        return None;
      }
      if Peek() == Some(TkAs) {
        Next();
        var to := ParseTypeExpr();
        return if to.Some? then Some(AsType(primary.value, to.value)) else None;
      }
      r := PostfixLoop(primary.value);
    }

    /** Any number of accesses after a primary expression. */
    method PostfixLoop(primary: Tree) returns (r: Option<Tree>)
      requires Valid()
      modifies this
      ensures Parsed(r, Accesses(primary, old(Rest())))
      decreases |toks| - pos, 1
    {
      hide Parse, Arguments;
      ghost var start := Rest();
      var postfix := primary;
      while Peek() in {Some(TkDot), Some(TkOParen), Some(TkOBracket)}
        invariant Valid() && pos >= old(pos)
        invariant Accesses(primary, start) == Accesses(postfix, Rest())
        decreases |toks| - pos
      {
        var next := Access(postfix);
        if next.None? {
          return None;
        }
        postfix := next.value;
      }
      r := Some(postfix);
    }

    /** One access after `prefix`. */
    method Access(prefix: Tree) returns (r: Option<Tree>)
      requires Valid() && Peek() in {Some(TkDot), Some(TkOParen), Some(TkOBracket)}
      modifies this
      ensures Valid()
      ensures r.None? ==> Accesses(prefix, old(Rest())) == None
      ensures r.Some? ==> pos > old(pos) && Accesses(prefix, old(Rest())) == Accesses(r.value, Rest())
      decreases |toks| - pos, 0
    {
      hide Parse, Arguments;
      var tok := toks[pos];
      Next();
      if tok == TkDot {
        if pos == |toks| || !toks[pos].TkIdent? {
          return None;
        }
        r := Some(Dot(prefix, toks[pos].name));
        Next();
      } else if tok == TkOParen {
        var args := CallArgs();
        if args.None? {
          return None;
        }
        var ok := ExpectTok(TkCParen);
        r := if ok then Some(CallOf(prefix, args.value)) else None;
      } else {
        var at := ParseLevel(COMMA);
        if at.None? {
          return None;
        }
        var ok := ExpectTok(TkCBracket);
        r := if ok then Some(Index(prefix, at.value)) else None;
      }
    }

    /** Arguments up to the closing parenthesis or the end of the input. */
    method CallArgs() returns (r: Option<Trees>)
      requires Valid()
      modifies this
      ensures Valid() && (r.Some? ==> pos >= old(pos))
      ensures var spec := Arguments(old(Rest()));
              if spec.None? then r == None else r == Some(spec.value.0) && Rest() == spec.value.1
      decreases |toks| - pos, 3
    {
      hide Parse;
      ghost var start := Rest();
      var done: seq<Tree> := [];
      while pos < |toks| && toks[pos] != TkCParen
        invariant Valid() && pos >= old(pos)
        invariant Arguments(start) == Prefixed(done, Arguments(Rest()))
        decreases |toks| - pos
      {
        var e := Argument();
        if e.None? {
          return None;
        }
        PrefixedMore(done, e.value, Arguments(Rest()));
        done := done + [e.value];
      }
      AppendNil(done);
      r := Some(ListOf(done));
    }

    /** One argument and the comma after it, if another may follow. */
    method Argument() returns (r: Option<Tree>)
      requires Valid() && pos < |toks| && toks[pos] != TkCParen
      modifies this
      ensures Valid()
      ensures r.None? ==> Arguments(old(Rest())) == None
      ensures r.Some? ==> pos > old(pos)
      ensures r.Some? ==> Arguments(old(Rest())) == Consed(r.value, Arguments(Rest()))
      decreases |toks| - pos, 2
    {
      hide Parse;
      r := ParseLevel(ASSIGNMENT);
      if r.Some? && Peek().Some? && Peek() != Some(TkCParen) {
        var ok := ExpectTok(TkComma);
        if !ok {
          r := None;
        }
      }
    }

    method PrimaryExpr() returns (r: Option<Tree>)
      requires Valid()
      modifies this
      ensures Parsed(r, ParsePrimary(old(Rest())))
      decreases |toks| - pos, 1, 0, 0
    {
      if pos == |toks| {
        return None;
      }
      match toks[pos] {
        case TkLit(v) =>
          Next();
          r := Some(Lit(v));
        case TkIdent(x) =>
          Next();
          r := Some(Id(x));
        case TkOParen =>
          Next();
          r := ParseLevel(COMMA);
          if r.Some? {
            var ok := ExpectTok(TkCParen);
            if !ok {
              r := None;
            }
          }
        case _ => r := None;
      }
    }
  }

  lemma PostfixParts(ts: seq<Tok>)
    ensures Parse(POSTFIX, ts) == match Parse(PRIMARY, ts)
                                  case None => None
                                  case Some((e, rest)) => ParsePostfix(e, rest)
  {
  }

  lemma TernaryParts(ts: seq<Tok>)
    ensures Parse(TERNARY, ts) == match Parse(TERNARY + 1, ts)
                                  case None => None
                                  case Some((e, rest)) => ParseTernary(e, rest)
  {
  }

  function ListOf(es: seq<Tree>): Trees
  {
    if es == [] then TNil else TCons(es[0], ListOf(es[1..]))
  }

  function Append(es: seq<Tree>, tail: Trees): Trees
  {
    if es == [] then tail else TCons(es[0], Append(es[1..], tail))
  }

  /** One more argument in front. */
  function Consed(e: Tree, r: Option<(Trees, seq<Tok>)>): Option<(Trees, seq<Tok>)>
  {
    if r.None? then None else Some((TCons(e, r.value.0), r.value.1))
  }

  /** Arguments already parsed in front of the ones still to come. */
  function Prefixed(es: seq<Tree>, r: Option<(Trees, seq<Tok>)>): Option<(Trees, seq<Tok>)>
  {
    if r.None? then None else Some((Append(es, r.value.0), r.value.1))
  }

  lemma {:induction false} PrefixedMore(es: seq<Tree>, e: Tree, r: Option<(Trees, seq<Tok>)>)
    ensures Prefixed(es + [e], r) == Prefixed(es, Consed(e, r))
  {
    if r.Some? {
      AppendMore(es, e, r.value.0);
    }
  }

  lemma {:induction false} AppendMore(es: seq<Tree>, e: Tree, tail: Trees)
    ensures Append(es + [e], tail) == Append(es, TCons(e, tail))
  {
    if es != [] {
      assert (es + [e])[1..] == es[1..] + [e];
      AppendMore(es[1..], e, tail);
    }
  }

  lemma {:induction false} AppendNil(es: seq<Tree>)
    ensures Append(es, TNil) == ListOf(es)
  {
    if es != [] {
      AppendNil(es[1..]);
    }
  }
}
