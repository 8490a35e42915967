/** How an argument is lost: in `f(a, g(b), h(c))` the second inner call does not save the register of a. */
module ArgFault {
  import opened Words
  import opened Ast
  import opened Quads
  import opened Liveness
  import opened Emit
  import opened Procedure
  import opened LiveRanges
  import opened Nests
  import opened RegAlloc
  import opened Frames
  import opened Calls
  import opened CallAlloc
  import opened CallPlaces
  import opened Renaming
  import opened RegMachine
  import opened CallMoves
  import HashMap
  import LabelFault

  // ----- the program -----

  function CallOf(f: string, args: ExprList): Expr
  {
    Expr.Call(Ident(f, true), args, false)
  }

  function OneArg(x: string): ExprList
  {
    ECons(Ident(x, false), ENil)
  }

  /** `return f(a, g(b), h(c));` */
  function NestedBody(): Stmt
  {
    Return(Some(Nested()))
  }

  function LoadVar(t: nat, x: string): Quad
  {
    Q1(Copy, ATemp(t), AName(x, false))
  }

  function LoadFn(t: nat, f: string): Quad
  {
    Q1(Copy, ATemp(t), AName(f, true))
  }

  function OpenQuad(t: nat): Quad
  {
    Q1(HintCall, ATemp(t), ANone)
  }

  function PassOn(t: nat): Quad
  {
    Q1(Arg, ANone, ATemp(t))
  }

  function CallQuad(t: nat, f: nat, n: Word): Quad
  {
    Quad(FCall, ATemp(t), ATemp(f), AConst(n))
  }

  function NestedCode(): Code
  {
    [OpenQuad(9), LoadVar(1, "a"), PassOn(1),
     OpenQuad(4), LoadVar(2, "b"), PassOn(2), LoadFn(3, "g"), CallQuad(4, 3, 1), PassOn(4),
     OpenQuad(7), LoadVar(5, "c"), PassOn(5), LoadFn(6, "h"), CallQuad(7, 6, 1), PassOn(7),
     LoadFn(8, "f"), CallQuad(9, 8, 3), Q1(RetF, ANone, ATemp(9))]
  }

  function InnerQuads(f: string, x: string, c: nat): Code
  {
    [OpenQuad(c + 3), LoadVar(c + 1, x), PassOn(c + 1), LoadFn(c + 2, f), CallQuad(c + 3, c + 2, 1)]
  }

  lemma NameCode(x: string, isFn: bool, c: nat)
    ensures ExprCode(Ident(x, isFn), c, 0) == Emitted([Q1(Copy, ATemp(c + 1), AName(x, isFn))], ATemp(c + 1), c + 1, 0)
  {
  }

  /** A call with one variable as its argument. */
  lemma InnerCode(f: string, x: string, c: nat)
    ensures ExprCode(CallOf(f, OneArg(x)), c, 0) == Emitted(InnerQuads(f, x, c), ATemp(c + 3), c + 3, 0)
  {
    hide ExprCode, ArgsCode;
    NameCode(x, false, c);
    NameCode(f, true, c + 1);
    ArgsParts(ENil, c + 1, 0);
    ArgsParts(OneArg(x), c, 0);
    CodeParts(CallOf(f, OneArg(x)), c, 0);
    assert Count(OneArg(x)) == 1 by { assert Length(ENil) == 0 && Length(OneArg(x)) == 1; }
  }

  /** One more argument in front. */
  lemma ArgFirst(e: Expr, rest: ExprList, c: nat, code: Code, d: nat, more: Code, end: nat)
    requires ExprCode(e, c, 0) == Emitted(code, ATemp(d), d, 0)
    requires ArgsCode(rest, d, 0).code == more && ArgsCode(rest, d, 0).cgt == end && ArgsCode(rest, d, 0).lab == 0
    ensures var T := ArgsCode(ECons(e, rest), c, 0); T.code == code + [PassOn(d)] + more && T.cgt == end && T.lab == 0
  {
    hide ExprCode, ArgsCode;
    ArgsParts(ECons(e, rest), c, 0);
  }

  function Nested(): Expr
  {
    CallOf("f", ECons(Ident("a", false), ECons(CallOf("g", OneArg("b")), ECons(CallOf("h", OneArg("c")), ENil))))
  }

  lemma NestedExpr()
    ensures ExprCode(Nested(), 0, 0).code == NestedCode()[..17] && ExprCode(Nested(), 0, 0).res == ATemp(9)
  {
    hide ExprCode, ArgsCode, InnerQuads;
    var g, h := CallOf("g", OneArg("b")), CallOf("h", OneArg("c"));
    var G, H := InnerQuads("g", "b", 1), InnerQuads("h", "c", 4);
    InnerCode("g", "b", 1);
    InnerCode("h", "c", 4);
    NameCode("a", false, 0);
    NameCode("f", true, 7);
    ArgsParts(ENil, 7, 0);
    ArgFirst(h, ENil, 4, H, 7, [], 7);
    ArgFirst(g, ECons(h, ENil), 1, G, 4, H + [PassOn(7)] + [], 7);
    ArgFirst(Ident("a", false), ECons(g, ECons(h, ENil)), 0, [LoadVar(1, "a")], 1, G + [PassOn(4)] + (H + [PassOn(7)] + []), 7);
    CodeParts(Nested(), 0, 0);
    assert Count(Nested().args) == 3 by { assert Length(Nested().args) == 3; }
    assert ExprCode(Nested(), 0, 0).code == [OpenQuad(9)] + ([LoadVar(1, "a")] + [PassOn(1)] + (G + [PassOn(4)] + (H + [PassOn(7)] + [])))
        + [LoadFn(8, "f")] + [CallQuad(9, 8, 3)];
    NestedQuads();
  }

  lemma NestedQuads()
    ensures NestedCode()[..17] ==
            [OpenQuad(9)] + ([LoadVar(1, "a")] + [PassOn(1)] + (InnerQuads("g", "b", 1) + [PassOn(4)] + (InnerQuads("h", "c", 4) + [PassOn(7)] + [])))
            + [LoadFn(8, "f")] + [CallQuad(9, 8, 3)]
  {
  }

  lemma NestedIs()
    ensures ProcCode(NestedBody(), 0) == NestedCode()
  {
    hide ExprCode;
    NestedExpr();
    assert ProcCode(NestedBody(), 0) == ExprCode(Nested(), 0, 0).code + [Q1(RetF, ANone, ExprCode(Nested(), 0, 0).res)];
  }

  // ----- the pass, as far as four registers go -----

  function Ranges(): map<nat, Range>
  {
    map[1 := Range(1, 2), 2 := Range(4, 5), 3 := Range(6, 7), 4 := Range(3, 8), 5 := Range(10, 11), 6 := Range(12, 13),
        7 := Range(9, 14), 8 := Range(15, 16), 9 := Range(0, 17)]
  }

  /** Nothing has been stored before, and every temporary is asked for where it is mentioned. */
  function NestedPlan(): Plan
  {
    Plan(Ranges(), Alloc(map[], map[], 0), LabelFault.Djb2, HashMap.Fresh<string, Loc>(128), TempAsks(NestedCode()), (i: nat) => [])
  }

  type Column = seq<Option<Range>>

  /** The ranges of four registers, where temporaries are, and the record of the calls. */
  datatype View = View(rax: Column, rbx: Column, rdi: Column, rsi: Column, locs: map<nat, Reg>, calls: seq<CallState>)

  ghost predicate Seen(v: View, S: Alloc, calls: seq<CallState>)
  {
    && StackOf(S.stacks, RAX) == v.rax && StackOf(S.stacks, RBX) == v.rbx
    && StackOf(S.stacks, RDI) == v.rdi && StackOf(S.stacks, RSI) == v.rsi
    && (forall t: nat :: LocOf(S, t) == if t in v.locs then Some(InReg(v.locs[t])) else None)
    && calls == v.calls
  }

  ghost predicate SeenAt(i: nat, v: View)
  {
    i <= |NestedCode()| && Seen(v, CgAt(NestedPlan(), NestedCode(), i).alloc, CgAt(NestedPlan(), NestedCode(), i).gen.calls)
  }

  ghost predicate SeenLoaded(i: nat, v: View)
  {
    i < |NestedCode()| && Seen(v, Loaded(NestedPlan(), NestedCode(), i), CgAt(NestedPlan(), NestedCode(), i).gen.calls)
  }

  function Top(s: Column): Option<Range>
  {
    if s == [] then None else s[|s| - 1]
  }

  function OnTop(s: Column, lr: Range): Column
  {
    if s == [] then [Some(lr)] else s[|s| - 1 := Some(lr)]
  }

  /** A new temporary goes to rax if that is free, and otherwise to rbx. */
  function Given(v: View, t: nat): View
    requires t in Ranges()
  {
    var lr := Ranges()[t];
    if !Intersects(Some(lr), Top(v.rax)) then v.(rax := OnTop(v.rax, lr), locs := v.locs[t := RAX])
    else v.(rbx := OnTop(v.rbx, lr), locs := v.locs[t := RBX])
  }

  /** One of the two is free. */
  predicate Fits(v: View, t: nat)
    requires t in Ranges()
  {
    t !in v.locs && !(Intersects(Some(Ranges()[t]), Top(v.rax)) && Intersects(Some(Ranges()[t]), Top(v.rbx)))
  }

  lemma FirstTwo(k: Stacks, lr: Option<Range>)
    ensures !Intersects(lr, Peek(k, RAX)) ==> Pick(k, lr, LOCAL_ORDER) == Some(RAX)
    ensures Intersects(lr, Peek(k, RAX)) && !Intersects(lr, Peek(k, RBX)) ==> Pick(k, lr, LOCAL_ORDER) == Some(RBX)
  {
    hide Intersects, Peek;
    assert LOCAL_ORDER[0] == RAX && LOCAL_ORDER[1..][0] == RBX;
  }

  lemma NewLoc(S: Alloc, t: nat, loc: Loc, u: nat)
    ensures LocOf(S.(locs := S.locs[TempLabel(t) := loc]), u) == if u == t then Some(loc) else LocOf(S, u)
  {
    hide TempLabel;
    if u != t {
      DifferentLabels(u, t);
    }
  }

  lemma StoredIn(ranges: map<nat, Range>, S: Alloc, t: nat, r: Reg)
    requires LocOf(S, t) == None && t in ranges && Pick(S.stacks, Some(ranges[t]), LOCAL_ORDER) == Some(r)
    ensures Stored(ranges, S, Cgt(t, 8, [])) ==
            S.(stacks := Update(S.stacks, r, Some(ranges[t])), locs := S.locs[TempLabel(t) := InReg(r)])
  {
    hide TempLabel, Pick, Update, Without, OnFrame;
    var order := Without(LOCAL_ORDER, []);
    assert order == LOCAL_ORDER;
    assert LabelOf(Cgt(t, 8, [])) == TempLabel(t);
  }

  lemma Columns(k: Stacks, r: Reg, lr: Range, q: Reg)
    ensures StackOf(Update(k, r, Some(lr)), q) == if q == r then OnTop(StackOf(k, r), lr) else StackOf(k, q)
    ensures Peek(k, r) == Top(StackOf(k, r))
  {
  }

  lemma GivenSeen(v: View, S: Alloc, calls: seq<CallState>, t: nat)
    requires Seen(v, S, calls) && t in Ranges() && Fits(v, t)
    ensures Seen(Given(v, t), Stored(Ranges(), S, Cgt(t, 8, [])), calls)
  {
    hide LocOf, Pick, Intersects, Ranges, Update, Stored, StackOf, Peek, OnTop;
    var lr := Ranges()[t];
    assert LocOf(S, t) == None;
    Columns(S.stacks, RAX, lr, RAX);
    Columns(S.stacks, RBX, lr, RBX);
    FirstTwo(S.stacks, Some(lr));
    var r := if Intersects(Some(lr), Top(v.rax)) then RBX else RAX;
    StoredIn(Ranges(), S, t, r);
    Columns(S.stacks, r, lr, RAX);
    Columns(S.stacks, r, lr, RBX);
    Columns(S.stacks, r, lr, RDI);
    Columns(S.stacks, r, lr, RSI);
    forall u: nat
      ensures LocOf(Stored(Ranges(), S, Cgt(t, 8, [])), u) == if u == t then Some(InReg(r)) else LocOf(S, u)
    {
      NewLoc(S, t, InReg(r), u);
      SameLocs(S.(locs := S.locs[TempLabel(t) := InReg(r)]), Stored(Ranges(), S, Cgt(t, 8, [])));
    }
  }

  lemma KnownSeen(v: View, S: Alloc, calls: seq<CallState>, t: nat)
    requires Seen(v, S, calls) && t in v.locs
    ensures Stored(Ranges(), S, Cgt(t, 8, [])) == S
  {
    hide TempLabel;
    assert LocOf(S, t).Some?;
  }

  lemma NestedAsks(i: nat)
    requires i < |NestedCode()|
    ensures NestedPlan().asks(i) == QuadAsks(NestedCode()[i]) && NestedPlan().ranges == Ranges()
  {
  }

  /** What is asked for: at most one new temporary. */
  lemma LoadSeen(i: nat, v: View, t: nat)
    requires SeenAt(i, v) && i < |NestedCode()| && t in Ranges() && QuadAsks(NestedCode()[i]) == [Cgt(t, 8, [])]
    requires t in v.locs || Fits(v, t)
    ensures SeenLoaded(i, if t in v.locs then v else Given(v, t))
  {
    hide CgAt, Seen, NestedPlan, NestedCode, Fits, Given, Stored, Ranges, QuadAsks;
    var S, calls := CgAt(NestedPlan(), NestedCode(), i).alloc, CgAt(NestedPlan(), NestedCode(), i).gen.calls;
    NestedAsks(i);
    assert Front([Cgt(t, 8, [])]) == [] && StoreAll(Ranges(), S, []) == S;
    assert Loaded(NestedPlan(), NestedCode(), i) == Stored(Ranges(), S, Cgt(t, 8, []));
    if t in v.locs {
      KnownSeen(v, S, calls, t);
    } else {
      GivenSeen(v, S, calls, t);
    }
  }

  /** A call's result and function have been stored. */
  lemma CallSeen(i: nat, v: View, t: nat, u: nat)
    requires SeenAt(i, v) && i < |NestedCode()| && QuadAsks(NestedCode()[i]) == [Cgt(t, 8, []), Cgt(u, 8, [])]
    requires t in v.locs && u in v.locs
    ensures SeenLoaded(i, v)
  {
    hide CgAt, Seen, NestedPlan, NestedCode, Stored, Ranges, QuadAsks;
    var S, calls := CgAt(NestedPlan(), NestedCode(), i).alloc, CgAt(NestedPlan(), NestedCode(), i).gen.calls;
    NestedAsks(i);
    var asks := [Cgt(t, 8, []), Cgt(u, 8, [])];
    assert Front(asks) == [asks[0]] && Front([asks[0]]) == [] && StoreAll(Ranges(), S, []) == S;
    assert StoreAll(Ranges(), S, [asks[0]]) == Stored(Ranges(), S, asks[0]);
    assert StoreAll(Ranges(), S, asks) == Stored(Ranges(), Stored(Ranges(), S, asks[0]), asks[1]);
    KnownSeen(v, S, calls, t);
    KnownSeen(v, S, calls, u);
  }

  /** A quad that does not concern calls. */
  lemma InsideSeen(i: nat, v: View)
    requires SeenLoaded(i, v) && Inside(NestedCode()[i])
    ensures SeenAt(i + 1, v)
  {
    hide Loaded, CgAt, Seen, NestedCode;
    NextRecord(NestedPlan(), NestedCode(), i);
  }

  /** The registers saved where a call is opened. */
  ghost function Saved(i: nat): seq<Reg>
  {
    if i < |NestedCode()| then SavedAt(NestedPlan(), NestedCode(), i) else []
  }

  function Marked(s: Column, saved: bool): Column
  {
    if saved then s + [None] else s
  }

  /** The registers in use are saved, without the one for the result. */
  function Opened(v: View, i: nat, t: nat, saved: seq<Reg>): View
    requires t in v.locs
  {
    v.(rax := Marked(v.rax, RAX in saved), rbx := Marked(v.rbx, RBX in saved), rdi := Marked(v.rdi, RDI in saved),
       rsi := Marked(v.rsi, RSI in saved), calls := v.calls + [CallState(saved, 0, 0)])
  }

  predicate Busy(s: Column, i: nat)
  {
    Intersects(Some(Range(i, LAST)), Top(s))
  }

  lemma OpenSeen(i: nat, v: View, t: nat)
    requires SeenLoaded(i, v) && t in v.locs && NestedCode()[i] == OpenQuad(t)
    ensures var saved := Saved(i);
            && SeenAt(i + 1, Opened(v, i, t, saved)) && Distinct(saved)
            && (RAX in saved <==> Busy(v.rax, i) && v.locs[t] != RAX) && (RBX in saved <==> Busy(v.rbx, i) && v.locs[t] != RBX)
            && (RDI in saved <==> Busy(v.rdi, i) && v.locs[t] != RDI) && (RSI in saved <==> Busy(v.rsi, i) && v.locs[t] != RSI)
  {
    hide Loaded, CgAt, NestedCode, NestedPlan, MarkAll, BusyRegs, Intersects;
    var pl, p := NestedPlan(), NestedCode();
    var S, saved := Loaded(pl, p, i), SavedAt(pl, p, i);
    NextRecord(pl, p, i);
    forall r | r in [RAX, RBX, RDI, RSI]
      ensures r in saved <==> InUse(S.stacks, r, i) && v.locs[t] != r
      ensures StackOf(MarkAll(S.stacks, saved), r) == Marked(StackOf(S.stacks, r), r in saved)
      ensures Distinct(saved)
    {
      SavedRegs(S.stacks, i, RegOf(S, p[i].res), r);
      MarkedOnce(S.stacks, saved, r);
    }
    assert RAX in [RAX, RBX, RDI, RSI] && RBX in [RAX, RBX, RDI, RSI] && RDI in [RAX, RBX, RDI, RSI] && RSI in [RAX, RBX, RDI, RSI];
    SameLocs(S, S.(stacks := MarkAll(S.stacks, saved)));
  }

  /** An argument's register is reserved and written over the argument's place. */
  function Reserved(s: Column, i: nat): Column
  {
    (if Busy(s, i) then s else Front(s)) + [Some(Range(i, LAST))]
  }

  function PassedOn(v: View, i: nat, t: nat, k: nat): View
    requires v.calls != [] && k < 3
  {
    var n := |v.calls| - 1;
    v.(rdi := if k == 0 then Reserved(v.rdi, i) else v.rdi, rsi := if k == 1 then Reserved(v.rsi, i) else v.rsi,
       locs := v.locs[t := PARAM_ORDER[k]], calls := v.calls[n := v.calls[n].(ints := k + 1)])
  }

  lemma ArgSeen(i: nat, v: View, t: nat, k: nat)
    requires SeenLoaded(i, v) && t in v.locs && NestedCode()[i] == PassOn(t) && v.calls != [] && k < 3
    requires v.calls[|v.calls| - 1].ints == k && v.calls[|v.calls| - 1].onStack == 0
    ensures SeenAt(i + 1, PassedOn(v, i, t, k))
  {
    hide Loaded, CgAt, NestedCode, NestedPlan, Reserve, LocOf, Reserved, StackOf;
    var pl, p := NestedPlan(), NestedCode();
    var S, r := Loaded(pl, p, i), PARAM_ORDER[k];
    NextRecord(pl, p, i);
    var S' := S.(stacks := Reserve(S.stacks, r, i), locs := S.locs[TempLabel(t) := InReg(r)]);
    assert CgAt(pl, p, i + 1).alloc == S';
    assert r in [RDI, RSI, RDX] && (r == RDI <==> k == 0) && (r == RSI <==> k == 1);
    ReservedColumn(S.stacks, r, i, RAX);
    ReservedColumn(S.stacks, r, i, RBX);
    ReservedColumn(S.stacks, r, i, RDI);
    ReservedColumn(S.stacks, r, i, RSI);
    forall u: nat
      ensures LocOf(S', u) == if u == t then Some(InReg(r)) else LocOf(S, u)
    {
      NewLoc(S, t, InReg(r), u);
      SameLocs(S.(locs := S.locs[TempLabel(t) := InReg(r)]), S');
    }
  }

  lemma ReservedColumn(k: Stacks, r: Reg, i: nat, q: Reg)
    ensures StackOf(Reserve(k, r, i), q) == if q == r then Reserved(StackOf(k, q), i) else StackOf(k, q)
  {
    ReserveOne(k, r, i, q);
    BusyTop(k, r, i);
  }

  lemma BusyTop(k: Stacks, r: Reg, i: nat)
    ensures InUse(k, r, i) <==> Busy(StackOf(k, r), i)
  {
  }

  function Dropped(s: Column, used: bool, saved: bool): Column
  {
    var s1 := if used then Front(s) else s;
    if saved then Front(s1) else s1
  }

  function Closed(v: View): View
    requires v.calls != []
  {
    var n := |v.calls| - 1;
    var c := v.calls[n];
    v.(rax := Dropped(v.rax, false, RAX in c.pushed), rbx := Dropped(v.rbx, false, RBX in c.pushed),
       rdi := Dropped(v.rdi, c.ints > 0, RDI in c.pushed), rsi := Dropped(v.rsi, c.ints > 1, RSI in c.pushed),
       calls := v.calls[..n])
  }

  lemma ArgRegsAre(c: CallState)
    requires c.ints <= 3
    ensures Distinct(ArgRegs(c)) && RAX !in ArgRegs(c) && RBX !in ArgRegs(c)
    ensures (RDI in ArgRegs(c) <==> c.ints > 0) && (RSI in ArgRegs(c) <==> c.ints > 1)
  {
    ArgRegsParams(c);
    assert c.ints in {0, 1, 2, 3};
    assert ArgRegs(c) == if c.ints == 0 then [] else if c.ints == 1 then [RDI] else if c.ints == 2 then [RDI, RSI] else [RDI, RSI, RDX];
  }

  lemma CloseSeen(i: nat, v: View)
    requires SeenLoaded(i, v) && IsCall(NestedCode()[i]) && v.calls != []
    requires v.calls[|v.calls| - 1].ints <= 3 && Distinct(v.calls[|v.calls| - 1].pushed)
    ensures SeenAt(i + 1, Closed(v))
  {
    hide Loaded, CgAt, NestedCode, NestedPlan, DropAll, ArgRegs;
    var pl, p := NestedPlan(), NestedCode();
    var S, c := Loaded(pl, p, i), v.calls[|v.calls| - 1];
    NextRecord(pl, p, i);
    ArgRegsAre(c);
    forall r
      ensures StackOf(RegAlloc.Close(S.stacks, ArgRegs(c), c.pushed), r) == Dropped(StackOf(S.stacks, r), r in ArgRegs(c), r in c.pushed)
    {
      DroppedOnce(S.stacks, ArgRegs(c), r);
      DroppedOnce(DropAll(S.stacks, ArgRegs(c)), c.pushed, r);
    }
    SameLocs(S, S.(stacks := RegAlloc.Close(S.stacks, ArgRegs(c), c.pushed)));
  }

  function Numbered(locs: map<nat, Reg>): Places
  {
    (t: nat) => if t in locs then RegNumber(locs[t]) else 0
  }

  /** The quad as it is generated. */
  lemma MovedSeen(i: nat, v: View)
    requires SeenLoaded(i, v)
    ensures Compiled(NestedPlan(), NestedCode()).code[i] == MoveQuad(Numbered(v.locs), NestedCode()[i])
  {
    hide Loaded, NestedCode, NestedPlan, LocOf;
    var S := Loaded(NestedPlan(), NestedCode(), i);
    forall t: nat
      ensures PlaceNo(LocOf(S, t)) == Numbered(v.locs)(t)
    {
      assert LocOf(S, t) == if t in v.locs then Some(InReg(v.locs[t])) else None;
    }
    SameMove(t => PlaceNo(LocOf(S, t)), Numbered(v.locs), NestedCode()[i]);
  }

  lemma NestedQuad(i: nat)
    requires i < 18
    ensures |NestedCode()| == 18
    ensures i == 0 ==> NestedCode()[i] == OpenQuad(9)
    ensures i == 1 ==> NestedCode()[i] == LoadVar(1, "a")
    ensures i == 2 ==> NestedCode()[i] == PassOn(1)
    ensures i == 3 ==> NestedCode()[i] == OpenQuad(4)
    ensures i == 4 ==> NestedCode()[i] == LoadVar(2, "b")
    ensures i == 5 ==> NestedCode()[i] == PassOn(2)
    ensures i == 6 ==> NestedCode()[i] == LoadFn(3, "g")
    ensures i == 7 ==> NestedCode()[i] == CallQuad(4, 3, 1)
    ensures i == 8 ==> NestedCode()[i] == PassOn(4)
    ensures i == 9 ==> NestedCode()[i] == OpenQuad(7)
    ensures i == 10 ==> NestedCode()[i] == LoadVar(5, "c")
    ensures i == 11 ==> NestedCode()[i] == PassOn(5)
    ensures i == 12 ==> NestedCode()[i] == LoadFn(6, "h")
    ensures i == 13 ==> NestedCode()[i] == CallQuad(7, 6, 1)
    ensures i == 14 ==> NestedCode()[i] == PassOn(7)
    ensures i == 15 ==> NestedCode()[i] == LoadFn(8, "f")
    ensures i == 16 ==> NestedCode()[i] == CallQuad(9, 8, 3)
    ensures i == 17 ==> NestedCode()[i] == Q1(RetF, ANone, ATemp(9))
  {
  }

  lemma RangesAre()
    ensures forall t: nat :: t in Ranges() <==> 1 <= t <= 9
    ensures Ranges()[1] == Range(1, 2) && Ranges()[2] == Range(4, 5) && Ranges()[3] == Range(6, 7) && Ranges()[4] == Range(3, 8)
    ensures Ranges()[5] == Range(10, 11) && Ranges()[6] == Range(12, 13) && Ranges()[7] == Range(9, 14)
    ensures Ranges()[8] == Range(15, 16) && Ranges()[9] == Range(0, 17)
  {
  }

  lemma NumberedAt(locs: map<nat, Reg>, t: nat)
    ensures Numbered(locs)(t) == if t in locs then RegNumber(locs[t]) else 0
  {
  }

  lemma SameView(v: View, w: View)
    requires v.rax == w.rax && v.rbx == w.rbx && v.rdi == w.rdi && v.rsi == w.rsi && v.locs == w.locs && v.calls == w.calls
    ensures v == w
  {
  }

  /** What the pass knows before each quad. */
  ghost function At(i: nat): View
  {
    if i == 0 then
      View([], [], [], [],
           map[],
           [])
    else if i == 1 then
      View([Some(Range(0, 17))], [], [], [],
           map[9 := RAX],
           [CallState(Saved(0), 0, 0)])
    else if i == 2 then
      View([Some(Range(0, 17))], [Some(Range(1, 2))], [], [],
           map[1 := RBX, 9 := RAX],
           [CallState(Saved(0), 0, 0)])
    else if i == 3 then
      View([Some(Range(0, 17))], [Some(Range(1, 2))], [Some(Range(2, LAST))], [],
           map[1 := RDI, 9 := RAX],
           [CallState(Saved(0), 0, 1)])
    else if i == 4 then
      View([Some(Range(0, 17)), None], [Some(Range(3, 8))], [Some(Range(2, LAST)), None], [],
           map[1 := RDI, 4 := RBX, 9 := RAX],
           [CallState(Saved(0), 0, 1), CallState(Saved(3), 0, 0)])
    else if i == 5 then
      View([Some(Range(0, 17)), Some(Range(4, 5))], [Some(Range(3, 8))], [Some(Range(2, LAST)), None], [],
           map[1 := RDI, 2 := RAX, 4 := RBX, 9 := RAX],
           [CallState(Saved(0), 0, 1), CallState(Saved(3), 0, 0)])
    else if i == 6 then
      View([Some(Range(0, 17)), Some(Range(4, 5))], [Some(Range(3, 8))], [Some(Range(2, LAST)), Some(Range(5, LAST))], [],
           map[1 := RDI, 2 := RDI, 4 := RBX, 9 := RAX],
           [CallState(Saved(0), 0, 1), CallState(Saved(3), 0, 1)])
    else if i == 7 then
      View([Some(Range(0, 17)), Some(Range(6, 7))], [Some(Range(3, 8))], [Some(Range(2, LAST)), Some(Range(5, LAST))], [],
           map[1 := RDI, 2 := RDI, 3 := RAX, 4 := RBX, 9 := RAX],
           [CallState(Saved(0), 0, 1), CallState(Saved(3), 0, 1)])
    else if i == 8 then
      View([Some(Range(0, 17))], [Some(Range(3, 8))], [], [],
           map[1 := RDI, 2 := RDI, 3 := RAX, 4 := RBX, 9 := RAX],
           [CallState(Saved(0), 0, 1)])
    else if i == 9 then
      View([Some(Range(0, 17))], [Some(Range(3, 8))], [], [Some(Range(8, LAST))],
           map[1 := RDI, 2 := RDI, 3 := RAX, 4 := RSI, 9 := RAX],
           [CallState(Saved(0), 0, 2)])
    else if i == 10 then
      View([Some(Range(0, 17)), None], [Some(Range(9, 14))], [], [Some(Range(8, LAST)), None],
           map[1 := RDI, 2 := RDI, 3 := RAX, 4 := RSI, 7 := RBX, 9 := RAX],
           [CallState(Saved(0), 0, 2), CallState(Saved(9), 0, 0)])
    else if i == 11 then
      View([Some(Range(0, 17)), Some(Range(10, 11))], [Some(Range(9, 14))], [], [Some(Range(8, LAST)), None],
           map[1 := RDI, 2 := RDI, 3 := RAX, 4 := RSI, 5 := RAX, 7 := RBX, 9 := RAX],
           [CallState(Saved(0), 0, 2), CallState(Saved(9), 0, 0)])
    else if i == 12 then
      View([Some(Range(0, 17)), Some(Range(10, 11))], [Some(Range(9, 14))], [Some(Range(11, LAST))], [Some(Range(8, LAST)), None],
           map[1 := RDI, 2 := RDI, 3 := RAX, 4 := RSI, 5 := RDI, 7 := RBX, 9 := RAX],
           [CallState(Saved(0), 0, 2), CallState(Saved(9), 0, 1)])
    else if i == 13 then
      View([Some(Range(0, 17)), Some(Range(12, 13))], [Some(Range(9, 14))], [Some(Range(11, LAST))], [Some(Range(8, LAST)), None],
           map[1 := RDI, 2 := RDI, 3 := RAX, 4 := RSI, 5 := RDI, 6 := RAX, 7 := RBX, 9 := RAX],
           [CallState(Saved(0), 0, 2), CallState(Saved(9), 0, 1)])
    else if i == 14 then
      View([Some(Range(0, 17))], [Some(Range(9, 14))], [], [Some(Range(8, LAST))],
           map[1 := RDI, 2 := RDI, 3 := RAX, 4 := RSI, 5 := RDI, 6 := RAX, 7 := RBX, 9 := RAX],
           [CallState(Saved(0), 0, 2)])
    else if i == 15 then
      View([Some(Range(0, 17))], [Some(Range(9, 14))], [], [Some(Range(8, LAST))],
           map[1 := RDI, 2 := RDI, 3 := RAX, 4 := RSI, 5 := RDI, 6 := RAX, 7 := RDX, 9 := RAX],
           [CallState(Saved(0), 0, 3)])
    else if i == 16 then
      View([Some(Range(0, 17))], [Some(Range(15, 16))], [], [Some(Range(8, LAST))],
           map[1 := RDI, 2 := RDI, 3 := RAX, 4 := RSI, 5 := RDI, 6 := RAX, 7 := RDX, 8 := RBX, 9 := RAX],
           [CallState(Saved(0), 0, 3)])
    else
      View([Some(Range(0, 17))], [Some(Range(15, 16))], [], [],
           map[1 := RDI, 2 := RDI, 3 := RAX, 4 := RSI, 5 := RDI, 6 := RAX, 7 := RDX, 8 := RBX, 9 := RAX],
           [])
  }

  /** And when the result of a call that is opened has been stored. */
  ghost function Mid(i: nat): View
  {
    if i == 0 then
      View([Some(Range(0, 17))], [], [], [],
           map[9 := RAX],
           [])
    else if i == 3 then
      View([Some(Range(0, 17))], [Some(Range(3, 8))], [Some(Range(2, LAST))], [],
           map[1 := RDI, 4 := RBX, 9 := RAX],
           [CallState(Saved(0), 0, 1)])
    else
      View([Some(Range(0, 17))], [Some(Range(9, 14))], [], [Some(Range(8, LAST))],
           map[1 := RDI, 2 := RDI, 3 := RAX, 4 := RSI, 7 := RBX, 9 := RAX],
           [CallState(Saved(0), 0, 2)])
  }

  lemma Step0()
    requires SeenAt(0, At(0))
    ensures SeenAt(1, At(1)) && |NestedCode()| == 18 && Compiled(NestedPlan(), NestedCode()).code[0] == OpenQuad(0)
    ensures Distinct(Saved(0)) && RAX !in Saved(0) && RBX !in Saved(0) && RDI !in Saved(0) && RSI !in Saved(0)
  {
    hide SeenAt, SeenLoaded, Saved, NestedPlan, NestedCode, Ranges, Compiled, Numbered, SavedAt, Loaded, CgAt;
    NestedQuad(0);
    RangesAre();
    LoadSeen(0, At(0), 9);
    SameView(Given(At(0), 9), Mid(0));
    MovedSeen(0, Mid(0));
    NumberedAt(Mid(0).locs, 9);
    OpenSeen(0, Mid(0), 9);
    SameView(Opened(Mid(0), 0, 9, Saved(0)), At(1));
  }

  lemma Step1()
    requires SeenAt(1, At(1))
    ensures SeenAt(2, At(2)) && |NestedCode()| == 18 && Compiled(NestedPlan(), NestedCode()).code[1] == LoadVar(1, "a")
  {
    hide SeenAt, SeenLoaded, Saved, NestedPlan, NestedCode, Ranges, Compiled, Numbered, SavedAt, Loaded, CgAt;
    NestedQuad(1);
    RangesAre();
    LoadSeen(1, At(1), 1);
    SameView(Given(At(1), 1), At(2));
    MovedSeen(1, At(2));
    NumberedAt(At(2).locs, 1);
    InsideSeen(1, At(2));
  }

  lemma Step2()
    requires SeenAt(2, At(2))
    ensures SeenAt(3, At(3)) && |NestedCode()| == 18 && Compiled(NestedPlan(), NestedCode()).code[2] == PassOn(1)
  {
    hide SeenAt, SeenLoaded, Saved, NestedPlan, NestedCode, Ranges, Compiled, Numbered, SavedAt, Loaded, CgAt;
    NestedQuad(2);
    RangesAre();
    LoadSeen(2, At(2), 1);
    MovedSeen(2, At(2));
    NumberedAt(At(2).locs, 1);
    ArgSeen(2, At(2), 1, 0);
    SameView(PassedOn(At(2), 2, 1, 0), At(3));
  }

  lemma Step3()
    requires SeenAt(3, At(3))
    ensures SeenAt(4, At(4)) && |NestedCode()| == 18 && Compiled(NestedPlan(), NestedCode()).code[3] == OpenQuad(1)
    ensures Distinct(Saved(3)) && RAX in Saved(3) && RBX !in Saved(3) && RDI in Saved(3) && RSI !in Saved(3)
  {
    hide SeenAt, SeenLoaded, Saved, NestedPlan, NestedCode, Ranges, Compiled, Numbered, SavedAt, Loaded, CgAt;
    NestedQuad(3);
    RangesAre();
    LoadSeen(3, At(3), 4);
    SameView(Given(At(3), 4), Mid(3));
    MovedSeen(3, Mid(3));
    NumberedAt(Mid(3).locs, 4);
    OpenSeen(3, Mid(3), 4);
    SameView(Opened(Mid(3), 3, 4, Saved(3)), At(4));
  }

  lemma Step4()
    requires SeenAt(4, At(4))
    ensures SeenAt(5, At(5)) && |NestedCode()| == 18 && Compiled(NestedPlan(), NestedCode()).code[4] == LoadVar(0, "b")
  {
    hide SeenAt, SeenLoaded, Saved, NestedPlan, NestedCode, Ranges, Compiled, Numbered, SavedAt, Loaded, CgAt;
    NestedQuad(4);
    RangesAre();
    LoadSeen(4, At(4), 2);
    SameView(Given(At(4), 2), At(5));
    MovedSeen(4, At(5));
    NumberedAt(At(5).locs, 2);
    InsideSeen(4, At(5));
  }

  lemma Step5()
    requires SeenAt(5, At(5))
    ensures SeenAt(6, At(6)) && |NestedCode()| == 18 && Compiled(NestedPlan(), NestedCode()).code[5] == PassOn(0)
  {
    hide SeenAt, SeenLoaded, Saved, NestedPlan, NestedCode, Ranges, Compiled, Numbered, SavedAt, Loaded, CgAt;
    NestedQuad(5);
    RangesAre();
    LoadSeen(5, At(5), 2);
    MovedSeen(5, At(5));
    NumberedAt(At(5).locs, 2);
    ArgSeen(5, At(5), 2, 0);
    SameView(PassedOn(At(5), 5, 2, 0), At(6));
  }

  lemma Step6()
    requires SeenAt(6, At(6))
    ensures SeenAt(7, At(7)) && |NestedCode()| == 18 && Compiled(NestedPlan(), NestedCode()).code[6] == LoadFn(0, "g")
  {
    hide SeenAt, SeenLoaded, Saved, NestedPlan, NestedCode, Ranges, Compiled, Numbered, SavedAt, Loaded, CgAt;
    NestedQuad(6);
    RangesAre();
    LoadSeen(6, At(6), 3);
    SameView(Given(At(6), 3), At(7));
    MovedSeen(6, At(7));
    NumberedAt(At(7).locs, 3);
    InsideSeen(6, At(7));
  }

  lemma Step7()
    requires SeenAt(7, At(7)) && Distinct(Saved(3)) && RAX in Saved(3) && RBX !in Saved(3) && RDI in Saved(3) && RSI !in Saved(3)
    ensures SeenAt(8, At(8)) && |NestedCode()| == 18 && Compiled(NestedPlan(), NestedCode()).code[7] == CallQuad(1, 0, 1)
  {
    hide SeenAt, SeenLoaded, Saved, NestedPlan, NestedCode, Ranges, Compiled, Numbered, SavedAt, Loaded, CgAt;
    NestedQuad(7);
    RangesAre();
    CallSeen(7, At(7), 4, 3);
    MovedSeen(7, At(7));
    NumberedAt(At(7).locs, 4);
    NumberedAt(At(7).locs, 3);
    CloseSeen(7, At(7));
    SameView(Closed(At(7)), At(8));
  }

  lemma Step8()
    requires SeenAt(8, At(8))
    ensures SeenAt(9, At(9)) && |NestedCode()| == 18 && Compiled(NestedPlan(), NestedCode()).code[8] == PassOn(1)
  {
    hide SeenAt, SeenLoaded, Saved, NestedPlan, NestedCode, Ranges, Compiled, Numbered, SavedAt, Loaded, CgAt;
    NestedQuad(8);
    RangesAre();
    LoadSeen(8, At(8), 4);
    MovedSeen(8, At(8));
    NumberedAt(At(8).locs, 4);
    ArgSeen(8, At(8), 4, 1);
    SameView(PassedOn(At(8), 8, 4, 1), At(9));
  }

  lemma Step9()
    requires SeenAt(9, At(9))
    ensures SeenAt(10, At(10)) && |NestedCode()| == 18 && Compiled(NestedPlan(), NestedCode()).code[9] == OpenQuad(1)
    ensures Distinct(Saved(9)) && RAX in Saved(9) && RBX !in Saved(9) && RDI !in Saved(9) && RSI in Saved(9)
  {
    hide SeenAt, SeenLoaded, Saved, NestedPlan, NestedCode, Ranges, Compiled, Numbered, SavedAt, Loaded, CgAt;
    NestedQuad(9);
    RangesAre();
    LoadSeen(9, At(9), 7);
    SameView(Given(At(9), 7), Mid(9));
    MovedSeen(9, Mid(9));
    NumberedAt(Mid(9).locs, 7);
    OpenSeen(9, Mid(9), 7);
    SameView(Opened(Mid(9), 9, 7, Saved(9)), At(10));
  }

  lemma Step10()
    requires SeenAt(10, At(10))
    ensures SeenAt(11, At(11)) && |NestedCode()| == 18 && Compiled(NestedPlan(), NestedCode()).code[10] == LoadVar(0, "c")
  {
    hide SeenAt, SeenLoaded, Saved, NestedPlan, NestedCode, Ranges, Compiled, Numbered, SavedAt, Loaded, CgAt;
    NestedQuad(10);
    RangesAre();
    LoadSeen(10, At(10), 5);
    SameView(Given(At(10), 5), At(11));
    MovedSeen(10, At(11));
    NumberedAt(At(11).locs, 5);
    InsideSeen(10, At(11));
  }

  lemma Step11()
    requires SeenAt(11, At(11))
    ensures SeenAt(12, At(12)) && |NestedCode()| == 18 && Compiled(NestedPlan(), NestedCode()).code[11] == PassOn(0)
  {
    hide SeenAt, SeenLoaded, Saved, NestedPlan, NestedCode, Ranges, Compiled, Numbered, SavedAt, Loaded, CgAt;
    NestedQuad(11);
    RangesAre();
    LoadSeen(11, At(11), 5);
    MovedSeen(11, At(11));
    NumberedAt(At(11).locs, 5);
    ArgSeen(11, At(11), 5, 0);
    SameView(PassedOn(At(11), 11, 5, 0), At(12));
  }

  lemma Step12()
    requires SeenAt(12, At(12))
    ensures SeenAt(13, At(13)) && |NestedCode()| == 18 && Compiled(NestedPlan(), NestedCode()).code[12] == LoadFn(0, "h")
  {
    hide SeenAt, SeenLoaded, Saved, NestedPlan, NestedCode, Ranges, Compiled, Numbered, SavedAt, Loaded, CgAt;
    NestedQuad(12);
    RangesAre();
    LoadSeen(12, At(12), 6);
    SameView(Given(At(12), 6), At(13));
    MovedSeen(12, At(13));
    NumberedAt(At(13).locs, 6);
    InsideSeen(12, At(13));
  }

  lemma Step13()
    requires SeenAt(13, At(13)) && Distinct(Saved(9)) && RAX in Saved(9) && RBX !in Saved(9) && RDI !in Saved(9) && RSI in Saved(9)
    ensures SeenAt(14, At(14)) && |NestedCode()| == 18 && Compiled(NestedPlan(), NestedCode()).code[13] == CallQuad(1, 0, 1)
  {
    hide SeenAt, SeenLoaded, Saved, NestedPlan, NestedCode, Ranges, Compiled, Numbered, SavedAt, Loaded, CgAt;
    NestedQuad(13);
    RangesAre();
    CallSeen(13, At(13), 7, 6);
    MovedSeen(13, At(13));
    NumberedAt(At(13).locs, 7);
    NumberedAt(At(13).locs, 6);
    CloseSeen(13, At(13));
    SameView(Closed(At(13)), At(14));
  }

  lemma Step14()
    requires SeenAt(14, At(14))
    ensures SeenAt(15, At(15)) && |NestedCode()| == 18 && Compiled(NestedPlan(), NestedCode()).code[14] == PassOn(1)
  {
    hide SeenAt, SeenLoaded, Saved, NestedPlan, NestedCode, Ranges, Compiled, Numbered, SavedAt, Loaded, CgAt;
    NestedQuad(14);
    RangesAre();
    LoadSeen(14, At(14), 7);
    MovedSeen(14, At(14));
    NumberedAt(At(14).locs, 7);
    ArgSeen(14, At(14), 7, 2);
    SameView(PassedOn(At(14), 14, 7, 2), At(15));
  }

  lemma Step15()
    requires SeenAt(15, At(15))
    ensures SeenAt(16, At(16)) && |NestedCode()| == 18 && Compiled(NestedPlan(), NestedCode()).code[15] == LoadFn(1, "f")
  {
    hide SeenAt, SeenLoaded, Saved, NestedPlan, NestedCode, Ranges, Compiled, Numbered, SavedAt, Loaded, CgAt;
    NestedQuad(15);
    RangesAre();
    LoadSeen(15, At(15), 8);
    SameView(Given(At(15), 8), At(16));
    MovedSeen(15, At(16));
    NumberedAt(At(16).locs, 8);
    InsideSeen(15, At(16));
  }

  lemma Step16()
    requires SeenAt(16, At(16)) && Distinct(Saved(0)) && RAX !in Saved(0) && RBX !in Saved(0) && RDI !in Saved(0) && RSI !in Saved(0)
    ensures SeenAt(17, At(17)) && |NestedCode()| == 18 && Compiled(NestedPlan(), NestedCode()).code[16] == CallQuad(0, 1, 3)
  {
    hide SeenAt, SeenLoaded, Saved, NestedPlan, NestedCode, Ranges, Compiled, Numbered, SavedAt, Loaded, CgAt;
    NestedQuad(16);
    RangesAre();
    CallSeen(16, At(16), 9, 8);
    MovedSeen(16, At(16));
    NumberedAt(At(16).locs, 9);
    NumberedAt(At(16).locs, 8);
    CloseSeen(16, At(16));
    SameView(Closed(At(16)), At(17));
  }

  /** What the code has become: registers by number, rax 0, rbx 1. */
  function NestedCells(): Code
  {
    [OpenQuad(0), LoadVar(1, "a"), PassOn(1),
     OpenQuad(1), LoadVar(0, "b"), PassOn(0), LoadFn(0, "g"), CallQuad(1, 0, 1), PassOn(1),
     OpenQuad(1), LoadVar(0, "c"), PassOn(0), LoadFn(0, "h"), CallQuad(1, 0, 1), PassOn(1),
     LoadFn(1, "f"), CallQuad(0, 1, 3), Q1(RetF, ANone, ATemp(0))]
  }

  lemma StartSeen()
    ensures SeenAt(0, At(0))
  {
    hide TempLabel, NestedCode;
  }

  lemma LastSeen()
    requires SeenAt(17, At(17))
    ensures |NestedCode()| == 18 && Compiled(NestedPlan(), NestedCode()).code[17] == Q1(RetF, ANone, ATemp(0))
  {
    hide SeenAt, SeenLoaded, Saved, NestedPlan, NestedCode, Ranges, Compiled, Numbered, SavedAt, Loaded, CgAt;
    NestedQuad(17);
    RangesAre();
    LoadSeen(17, At(17), 9);
    MovedSeen(17, At(17));
    NumberedAt(At(17).locs, 9);
  }

  /** The pass over the whole code: at the opening of h the register of a, rdi, is not saved. */
  lemma PassSeen()
    ensures |NestedCode()| == 18 && Compiled(NestedPlan(), NestedCode()).code == NestedCells()
    ensures RAX !in Saved(0) && RBX !in Saved(3) && RDI in Saved(3) && RBX !in Saved(9) && RDI !in Saved(9) && RSI in Saved(9)
  {
    hide SeenAt, SeenLoaded, Saved, NestedPlan, NestedCode, NestedCells, Compiled, At;
    StartSeen();
    Step0();
    Step1();
    Step2();
    Step3();
    Step4();
    Step5();
    Step6();
    Step7();
    Step8();
    Step9();
    Step10();
    Step11();
    Step12();
    Step13();
    Step14();
    Step15();
    Step16();
    LastSeen();
    CellsAre(Compiled(NestedPlan(), NestedCode()).code) by { CompiledSize(); }
  }

  lemma CompiledSize()
    ensures |Compiled(NestedPlan(), NestedCode()).code| == |NestedCode()|
  {
    hide NestedPlan, NestedCode, Loaded, LocOf;
  }

  lemma CellsAre(c: Code)
    requires |c| == 18
    requires c[0] == OpenQuad(0)
    requires c[1] == LoadVar(1, "a")
    requires c[2] == PassOn(1)
    requires c[3] == OpenQuad(1)
    requires c[4] == LoadVar(0, "b")
    requires c[5] == PassOn(0)
    requires c[6] == LoadFn(0, "g")
    requires c[7] == CallQuad(1, 0, 1)
    requires c[8] == PassOn(1)
    requires c[9] == OpenQuad(1)
    requires c[10] == LoadVar(0, "c")
    requires c[11] == PassOn(0)
    requires c[12] == LoadFn(0, "h")
    requires c[13] == CallQuad(1, 0, 1)
    requires c[14] == PassOn(1)
    requires c[15] == LoadFn(1, "f")
    requires c[16] == CallQuad(0, 1, 3)
    requires c[17] == Q1(RetF, ANone, ATemp(0))
    ensures c == NestedCells()
  {
  }
}
