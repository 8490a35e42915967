/** A pass of the optimizer preserves meaning as long as no temporary it erases is needed later. */
module OptSim {
  import opened Words
  import opened Division
  import opened Ast
  import opened Quads
  import opened Liveness
  import opened Needs
  import opened Optimizer

  // ----- one quad, given the values of its operands -----

  datatype Act =
    | Fall(res: Operand, v: Val, store: Store, frames: seq<seq<Val>>)
    | Leap(target: Operand)
    | Finish(v: Val)
    | Fail

  /** What a quad does with values a and b of its arguments and d of its result operand. */
  function ActOf(env: Env, q: Quad, a: Val, b: Val, d: Val, store: Store, frames: seq<seq<Val>>): Act
    requires q.Quad?
  {
    if q.op.Alu? then
      if AluVal(q.op.alu, a, b).Some? then Assign(q.res, AluVal(q.op.alu, a, b).value, store, frames) else Fail
    else if q.op.Un? then Assign(q.res, UnVal(q.op.un, a), store, frames)
    else if q.op == UJump then Leap(q.res)
    else if IsCondJump(q.op) then ActIf(Condition(q.op, a, b), q.res, store, frames)
    else if q.op == Copy then Assign(q.res, a, store, frames)
    else if q.op.OpCast? then Assign(q.res, CastVal(q.op.to, a), store, frames)
    else if q.op == Arg then
      if frames == [] then Fail
      else Fall(ANone, Void, store, frames[|frames| - 1 := frames[|frames| - 1] + [a]])
    else if q.op == PCall then ActCall(env, ANone, a, store, frames)
    else if q.op == FCall then ActCall(env, q.res, a, store, frames)
    else if q.op == RetP then Finish(Void)
    else if q.op == RetF then Finish(a)
    else if q.op == OpRef then if q.arg1.AName? then Assign(q.res, Addr(q.arg1.name), store, frames) else Fail
    else if q.op == OpDeref then if a.Addr? then Assign(q.res, Load(store, a.name), store, frames) else Fail
    else if q.op == DerefCopy then if d.Addr? then Fall(ANone, Void, store[d.name := a], frames) else Fail
    else if q.op == HintCall then Fall(ANone, Void, store, frames + [[]])
    else Fall(ANone, Void, store, frames)
  }

  /** Setting a variable changes the store at once. */
  function Assign(res: Operand, v: Val, store: Store, frames: seq<seq<Val>>): Act
  {
    if res.AName? then Fall(ANone, Void, store[res.name := v], frames) else Fall(res, v, store, frames)
  }

  function ActIf(taken: Option<bool>, target: Operand, store: Store, frames: seq<seq<Val>>): Act
  {
    if taken == Some(true) then Leap(target)
    else if taken == Some(false) then Fall(ANone, Void, store, frames)
    else Fail
  }

  function ActCall(env: Env, res: Operand, g: Val, store: Store, frames: seq<seq<Val>>): Act
  {
    if !g.Fn? || frames == [] then Fail
    else match env(g.name, frames[|frames| - 1], store)
      case None => Fail
      case Some((v, store')) => Assign(res, v, store', frames[..|frames| - 1])
  }

  function Perform(p: Code, act: Act, s: State): Status
  {
    match act
    case Fall(res, v, store, frames) => Write(res, v, s.(store := store, frames := frames))
    case Leap(target) => Jump(p, target, s)
    case Finish(v) => Halt(v, s.store)
    case Fail => Stuck
  }

  function Value(a: Operand, s: State): Val
  {
    Read(a, s.temps, s.store)
  }

  function ActAt(env: Env, q: Quad, s: State): Act
    requires q.Quad?
  {
    ActOf(env, q, Value(q.arg1, s), Value(q.arg2, s), Value(q.res, s), s.store, s.frames)
  }

  lemma StepActs(env: Env, p: Code, s: State)
    requires s.pc < |p| && p[s.pc].Quad?
    ensures Step(env, p, s) == Perform(p, ActAt(env, p[s.pc], s), s)
  {
    hide Step, ActOf, Perform;
    var op := p[s.pc].op;
    if op.Alu? || op.Un? || op.OpCast? || op in {Copy, OpRef, OpDeref} {
      StepAssigns(env, p, s);
    } else if op == UJump || IsCondJump(op) {
      StepJumps(env, p, s);
    } else {
      StepOthers(env, p, s);
    }
  }

  lemma StepAssigns(env: Env, p: Code, s: State)
    requires s.pc < |p| && p[s.pc].Quad?
    requires var op := p[s.pc].op; op.Alu? || op.Un? || op.OpCast? || op in {Copy, OpRef, OpDeref}
    ensures Step(env, p, s) == Perform(p, ActAt(env, p[s.pc], s), s)
  {
    hide AluVal, UnVal, CastVal, Read, CallFn, Jump, JumpIf, ActCall;
  }

  lemma StepJumps(env: Env, p: Code, s: State)
    requires s.pc < |p| && p[s.pc].Quad? && (p[s.pc].op == UJump || IsCondJump(p[s.pc].op))
    ensures Step(env, p, s) == Perform(p, ActAt(env, p[s.pc], s), s)
  {
    hide AluVal, UnVal, CastVal, Read, CallFn, Jump, ActCall, JumpTaken;
  }

  lemma StepOthers(env: Env, p: Code, s: State)
    requires s.pc < |p| && p[s.pc].Quad?
    requires p[s.pc].op in {Arg, PCall, FCall, RetP, RetF, DerefCopy, HintCall, HintLocal}
    ensures Step(env, p, s) == Perform(p, ActAt(env, p[s.pc], s), s)
  {
    hide AluVal, UnVal, CastVal, Read, Jump, JumpIf, JumpTaken, Condition, Load;
  }

  // ----- positions of the code and of its rewritten form -----

  /** Position i' of p' is where the rewriting of p from i on starts. */
  ghost predicate Aligned(ctx: Contexts, p: Code, p': Code, i: nat, i': nat)
  {
    i <= |p| && i' <= |p'| && p'[i'..] == Pass(ctx, p[i..])
  }

  lemma {:induction false} FindIs(p: Code, l: nat, i: nat, j: nat)
    requires i <= j < |p| && p[j] == Label(l) && forall k :: i <= k < j ==> p[k] != Label(l)
    ensures FindLabel(p, l, i) == Some(j)
    decreases j - i
  {
    if i < j {
      FindIs(p, l, i + 1, j);
    }
  }

  lemma {:induction false} FindFirst(p: Code, l: nat, i: nat)
    requires i <= |p| && FindLabel(p, l, i).Some?
    ensures forall k :: i <= k < FindLabel(p, l, i).value ==> p[k] != Label(l)
    decreases |p| - i
  {
    if p[i] != Label(l) {
      FindFirst(p, l, i + 1);
    }
  }

  /** A label comes after code that does not hold it. */
  lemma FindBehind(a: Code, b: Code, c: Code, l: nat)
    requires c == a + b && Label(l) !in a && FindLabel(b, l, 0).Some?
    ensures FindLabel(c, l, 0) == Some(|a| + FindLabel(b, l, 0).value)
  {
    hide FindLabel;
    var j := FindLabel(b, l, 0).value;
    FindFirst(b, l, 0);
    FoundBehind(a, b, c, l, j);
  }

  lemma FoundBehind(a: Code, b: Code, c: Code, l: nat, j: nat)
    requires c == a + b && Label(l) !in a && j < |b| && b[j] == Label(l) && forall k :: 0 <= k < j ==> b[k] != Label(l)
    ensures FindLabel(c, l, 0) == Some(|a| + j)
  {
    hide FindLabel;
    NoneBefore(a, b, l, j);
    FindIs(c, l, 0, |a| + j);
  }

  lemma NoneBefore(a: Code, b: Code, l: nat, j: nat)
    requires Label(l) !in a && j < |b| && b[j] == Label(l) && forall k :: 0 <= k < j ==> b[k] != Label(l)
    ensures (a + b)[|a| + j] == Label(l) && forall k :: 0 <= k < |a| + j ==> (a + b)[k] != Label(l)
  {
    var c := a + b;
    assert forall k :: 0 <= k < |a| ==> c[k] == a[k];
    assert forall k :: |a| <= k < |c| ==> c[k] == b[k - |a|];
  }

  lemma FindTail(a: Code, b: Code, l: nat)
    requires Label(l) !in a && FindLabel(a + b, l, 0).Some?
    ensures FindLabel(b, l, 0).Some? && FindLabel(a + b, l, 0) == Some(|a| + FindLabel(b, l, 0).value)
  {
    hide FindLabel;
    var j := FindLabel(a + b, l, 0).value;
    InSecond(a, b, l, j);
    assert FindLabel(b, l, 0).Some?;
    FindBehind(a, b, a + b, l);
  }

  lemma InSecond(a: Code, b: Code, l: nat, j: nat)
    requires j < |a + b| && (a + b)[j] == Label(l) && Label(l) !in a
    ensures |a| <= j && j - |a| < |b| && b[j - |a|] == Label(l)
  {
    assert forall k :: 0 <= k < |a| ==> (a + b)[k] == a[k];
  }

  /** Rewritten windows hold no label. */
  lemma WindowLabels(ctx: Contexts, s: Code, l: nat)
    requires s != []
    ensures var (out, k) := Rewrite(ctx, s);
            if s[0] == Label(l) then out == [s[0]] && k == 1 else Label(l) !in out && Label(l) !in s[..k]
  {
    var (out, k) := Rewrite(ctx, s);
    if Search(ctx, s) == NoPattern {
      assert s[..1] == [s[0]];
    } else {
      assert forall q :: q in s[..k] ==> q.Quad?;
      assert forall q :: q in out ==> q.Quad?;
    }
  }

  /** Labels stay, and what follows a label is the rewriting of what followed it. */
  lemma {:induction false} LabelsAligned(ctx: Contexts, s: Code, l: nat)
    requires FindLabel(s, l, 0).Some?
    ensures FindLabel(Pass(ctx, s), l, 0).Some?
    ensures Pass(ctx, s)[FindLabel(Pass(ctx, s), l, 0).value..] == Pass(ctx, s[FindLabel(s, l, 0).value..])
  {
    hide Rewrite, FindLabel, Pass, Search;
    var (out, k) := Rewrite(ctx, s);
    var rest := Pass(ctx, s[k..]);
    WindowLabels(ctx, s, l);
    PassParts(ctx, s);
    SplitSlice(s, k);
    if s[0] == Label(l) {
      HeadLabel(s, out + rest, l);
    } else {
      FindTail(s[..k], s[k..], l);
      LabelsAligned(ctx, s[k..], l);
      FindBehind(out, rest, out + rest, l);
      LaterSlices(s[..k], s[k..], out, rest, l);
    }
  }

  lemma HeadLabel(s: Code, r: Code, l: nat)
    requires s != [] && r != [] && s[0] == Label(l) && r[0] == Label(l)
    ensures FindLabel(s, l, 0) == Some(0) && FindLabel(r, l, 0) == Some(0) && s[0..] == s && r[0..] == r
  {
  }

  lemma SplitSlice(s: Code, k: nat)
    requires k <= |s|
    ensures s == s[..k] + s[k..]
  {
  }

  /** What follows the label is the same with and without what stands before. */
  lemma LaterSlices(a: Code, b: Code, a': Code, b': Code, l: nat)
    requires FindLabel(b, l, 0).Some? && FindLabel(b', l, 0).Some?
    ensures (a + b)[|a| + FindLabel(b, l, 0).value..] == b[FindLabel(b, l, 0).value..]
    ensures (a' + b')[|a'| + FindLabel(b', l, 0).value..] == b'[FindLabel(b', l, 0).value..]
  {
    hide FindLabel;
    SliceBehind(a, b, FindLabel(b, l, 0).value);
    SliceBehind(a', b', FindLabel(b', l, 0).value);
  }

  lemma SliceBehind(a: Code, b: Code, j: nat)
    requires j <= |b|
    ensures (a + b)[|a| + j..] == b[j..]
  {
  }

  /** Jumps to a label lead to aligned positions. */
  lemma JumpsAligned(ctx: Contexts, p: Code, l: nat)
    requires FindLabel(p, l, 0).Some?
    ensures var p' := Pass(ctx, p);
            && FindLabel(p', l, 0).Some?
            && Aligned(ctx, p, p', FindLabel(p, l, 0).value, FindLabel(p', l, 0).value)
  {
    LabelsAligned(ctx, p, l);
  }

  /** The quads of a window and of what it becomes, where they lie. */
  lemma WindowAt(ctx: Contexts, p: Code, p': Code, i: nat, i': nat)
    requires Aligned(ctx, p, p', i, i') && i < |p|
    ensures var (out, k) := Rewrite(ctx, p[i..]);
            && i' + |out| <= |p'| && i + k <= |p|
            && (forall j :: 0 <= j < |out| ==> p'[i' + j] == out[j])
            && Aligned(ctx, p, p', i + k, i' + |out|)
  {
    hide Rewrite;
    var (out, k) := Rewrite(ctx, p[i..]);
    assert p[i..][k..] == p[i + k..];
    assert p'[i'..] == out + Pass(ctx, p[i + k..]);
    assert p'[i'..][|out|..] == p'[i' + |out|..];
    forall j | 0 <= j < |out|
      ensures p'[i' + j] == out[j]
    {
      assert p'[i'..][j] == p'[i' + j];
    }
  }

  // ----- states -----

  /** Whatever is needed at pc has the same value in both. */
  ghost predicate Same(p: Code, pc: nat, temps: Temps, temps': Temps)
  {
    forall t: nat :: NeedAt(p, pc, t) ==> Get(temps, t) == Get(temps', t)
  }

  ghost predicate Related(ctx: Contexts, p: Code, p': Code, s: State, s': State)
  {
    && Aligned(ctx, p, p', s.pc, s'.pc) && s.store == s'.store && s.frames == s'.frames
    && Same(p, s.pc, s.temps, s'.temps)
  }

  /** The original has gone wrong, or both are at related points, or both have ended alike. */
  ghost predicate Matched(ctx: Contexts, p: Code, p': Code, a: Status, b: Status)
  {
    match a
    case At(s) => b.At? && Related(ctx, p, p', s, b.s)
    case Halt(_, _) => b == a
    case Stuck => true
  }

  /** Everything needed after the quad at j, apart from what it writes, is the same in both. */
  ghost predicate SameAfter(p: Code, j: nat, temps: Temps, temps': Temps)
    requires j < |p|
  {
    forall t: nat :: NeedAfter(p, j, t) && !Writes(p[j], t) ==> Get(temps, t) == Get(temps', t)
  }

  /** The two actions are the same, or set the same temporary, which is not needed. */
  ghost predicate ActsAlike(p: Code, j: nat, act: Act, act': Act)
    requires j < |p|
  {
    || act == act'
    || (act.Fall? && act'.Fall? && act.res.ATemp? && act' == act.(v := act'.v) && !NeedAfter(p, j, act.res.t))
  }

  /** The act of q writes the temporary q writes, and jumps where q jumps. */
  ghost predicate ActFits(p: Code, q: Quad, act: Act)
  {
    && (act.Fall? ==> FallsThrough(q) && forall t: nat :: Writes(q, t) ==> act.res == ATemp(t))
    && (act.Leap? ==> q.Quad? && q.res == act.target && (q.op == UJump || IsCondJump(q.op)))
  }

  lemma ActsFit(env: Env, p: Code, q: Quad, s: State)
    requires q.Quad?
    ensures ActFits(p, q, ActAt(env, q, s))
  {
    hide AluVal, UnVal, CastVal, Read, Condition, Load;
  }

  /** The last quad of a window against the quad it became. */
  lemma LastStep(env: Env, ctx: Contexts, p: Code, s: State, s': State, act: Act, act': Act)
    requires var p' := Pass(ctx, p); s.pc < |p| && s'.pc < |p'| && Aligned(ctx, p, p', s.pc + 1, s'.pc + 1)
    requires s.store == s'.store && s.frames == s'.frames && SameAfter(p, s.pc, s.temps, s'.temps)
    requires ActsAlike(p, s.pc, act, act') && ActFits(p, p[s.pc], act)
    ensures Matched(ctx, p, Pass(ctx, p), Perform(p, act, s), Perform(Pass(ctx, p), act', s'))
  {
    hide Pass, Aligned, NeedAfter, NeedAt, FindLabel, Writes;
    match act
    case Fall(res, v, store, frames) =>
      forall t: nat | NeedAt(p, s.pc + 1, t)
        ensures Get(SetTemp(res, v, s.temps), t) == Get(SetTemp(res, act'.v, s'.temps), t)
      {
        NeedBack(p, s.pc, s.pc + 1, t);
      }
    case Leap(target) =>
      if target.ALabel? && FindLabel(p, target.l, 0).Some? {
        JumpsAligned(ctx, p, target.l);
        var next := FindLabel(p, target.l, 0).value;
        forall t: nat | NeedAt(p, next, t)
          ensures Get(s.temps, t) == Get(s'.temps, t)
        {
          NeedBack(p, s.pc, next, t);
          JumpWrites(p[s.pc], t);
        }
      }
    case _ =>
  }

  lemma JumpWrites(q: Quad, t: nat)
    requires q.Quad? && q.res.ALabel?
    ensures !Writes(q, t)
  {
  }

  /** The last quad of a window that became nothing. */
  lemma NoStep(ctx: Contexts, p: Code, s: State, s': State)
    requires var p' := Pass(ctx, p); s.pc < |p| && Aligned(ctx, p, p', s.pc + 1, s'.pc)
    requires s.store == s'.store && s.frames == s'.frames && SameAfter(p, s.pc, s.temps, s'.temps)
    requires FallsThrough(p[s.pc]) && forall t: nat :: !Writes(p[s.pc], t)
    ensures Matched(ctx, p, Pass(ctx, p), At(s.(pc := s.pc + 1)), At(s'))
  {
    hide Pass, Aligned, NeedAfter, NeedAt, Writes, Target;
    forall t: nat | NeedAt(p, s.pc + 1, t)
      ensures Get(s.temps, t) == Get(s'.temps, t)
    {
      NeedBack(p, s.pc, s.pc + 1, t);
    }
  }

  // ----- when a window may be rewritten -----

  /** X is set by the quad at j or not needed after it. */
  ghost predicate Gone(p: Code, j: nat, t: nat)
    requires j < |p|
  {
    Writes(p[j], t) || !NeedAfter(p, j, t)
  }

  /** Folding gives what the machine computes: always for + - * and the bitwise operators; for the others
      when the unsigned reading and the signed one agree (see `FoldExact` and `CompareFoldExact`). */
  predicate FoldFits(q: Quad, a: Word, b: Word)
  {
    q.Quad?
    && match q.op
       case Alu(OpDiv) => QuotFits(SIGN, a, b)
       case Alu(OpMod) => RemFits(SIGN, a, b)
       case Alu(OpShl) => b < 64
       case Alu(OpShr) => a < SIGN && b < 64
       case CJump(JumpE) => true
       case CJump(JumpNe) => true
       case CJump(_) => (a < SIGN) == (b < SIGN)
       case _ => true
  }

  /** The conditions the optimizer does not check itself: operands compared by number are temporaries,
      the second quad of three is a copy, a folded cast is to an integer type, folding fits, and the
      temporaries that disappear are not read again, in the window or in a way that matters later. */
  ghost predicate Good(ctx: Contexts, p: Code, i: nat)
    requires i < |p|
  {
    var s := p[i..];
    var pat := Search(ctx, s);
    if pat == NoPattern then true
    else if pat == RefSubst then
      s[0].arg1.AName? && s[1].arg1 != s[0].res && Gone(p, i + 1, s[0].res.t)
    else if pat == CopyUnarySubst then
      s[1].arg2 != s[0].res && (s[1].op == DerefCopy ==> s[1].res != s[0].res) && Gone(p, i + 1, s[0].res.t)
    else if pat == UnaryConstFold then
      s[1].arg1.ATemp? && s[1].op != OpCast(TPtr) && Gone(p, i + 1, s[0].res.t)
    else if pat == IndexConstFold then Gone(p, i + 1, s[0].res.t)
    else if pat == BinaryConstFold then
      GoodThree(p, i) && FoldFits(s[2], s[0].arg1.w, s[1].arg1.w)
    else GoodThree(p, i)
  }

  ghost predicate GoodThree(p: Code, i: nat)
    requires i + 2 < |p| && p[i].Quad? && p[i + 1].Quad? && p[i + 2].Quad?
  {
    && p[i + 1].op == Copy && p[i].res.ATemp? && p[i + 1].res.ATemp? && p[i].res != p[i + 1].res
    && p[i + 2].arg1.ATemp? && p[i + 2].arg2.ATemp?
    && Gone(p, i + 2, p[i].res.t) && Gone(p, i + 2, p[i + 1].res.t)
  }

  lemma ValueSame(p: Code, j: nat, s: State, s': State, a: Operand)
    requires j < |p| && Same(p, j, s.temps, s'.temps) && s.store == s'.store
    requires a.ATemp? ==> NeedAt(p, j, a.t)
    ensures Value(a, s) == Value(a, s')
  {
  }

  /** A quad whose effect matters needs what it reads. */
  lemma OperandsSame(p: Code, s: State, s': State)
    requires s.pc < |p| && p[s.pc].Quad? && Matters(p, s.pc) && Same(p, s.pc, s.temps, s'.temps) && s.store == s'.store
    ensures var q := p[s.pc];
            Value(q.arg1, s) == Value(q.arg1, s') && Value(q.arg2, s) == Value(q.arg2, s')
            && (q.op == DerefCopy ==> Value(q.res, s) == Value(q.res, s'))
  {
    hide Read;
    var q := p[s.pc];
    forall a | a == q.arg1 || a == q.arg2 || (a == q.res && q.op == DerefCopy)
      ensures Value(a, s) == Value(a, s')
    {
      if a.ATemp? {
        NeedRead(p, s.pc, a.t);
      }
      ValueSame(p, s.pc, s, s', a);
    }
  }

  /** A pure quad sets its result and does nothing else. */
  lemma PureActs(env: Env, q: Quad, s: State)
    requires Pure(q)
    ensures var act := ActAt(env, q, s);
            act.Fall? && act.res == q.res && act.store == s.store && act.frames == s.frames
  {
    hide AluVal, UnVal, CastVal, Read;
    if q.op.Alu? {
      TotalDefined(q.op.alu, Value(q.arg1, s), Value(q.arg2, s));
    }
  }

  /** Only a store through a pointer looks at the value of its result operand. */
  lemma ActsByOperands(env: Env, q: Quad, s: State, s': State)
    requires q.Quad? && s.store == s'.store && s.frames == s'.frames
    requires Value(q.arg1, s) == Value(q.arg1, s') && Value(q.arg2, s) == Value(q.arg2, s')
    requires q.op == DerefCopy ==> Value(q.res, s) == Value(q.res, s')
    ensures ActAt(env, q, s) == ActAt(env, q, s')
  {
    hide ActOf, Read;
    ResultUnread(env, q, Value(q.arg1, s), Value(q.arg2, s), Value(q.res, s), Value(q.res, s'), s.store, s.frames);
  }

  lemma ResultUnread(env: Env, q: Quad, a: Val, b: Val, d: Val, d': Val, store: Store, frames: seq<seq<Val>>)
    requires q.Quad? && (q.op == DerefCopy ==> d == d')
    ensures ActOf(env, q, a, b, d, store, frames) == ActOf(env, q, a, b, d', store, frames)
  {
    hide AluVal, UnVal, CastVal, Condition, Load;
  }

  lemma SameQuad(env: Env, p: Code, s: State, s': State)
    requires s.pc < |p| && p[s.pc].Quad? && Same(p, s.pc, s.temps, s'.temps)
    requires s.store == s'.store && s.frames == s'.frames
    ensures ActsAlike(p, s.pc, ActAt(env, p[s.pc], s), ActAt(env, p[s.pc], s'))
    ensures SameAfter(p, s.pc, s.temps, s'.temps)
  {
    hide ActAt, Value, NeedAt, NeedAfter, Writes;
    if Matters(p, s.pc) {
      OperandsSame(p, s, s');
      ActsByOperands(env, p[s.pc], s, s');
    } else {
      PureActs(env, p[s.pc], s);
      PureActs(env, p[s.pc], s');
    }
    forall t: nat | NeedAfter(p, s.pc, t) && !Writes(p[s.pc], t)
      ensures Get(s.temps, t) == Get(s'.temps, t)
    {
      NeedThrough(p, s.pc, t);
    }
  }

  /** A quad that no pattern takes. */
  lemma PlainWindow(env: Env, ctx: Contexts, p: Code, s: State, s': State)
    requires var p' := Pass(ctx, p); Related(ctx, p, p', s, s') && s.pc < |p| && Search(ctx, p[s.pc..]) == NoPattern
    ensures Matched(ctx, p, Pass(ctx, p), Step(env, p, s), Step(env, Pass(ctx, p), s'))
  {
    hide Pass, Aligned, Search, Step, ActAt, Perform, Same, SameAfter, ActsAlike;
    var p' := Pass(ctx, p);
    WindowAt(ctx, p, p', s.pc, s'.pc);
    assert p[s.pc..][0] == p[s.pc];
    var q := p[s.pc];
    assert Rewrite(ctx, p[s.pc..]) == ([q], 1);
    assert p'[s'.pc + 0] == [q][0];
    if q.Quad? {
      SameQuad(env, p, s, s');
      ActsFit(env, p, q, s);
      StepActs(env, p, s);
      StepActs(env, p', s');
      LastStep(env, ctx, p, s, s', ActAt(env, q, s), ActAt(env, q, s'));
    } else {
      LabelStep(env, p, s);
      LabelStep(env, p', s');
      SameThrough(p, s, s');
    }
  }

  lemma LabelStep(env: Env, p: Code, s: State)
    requires s.pc < |p| && p[s.pc].Label?
    ensures Step(env, p, s) == At(s.(pc := s.pc + 1))
  {
  }

  lemma SameThrough(p: Code, s: State, s': State)
    requires s.pc < |p| && p[s.pc].Label? && Same(p, s.pc, s.temps, s'.temps)
    ensures Same(p, s.pc + 1, s.temps, s'.temps)
  {
    hide NeedAfter, NeedAt;
    forall t: nat | NeedAt(p, s.pc + 1, t)
      ensures Get(s.temps, t) == Get(s'.temps, t)
    {
      NeedBack(p, s.pc, s.pc + 1, t);
      NeedThrough(p, s.pc, t);
    }
  }

  // ----- windows of two quads -----

  /** After a pure quad that sets X: what is needed after the next quad, and not set by it, is the same. */
  lemma SecondAfter(p: Code, i: nat, x: nat, v: Val, temps: Temps, temps': Temps)
    requires i + 1 < |p| && p[i].Quad? && FallsThrough(p[i]) && Gone(p, i + 1, x)
    requires (forall t: nat :: Writes(p[i], t) ==> t == x) && Same(p, i, temps, temps')
    ensures SameAfter(p, i + 1, temps[x := v], temps')
  {
    hide NeedAt, NeedAfter, Writes;
    forall t: nat | NeedAfter(p, i + 1, t) && !Writes(p[i + 1], t)
      ensures Get(temps[x := v], t) == Get(temps', t)
    {
      NeedThrough(p, i + 1, t);
      NeedBack(p, i, i + 1, t);
      NeedThrough(p, i, t);
    }
  }

  /** If the second quad matters, so does a first quad whose result it reads, and everything else it reads
      is needed at the start. */
  lemma SecondReads(p: Code, i: nat, x: nat)
    requires i + 1 < |p| && Pure(p[i]) && p[i].res == ATemp(x) && Matters(p, i + 1)
    ensures Reads(p[i + 1], x) ==> Matters(p, i)
    ensures forall u: nat :: Reads(p[i + 1], u) && u != x ==> NeedAt(p, i, u)
  {
    hide NeedAt, NeedAfter, Reads;
    if Reads(p[i + 1], x) {
      NeedRead(p, i + 1, x);
      NeedBack(p, i, i + 1, x);
    }
    forall u: nat | Reads(p[i + 1], u) && u != x
      ensures NeedAt(p, i, u)
    {
      NeedRead(p, i + 1, u);
      NeedBack(p, i, i + 1, u);
      NeedThrough(p, i, u);
    }
  }

  lemma CopyStep(env: Env, p: Code, s: State, x: nat)
    requires s.pc < |p| && IsOp(p[s.pc], Copy) && p[s.pc].res == ATemp(x)
    ensures Step(env, p, s) == At(s.(pc := s.pc + 1, temps := s.temps[x := Value(p[s.pc].arg1, s)]))
  {
  }

  /** A copy followed by a quad that reads it becomes that quad reading the original. */
  lemma SubstWindow(env: Env, ctx: Contexts, p: Code, s: State, s': State)
    requires var p' := Pass(ctx, p); Related(ctx, p, p', s, s') && s.pc < |p|
    requires Search(ctx, p[s.pc..]) == CopyUnarySubst && Good(ctx, p, s.pc)
    ensures Matched(ctx, p, Pass(ctx, p), Run(env, p, s, 2), Run(env, Pass(ctx, p), s', 1))
  {
    hide Pass, Aligned, Step, ActAt, Perform, Same, SameAfter, ActsAlike, NeedAfter;
    var p', i := Pass(ctx, p), s.pc;
    WindowAt(ctx, p, p', i, s'.pc);
    var first, q := p[i], p[i + 1];
    assert p[i..][0] == first && p[i..][1] == q;
    var q' := q.(arg1 := first.arg1);
    assert Rewrite(ctx, p[i..]) == ([q'], 2);
    assert p'[s'.pc + 0] == [q'][0];
    var x := first.res.t;
    CopyStep(env, p, s, x);
    var s1 := s.(pc := i + 1, temps := s.temps[x := Value(first.arg1, s)]);
    SecondAfter(p, i, x, Value(first.arg1, s), s.temps, s'.temps);
    SubstActs(env, p, s, s', q', x);
    ActsFit(env, p, q, s1);
    StepActs(env, p, s1);
    StepActs(env, p', s');
    LastStep(env, ctx, p, s1, s', ActAt(env, q, s1), ActAt(env, q', s'));
    assert Run(env, p, s, 2) == Run(env, p, s1, 1);
  }

  lemma SubstActs(env: Env, p: Code, s: State, s': State, q': Quad, x: nat)
    requires var i := s.pc;
             && i + 1 < |p| && IsOp(p[i], Copy) && p[i].res == ATemp(x) && p[i + 1].Quad? && p[i + 1].op != OpRef
                 && p[i + 1].arg1 == ATemp(x)
             && p[i + 1].arg2 != ATemp(x) && (p[i + 1].op == DerefCopy ==> p[i + 1].res != ATemp(x))
             && q' == p[i + 1].(arg1 := p[i].arg1)
             && Same(p, i, s.temps, s'.temps) && s.store == s'.store && s.frames == s'.frames
    ensures ActsAlike(p, s.pc + 1,
                      ActAt(env, p[s.pc + 1], s.(pc := s.pc + 1, temps := s.temps[x := Value(p[s.pc].arg1, s)])),
                      ActAt(env, q', s'))
  {
    hide NeedAfter, NeedAt, ActOf;
    var i, first, q := s.pc, p[s.pc], p[s.pc + 1];
    var s1 := s.(pc := i + 1, temps := s.temps[x := Value(first.arg1, s)]);
    if Matters(p, i + 1) {
      SecondReads(p, i, x);
      OperandsSame(p, s, s');
      forall a | a == q.arg2 || (a == q.res && q.op == DerefCopy)
        ensures Value(a, s1) == Value(a, s')
      {
        ValueSame(p, i, s, s', a);
      }
      ResultUnread(env, q, Value(q.arg1, s1), Value(q.arg2, s1), Value(q.res, s1), Value(q.res, s'), s.store, s.frames);
      SameOp(env, q, q', Value(q.arg1, s1), Value(q.arg2, s1), Value(q.res, s'), s.store, s.frames);
    } else {
      PureActs(env, q, s1);
      PureActs(env, q', s');
    }
  }

  /** Only the operator, the result and, for `&`, the name itself tell what a quad does. */
  lemma SameOp(env: Env, q: Quad, q': Quad, a: Val, b: Val, d: Val, store: Store, frames: seq<seq<Val>>)
    requires q.Quad? && q'.Quad? && q.op == q'.op && q.res == q'.res && q.op != OpRef
    ensures ActOf(env, q, a, b, d, store, frames) == ActOf(env, q', a, b, d, store, frames)
  {
    hide AluVal, UnVal, CastVal, Condition, Load;
  }

  // ----- the other windows -----

  /** The last quad of a window, folded into one quad or into nothing. */
  lemma LastFold(env: Env, ctx: Contexts, p: Code, s1: State, s': State, out: Code, act: Act)
    requires var p' := Pass(ctx, p);
             && s1.pc < |p| && p[s1.pc].Quad? && |out| <= 1 && s'.pc + |out| <= |p'|
             && Aligned(ctx, p, p', s1.pc + 1, s'.pc + |out|)
             && (out != [] ==> p'[s'.pc] == out[0])
    requires s1.store == s'.store && s1.frames == s'.frames && SameAfter(p, s1.pc, s1.temps, s'.temps)
    requires act == ActAt(env, p[s1.pc], s1)
    requires if out == [] then act == Fall(ANone, Void, s1.store, s1.frames) && FallsThrough(p[s1.pc])
                               && forall t: nat :: !Writes(p[s1.pc], t)
             else out[0].Quad? && ActsAlike(p, s1.pc, act, ActAt(env, out[0], s'))
    ensures Matched(ctx, p, Pass(ctx, p), Run(env, p, s1, 1), Run(env, Pass(ctx, p), s', |out|))
  {
    hide Pass, Aligned, ActAt, SameAfter, ActsAlike, Step, Writes, ActFits, Perform, Matched, Run;
    StepActs(env, p, s1);
    ShortRuns(env, p, s1);
    ShortRuns(env, Pass(ctx, p), s');
    if out == [] {
      PerformNothing(p, s1);
      NoStep(ctx, p, s1, s');
    } else {
      ActsFit(env, p, p[s1.pc], s1);
      StepActs(env, Pass(ctx, p), s');
      LastStep(env, ctx, p, s1, s', act, ActAt(env, out[0], s'));
    }
  }

  lemma ShortRuns(env: Env, p: Code, s: State)
    ensures Run(env, p, s, 0) == At(s) && Run(env, p, s, 1) == Step(env, p, s)
  {
    hide Step;
  }

  lemma PerformNothing(p: Code, s: State)
    ensures Perform(p, Fall(ANone, Void, s.store, s.frames), s) == At(s.(pc := s.pc + 1))
  {
  }

  lemma RefStep(env: Env, p: Code, s: State, x: nat)
    requires s.pc < |p| && IsOp(p[s.pc], OpRef) && p[s.pc].res == ATemp(x) && p[s.pc].arg1.AName?
    ensures Step(env, p, s) == At(s.(pc := s.pc + 1, temps := s.temps[x := Addr(p[s.pc].arg1.name)]))
  {
  }

  /** The address of a variable followed by a store through it becomes a copy to the variable. */
  lemma RefWindow(env: Env, ctx: Contexts, p: Code, s: State, s': State)
    requires var p' := Pass(ctx, p); Related(ctx, p, p', s, s') && s.pc < |p|
    requires Search(ctx, p[s.pc..]) == RefSubst && Good(ctx, p, s.pc)
    ensures Matched(ctx, p, Pass(ctx, p), Run(env, p, s, 2), Run(env, Pass(ctx, p), s', 1))
  {
    hide Pass, Aligned, Step, Perform, Same, SameAfter, NeedAfter, Matched, ActAt, GoodThree, FoldFits, FoldUnary,
        FoldBinary;
    var p', i := Pass(ctx, p), s.pc;
    WindowAt(ctx, p, p', i, s'.pc);
    var first, q := p[i], p[i + 1];
    assert p[i..][0] == first && p[i..][1] == q;
    var q' := CopyOf(first.arg1, q.arg1);
    assert Rewrite(ctx, p[i..]) == ([q'], 2);
    assert p'[s'.pc + 0] == [q'][0];
    var x := first.res.t;
    RefStep(env, p, s, x);
    var s1 := s.(pc := i + 1, temps := s.temps[x := Addr(first.arg1.name)]);
    SecondAfter(p, i, x, Addr(first.arg1.name), s.temps, s'.temps);
    RefActs(env, p, s, s', x);
    LastFold(env, ctx, p, s1, s', [q'], ActAt(env, q, s1));
    assert Run(env, p, s, 2) == Run(env, p, s1, 1);
  }

  lemma RefActs(env: Env, p: Code, s: State, s': State, x: nat)
    requires var i := s.pc;
             && i + 1 < |p| && IsOp(p[i], OpRef) && p[i].res == ATemp(x) && p[i].arg1.AName?
             && IsOp(p[i + 1], DerefCopy) && p[i + 1].res == ATemp(x) && p[i + 1].arg1 != ATemp(x)
             && Same(p, i, s.temps, s'.temps) && s.store == s'.store && s.frames == s'.frames
    ensures ActAt(env, p[s.pc + 1], s.(pc := s.pc + 1, temps := s.temps[x := Addr(p[s.pc].arg1.name)]))
            == ActAt(env, CopyOf(p[s.pc].arg1, p[s.pc + 1].arg1), s')
  {
    hide NeedAfter, NeedAt, Same;
    var i := s.pc;
    SecondReads(p, i, x);
    ValueSame(p, i, s, s', p[i + 1].arg1);
  }

  /** What folding a quad whose first operand is the constant c gives. */
  lemma UnaryActs(env: Env, q: Quad, c: Word, s1: State, s': State)
    requires q.Quad? && (q.op.OpCast? || q.op.Un? || q.op in {CJumpT, CJumpF}) && q.op != OpCast(TPtr)
    requires Value(q.arg1, s1) == Num(c) && s1.store == s'.store && s1.frames == s'.frames
    ensures var out := FoldUnary(q, c);
            if out == [] then ActAt(env, q, s1) == Fall(ANone, Void, s1.store, s1.frames) && IsCondJump(q.op)
            else |out| == 1 && out[0].Quad? && ActAt(env, q, s1) == ActAt(env, out[0], s')
  {
    hide CastWord, ToWord;
  }

  lemma UnaryWindow(env: Env, ctx: Contexts, p: Code, s: State, s': State)
    requires var p' := Pass(ctx, p); Related(ctx, p, p', s, s') && s.pc < |p|
    requires Search(ctx, p[s.pc..]) == UnaryConstFold && Good(ctx, p, s.pc)
    ensures var out := Rewrite(ctx, p[s.pc..]).0;
            Matched(ctx, p, Pass(ctx, p), Run(env, p, s, 2), Run(env, Pass(ctx, p), s', |out|))
  {
    hide Pass, Aligned, Step, Perform, Same, SameAfter, NeedAfter, Matched, ActAt, FoldUnary;
    var p', i := Pass(ctx, p), s.pc;
    WindowAt(ctx, p, p', i, s'.pc);
    var first, q := p[i], p[i + 1];
    assert p[i..][0] == first && p[i..][1] == q;
    var c := first.arg1.w;
    var out := FoldUnary(q, c);
    assert Rewrite(ctx, p[i..]) == (out, 2);
    assert out != [] ==> p'[s'.pc + 0] == out[0];
    var x := first.res.t;
    CopyStep(env, p, s, x);
    var s1 := s.(pc := i + 1, temps := s.temps[x := Num(c)]);
    SecondAfter(p, i, x, Num(c), s.temps, s'.temps);
    UnaryActs(env, q, c, s1, s');
    LastFold(env, ctx, p, s1, s', out, ActAt(env, q, s1));
    assert Run(env, p, s, 2) == Run(env, p, s1, 1);
  }

  lemma IndexWindow(env: Env, ctx: Contexts, p: Code, s: State, s': State)
    requires var p' := Pass(ctx, p); Related(ctx, p, p', s, s') && s.pc < |p|
    requires Search(ctx, p[s.pc..]) == IndexConstFold && Good(ctx, p, s.pc)
    ensures Matched(ctx, p, Pass(ctx, p), Run(env, p, s, 2), Run(env, Pass(ctx, p), s', 1))
  {
    hide Pass, Aligned, Step, Perform, Same, SameAfter, NeedAfter, Matched, Folded;
    var p', i := Pass(ctx, p), s.pc;
    WindowAt(ctx, p, p', i, s'.pc);
    var first, q := p[i], p[i + 1];
    assert p[i..][0] == first && p[i..][1] == q;
    var c, d := first.arg1.w, q.arg2.w;
    var q' := CopyOf(q.res, AConst(Folded(q.op.alu, c, d)));
    assert Rewrite(ctx, p[i..]) == ([q'], 2);
    assert p'[s'.pc + 0] == [q'][0];
    var x := first.res.t;
    CopyStep(env, p, s, x);
    var s1 := s.(pc := i + 1, temps := s.temps[x := Num(c)]);
    SecondAfter(p, i, x, Num(c), s.temps, s'.temps);
    BinaryActs(env, q, c, d, s1, s');
    LastFold(env, ctx, p, s1, s', [q'], ActAt(env, q, s1));
    assert Run(env, p, s, 2) == Run(env, p, s1, 1);
  }

  /** The fold of an operator is what the machine computes if and only if `FoldFits` says so. */
  lemma FoldExact(op: AluOp, a: Word, b: Word)
    ensures AluWord(op, a, b) == Some(Folded(op, a, b)) <==> FoldFits(Quad(Alu(op), ANone, ANone, ANone), a, b)
  {
    hide Bitwise, QuotFits, RemFits, Quot, Pow2;
    if b == 0 {
      ZeroFits(a);
    } else if op == OpDiv {
      SignedSame(a);
      SignedSame(b);
      NoMinusOne(a, b);
      if !(a == SIGN && b == MODULUS - 1) {
        QuotExact(SIGN, a, b);
      }
    } else if op == OpMod {
      SignedSame(a);
      SignedSame(b);
      NoMinusOne(a, b);
      RemExact(SIGN, a, b);
    }
  }

  lemma SignedSame(w: Word)
    ensures SignedOf(SIGN, w) == Signed(w)
  {
  }

  lemma ZeroFits(a: Word)
    ensures !QuotFits(SIGN, a, 0) && !RemFits(SIGN, a, 0)
  {
  }

  lemma NoMinusOne(a: Word, b: Word)
    ensures a == SIGN && b == MODULUS - 1 ==> !QuotFits(SIGN, a, b) && !RemFits(SIGN, a, b)
  {
  }

  lemma FoldJumpAgrees(rel: JumpRel, a: Word, b: Word)
    requires FoldFits(Quad(CJump(rel), ANone, ANone, ANone), a, b)
    ensures JumpTaken(rel, Num(a), Num(b)) == Some(FoldJump(rel, a, b))
  {
  }

  lemma BinaryActs(env: Env, q: Quad, a: Word, b: Word, s1: State, s': State)
    requires q.Quad? && (q.op.Alu? || q.op.CJump?) && FoldFits(q, a, b)
    requires Value(q.arg1, s1) == Num(a) && Value(q.arg2, s1) == Num(b) && s1.store == s'.store
             && s1.frames == s'.frames
    ensures var out := FoldBinary(q, a, b);
            if out == [] then ActAt(env, q, s1) == Fall(ANone, Void, s1.store, s1.frames) && IsCondJump(q.op)
            else |out| == 1 && out[0].Quad? && ActAt(env, q, s1) == ActAt(env, out[0], s')
  {
    hide AluWord, Folded, JumpTaken, FoldJump;
    if q.op.Alu? {
      FoldExact(q.op.alu, a, b);
    } else {
      FoldJumpAgrees(q.op.rel, a, b);
    }
  }

  // ----- windows of three quads -----

  /** The state after the two copies of a window of three. */
  function AfterCopies(p: Code, s: State): State
    requires s.pc + 2 < |p| && IsOp(p[s.pc], Copy) && IsOp(p[s.pc + 1], Copy)
    requires p[s.pc].res.ATemp? && p[s.pc + 1].res.ATemp?
  {
    var s1 := s.(pc := s.pc + 1, temps := s.temps[p[s.pc].res.t := Value(p[s.pc].arg1, s)]);
    s1.(pc := s1.pc + 1, temps := s1.temps[p[s1.pc].res.t := Value(p[s1.pc].arg1, s1)])
  }

  lemma TwoCopies(env: Env, p: Code, s: State)
    requires s.pc + 2 < |p| && IsOp(p[s.pc], Copy) && p[s.pc + 1].Quad? && p[s.pc + 2].Quad? && GoodThree(p, s.pc)
    ensures Run(env, p, s, 3) == Run(env, p, AfterCopies(p, s), 1)
  {
    hide Step, Gone;
    var s1 := s.(pc := s.pc + 1, temps := s.temps[p[s.pc].res.t := Value(p[s.pc].arg1, s)]);
    CopyStep(env, p, s, p[s.pc].res.t);
    CopyStep(env, p, s1, p[s1.pc].res.t);
    assert Run(env, p, s, 3) == Run(env, p, s1, 2);
  }

  lemma ThirdAfter(p: Code, s: State, temps': Temps)
    requires s.pc + 2 < |p| && IsOp(p[s.pc], Copy) && p[s.pc + 1].Quad? && p[s.pc + 2].Quad? && GoodThree(p, s.pc)
    requires Same(p, s.pc, s.temps, temps')
    ensures SameAfter(p, s.pc + 2, AfterCopies(p, s).temps, temps')
  {
    hide NeedAt, NeedAfter, Value;
    var i, x, y := s.pc, p[s.pc].res.t, p[s.pc + 1].res.t;
    forall t: nat | NeedAfter(p, i + 2, t) && !Writes(p[i + 2], t)
      ensures Get(AfterCopies(p, s).temps, t) == Get(temps', t)
    {
      assert t != x && t != y;
      NeedThrough(p, i + 2, t);
      NeedBack(p, i + 1, i + 2, t);
      NeedThrough(p, i + 1, t);
      NeedBack(p, i, i + 1, t);
      NeedThrough(p, i, t);
    }
  }

  /** What the two copied operands hold when the third quad runs. */
  lemma CopiedValues(p: Code, s: State, w: Word)
    requires s.pc + 2 < |p| && IsOp(p[s.pc], Copy) && p[s.pc + 1].Quad? && p[s.pc + 2].Quad? && GoodThree(p, s.pc)
    requires p[s.pc + 1].arg1 == AConst(w)
    ensures var s2 := AfterCopies(p, s);
            && Value(p[s.pc].res, s2) == Value(p[s.pc].arg1, s) && Value(p[s.pc + 1].res, s2) == Num(w)
            && s2.pc == s.pc + 2 && s2.store == s.store && s2.frames == s.frames
  {
    hide Gone;
  }

  lemma BinaryWindow(env: Env, ctx: Contexts, p: Code, s: State, s': State)
    requires var p' := Pass(ctx, p); Related(ctx, p, p', s, s') && s.pc < |p|
    requires Search(ctx, p[s.pc..]) == BinaryConstFold && Good(ctx, p, s.pc)
    ensures var out := Rewrite(ctx, p[s.pc..]).0;
            Matched(ctx, p, Pass(ctx, p), Run(env, p, s, 3), Run(env, Pass(ctx, p), s', |out|))
  {
    hide Pass, Aligned, Step, Perform, Same, SameAfter, NeedAfter, Matched, ActAt, FoldBinary, FoldFits, Gone,
        AfterCopies;
    var p', i := Pass(ctx, p), s.pc;
    WindowAt(ctx, p, p', i, s'.pc);
    var q := p[i + 2];
    assert p[i..][0] == p[i] && p[i..][1] == p[i + 1] && p[i..][2] == q;
    var a, b := p[i].arg1.w, p[i + 1].arg1.w;
    var out := FoldBinary(q, a, b);
    assert Rewrite(ctx, p[i..]) == (out, 3);
    assert out != [] ==> p'[s'.pc + 0] == out[0];
    var s2 := AfterCopies(p, s);
    TwoCopies(env, p, s);
    ThirdAfter(p, s, s'.temps);
    CopiedValues(p, s, b);
    BinaryActs(env, q, a, b, s2, s');
    LastFold(env, ctx, p, s2, s', out, ActAt(env, q, s2));
  }

  /** Adding or multiplying by a copied zero. */
  lemma ZeroActs(env: Env, p: Code, s: State, s': State)
    requires s.pc + 2 < |p| && IsOp(p[s.pc], Copy) && p[s.pc + 1].Quad? && p[s.pc + 2].Quad? && GoodThree(p, s.pc)
    requires p[s.pc + 1].arg1 == AConst(0) && p[s.pc + 2].op in {Alu(OpAdd), Alu(OpMul)}
    requires p[s.pc + 2].arg1 == p[s.pc].res && p[s.pc + 2].arg2 == p[s.pc + 1].res
    requires Same(p, s.pc, s.temps, s'.temps) && s.store == s'.store && s.frames == s'.frames
    ensures var q := p[s.pc + 2];
            var arg := if q.op == Alu(OpMul) then AConst(0) else p[s.pc].arg1;
            ActsAlike(p, s.pc + 2, ActAt(env, q, AfterCopies(p, s)), ActAt(env, CopyOf(q.res, arg), s'))
  {
    hide Same, NeedAt, NeedAfter, AfterCopies, Gone;
    var i, q := s.pc, p[s.pc + 2];
    var s2 := AfterCopies(p, s);
    CopiedValues(p, s, 0);
    ZeroVal(Value(p[i].arg1, s));
    if q.op == Alu(OpAdd) && Matters(p, i + 2) {
      NeedRead(p, i + 2, p[i].res.t);
      NeedBack(p, i + 1, i + 2, p[i].res.t);
      NeedThrough(p, i + 1, p[i].res.t);
      NeedBack(p, i, i + 1, p[i].res.t);
      OperandsSame(p, s, s');
    }
  }

  lemma ZeroVal(v: Val)
    ensures AluVal(OpAdd, v, Num(0)) == Some(v) && AluVal(OpMul, v, Num(0)) == Some(Num(0))
  {
  }

  lemma ZeroWindow(env: Env, ctx: Contexts, p: Code, s: State, s': State)
    requires var p' := Pass(ctx, p); Related(ctx, p, p', s, s') && s.pc < |p|
    requires Search(ctx, p[s.pc..]) in {AlgAddZero, AlgMulZero} && Good(ctx, p, s.pc)
    ensures Matched(ctx, p, Pass(ctx, p), Run(env, p, s, 3), Run(env, Pass(ctx, p), s', 1))
  {
    hide Pass, Aligned, Step, Perform, Same, SameAfter, NeedAfter, Matched, ActAt, Gone, AfterCopies, FoldFits;
    var p', i := Pass(ctx, p), s.pc;
    WindowAt(ctx, p, p', i, s'.pc);
    var q := p[i + 2];
    assert p[i..][0] == p[i] && p[i..][1] == p[i + 1] && p[i..][2] == q;
    var q' := CopyOf(q.res, if q.op == Alu(OpMul) then AConst(0) else p[i].arg1);
    assert Rewrite(ctx, p[i..]) == ([q'], 3);
    assert p'[s'.pc + 0] == [q'][0];
    var s2 := AfterCopies(p, s);
    TwoCopies(env, p, s);
    ThirdAfter(p, s, s'.temps);
    CopiedValues(p, s, 0);
    ZeroActs(env, p, s, s');
    LastFold(env, ctx, p, s2, s', [q'], ActAt(env, q, s2));
  }

  // ----- a whole pass -----

  /** Every window the pass comes to, from i on, may be rewritten. */
  ghost predicate GoodFrom(ctx: Contexts, p: Code, i: nat)
    decreases |p| - i
  {
    i >= |p| || (Good(ctx, p, i) && GoodFrom(ctx, p, i + Rewrite(ctx, p[i..]).1))
  }

  lemma WindowRuns(env: Env, ctx: Contexts, p: Code, s: State, s': State)
    requires var p' := Pass(ctx, p); Related(ctx, p, p', s, s') && s.pc < |p| && Good(ctx, p, s.pc)
    ensures var (out, k) := Rewrite(ctx, p[s.pc..]);
            Matched(ctx, p, Pass(ctx, p), Run(env, p, s, k), Run(env, Pass(ctx, p), s', |out|))
  {
    hide Pass, Good, Run, Matched, Related, Search;
    WindowSizes(ctx, p[s.pc..]);
    match Search(ctx, p[s.pc..])
    case NoPattern =>
      PlainWindow(env, ctx, p, s, s');
      ShortRuns(env, p, s);
      ShortRuns(env, Pass(ctx, p), s');
    case RefSubst => RefWindow(env, ctx, p, s, s');
    case CopyUnarySubst => SubstWindow(env, ctx, p, s, s');
    case UnaryConstFold => UnaryWindow(env, ctx, p, s, s');
    case IndexConstFold => IndexWindow(env, ctx, p, s, s');
    case BinaryConstFold => BinaryWindow(env, ctx, p, s, s');
    case AlgMulZero => ZeroWindow(env, ctx, p, s, s');
    case AlgAddZero => ZeroWindow(env, ctx, p, s, s');
  }

  lemma WindowSizes(ctx: Contexts, s: Code)
    requires s != []
    ensures var (out, k) := Rewrite(ctx, s);
            var pat := Search(ctx, s);
            && k == (if pat == NoPattern then 1 else if pat in {BinaryConstFold, AlgMulZero, AlgAddZero} then 3 else 2)
            && (pat !in {UnaryConstFold, BinaryConstFold} ==> |out| == 1)
  {
  }

  /** A step goes to the next quad or to a label; a copy goes to the next quad. */
  lemma StepLands(env: Env, p: Code, s: State)
    requires s.pc < |p| && Step(env, p, s).At?
    ensures var pc := Step(env, p, s).s.pc;
            && (pc == s.pc + 1 || (pc < |p| && p[pc].Label?))
            && (IsOp(p[s.pc], Copy) || IsOp(p[s.pc], OpRef) ==> pc == s.pc + 1)
  {
    hide AluVal, UnVal, CastVal, Read, Condition, SetTemp, SetName;
  }

  /** A window leads to the start of the next one or to a label. */
  lemma WindowLands(env: Env, ctx: Contexts, p: Code, s: State)
    requires s.pc < |p| && Good(ctx, p, s.pc) && Run(env, p, s, Rewrite(ctx, p[s.pc..]).1).At?
    ensures var k := Rewrite(ctx, p[s.pc..]).1;
            var pc := Run(env, p, s, k).s.pc;
            pc == s.pc + k || (pc < |p| && p[pc].Label?)
  {
    hide Step, Gone, Rewrite, FoldFits;
    var i := s.pc;
    var k := Rewrite(ctx, p[i..]).1;
    WindowSizes(ctx, p[i..]);
    StepLands(env, p, s);
    assert p[i..][0] == p[i];
    var s1 := Step(env, p, s).s;
    assert Run(env, p, s, k) == Run(env, p, s1, k - 1);
    if k > 1 {
      StepLands(env, p, s1);
      var s2 := Step(env, p, s1).s;
      assert Run(env, p, s1, k - 1) == Run(env, p, s2, k - 2);
      if k > 2 {
        StepLands(env, p, s2);
        ShortRuns(env, p, s2);
      }
    }
  }

  /** No window reaches past a label. */
  lemma WindowBefore(ctx: Contexts, p: Code, i: nat, j: nat)
    requires i < j < |p| && p[j].Label?
    ensures i + Rewrite(ctx, p[i..]).1 <= j
  {
    var s := p[i..];
    var k := Rewrite(ctx, s).1;
    WindowLabels(ctx, s, p[j].id);
    assert s[j - i] == Label(p[j].id);
    assert forall m :: 0 <= m < k ==> s[m] in s[..k];
  }

  /** A pass starts a window at every label. */
  lemma {:induction false} GoodAtLabel(ctx: Contexts, p: Code, i: nat, j: nat)
    requires GoodFrom(ctx, p, i) && i <= j < |p| && p[j].Label?
    ensures GoodFrom(ctx, p, j)
    decreases |p| - i
  {
    if i < j {
      var k := Rewrite(ctx, p[i..]).1;
      WindowBefore(ctx, p, i, j);
      GoodAtLabel(ctx, p, i + k, j);
    }
  }

  /** From related states, if the original ends so does the rewritten code, with the same result. */
  lemma {:induction false} PassEnds(env: Env, ctx: Contexts, p: Code, s: State, s': State, n: nat, v: Val, store: Store)
    requires GoodFrom(ctx, p, 0) && GoodFrom(ctx, p, s.pc) && Related(ctx, p, Pass(ctx, p), s, s')
    requires Run(env, p, s, n) == Halt(v, store)
    ensures exists m: nat :: Run(env, Pass(ctx, p), s', m) == Halt(v, store)
    decreases n
  {
    hide Pass, Good, Step, Rewrite, Same, Run;
    var p' := Pass(ctx, p);
    if s.pc >= |p| {
      EndStep(env, ctx, p, s, s');
      assert Run(env, p', s', 1) == Halt(v, store) by { EndRun(env, p, s, n); }
    } else {
      var (out, k) := Rewrite(ctx, p[s.pc..]);
      WindowRuns(env, ctx, p, s, s');
      RunBound(env, p, s, n, k);
      if Run(env, p, s, k).At? {
        var s1, s1' := Run(env, p, s, k).s, Run(env, p', s', |out|).s;
        WindowLands(env, ctx, p, s);
        if s1.pc != s.pc + k {
          GoodAtLabel(ctx, p, 0, s1.pc);
        }
        RunAdd(env, p, s, k, n - k);
        PassEnds(env, ctx, p, s1, s1', n - k, v, store);
        var m: nat :| Run(env, p', s1', m) == Halt(v, store);
        RunAdd(env, p', s', |out|, m);
      }
    }
  }

  lemma EndStep(env: Env, ctx: Contexts, p: Code, s: State, s': State)
    requires s.pc >= |p| && Related(ctx, p, Pass(ctx, p), s, s')
    ensures Run(env, Pass(ctx, p), s', 1) == Halt(Void, s.store)
  {
    assert p[s.pc..] == [];
    assert |Pass(ctx, p)[s'.pc..]| == 0;
  }

  lemma EndRun(env: Env, p: Code, s: State, n: nat)
    requires s.pc >= |p| && Run(env, p, s, n).Halt?
    ensures Run(env, p, s, n) == Halt(Void, s.store)
  {
  }

  /** A run that has ended stays as it is. */
  lemma RunBound(env: Env, p: Code, s: State, n: nat, k: nat)
    requires Run(env, p, s, n).Halt?
    ensures Run(env, p, s, k).At? ==> k < n
    ensures !Run(env, p, s, k).At? ==> Run(env, p, s, k) == Run(env, p, s, n)
  {
    hide Run;
    if k < n {
      RunAdd(env, p, s, k, n - k);
    } else {
      RunAdd(env, p, s, n, k - n);
    }
  }

  /** One pass: if every window it rewrites is good, a run that ends still ends, with the same result
      and the same store, whatever the temporaries hold at the start. */
  lemma PassPreserves(env: Env, ctx: Contexts, p: Code, s: State, n: nat, v: Val, store: Store)
    requires GoodFrom(ctx, p, 0) && s.pc == 0 && Run(env, p, s, n) == Halt(v, store)
    ensures exists m: nat :: Run(env, Pass(ctx, p), s, m) == Halt(v, store)
  {
    hide Pass, Good, Run;
    assert p[0..] == p && Pass(ctx, p)[0..] == Pass(ctx, p);
    PassEnds(env, ctx, p, s, s, n, v, store);
  }

  /** Every pass that is made rewrites good windows only. */
  ghost predicate AllGood(ctx: Contexts, p: Code)
    decreases |p|
  {
    PassShortens(ctx, p);
    |Pass(ctx, p)| == |p| || (GoodFrom(ctx, p, 0) && AllGood(ctx, Pass(ctx, p)))
  }

  /** All passes together. */
  lemma {:induction false} PassesPreserve(env: Env, ctx: Contexts, p: Code, s: State, n: nat, v: Val, store: Store)
    requires AllGood(ctx, p) && s.pc == 0 && Run(env, p, s, n) == Halt(v, store)
    ensures exists m: nat :: Run(env, Passes(ctx, p), s, m) == Halt(v, store)
    decreases |p|
  {
    hide Pass, GoodFrom, Run;
    PassShortens(ctx, p);
    if |Pass(ctx, p)| != |p| {
      PassPreserves(env, ctx, p, s, n, v, store);
      var m: nat :| Run(env, Pass(ctx, p), s, m) == Halt(v, store);
      PassesPreserve(env, ctx, Pass(ctx, p), s, m, v, store);
      var m': nat :| Run(env, Passes(ctx, Pass(ctx, p)), s, m') == Halt(v, store);
      assert Run(env, Passes(ctx, p), s, m') == Halt(v, store);
    } else {
      assert Run(env, Passes(ctx, p), s, n) == Halt(v, store);
    }
  }

  // ----- exactness and counterexamples -----

  /** An order comparison folds to what the machine decides if and only if both operands have the same
      sign; equality always does. */
  lemma CompareFoldExact(rel: JumpRel, a: Word, b: Word)
    ensures JumpTaken(rel, Num(a), Num(b)) == Some(FoldJump(rel, a, b)) <==>
            rel in {JumpE, JumpNe} || (a < SIGN) == (b < SIGN)
  {
  }
}
