/** Registers and the stack over a whole run: what a call saves it gives back, whatever happens in between. */
module CallRuns {
  import opened Words
  import opened Ast
  import opened Quads
  import opened Procedure
  import opened Liveness
  import opened Nests
  import opened RegAlloc
  import opened Calls
  import opened CallSim
  import opened CallBalance

  type RegFile = Reg -> Word

  /** The stack holds words and grows at its end. */
  datatype Cpu = Cpu(regs: RegFile, stack: seq<Word>)

  /** One instruction. A callee leaves the stack as it found it and may set any register. */
  ghost predicate StepInst(i: Inst, s: Cpu, s': Cpu)
  {
    match i
    case Push(r) => s' == s.(stack := s.stack + [s.regs(r)])
    case Pop(r) =>
      && s.stack != [] && s'.stack == s.stack[..|s.stack| - 1]
      && s'.regs(r) == s.stack[|s.stack| - 1]
      && forall q :: q != r ==> s'.regs(q) == s.regs(q)
    case PushWord => |s'.stack| == |s.stack| + 1 && s'.stack[..|s.stack|] == s.stack
    case AddRsp(n) =>
      n % 8 == 0 && n / 8 <= |s.stack| && s' == s.(stack := s.stack[..|s.stack| - n / 8])
    case CallInst => s'.stack == s.stack
    case AndRsp => true
  }

  ghost predicate RunText(text: seq<Inst>, s: Cpu, s': Cpu)
  {
    if text == [] then s' == s
    else
      var n := |text| - 1;
      var last := text[n];
      exists mid :: RunText(text[..n], s, mid) && StepInst(last, mid, s')
  }

  lemma {:induction false} SplitText(a: seq<Inst>, b: seq<Inst>, s: Cpu, s': Cpu) returns (mid: Cpu)
    requires RunText(a + b, s, s')
    ensures RunText(a, s, mid) && RunText(b, mid, s')
  {
    hide StepInst;
    if b == [] {
      assert a + b == a;
      mid := s';
    } else {
      assert (a + b)[..|a + b| - 1] == a + b[..|b| - 1];
      var m :| RunText(a + b[..|b| - 1], s, m) && StepInst(b[|b| - 1], m, s');
      mid := SplitText(a, b[..|b| - 1], s, m);
    }
  }

  function Values(regs: seq<Reg>, f: RegFile): (w: seq<Word>)
    ensures |w| == |regs|
    ensures forall j :: 0 <= j < |regs| ==> w[j] == f(regs[j])
  {
    seq(|regs|, j requires 0 <= j < |regs| => f(regs[j]))
  }

  lemma {:induction false} PushesRun(regs: seq<Reg>, s: Cpu, s': Cpu)
    requires RunText(Pushes(regs), s, s')
    ensures s' == Cpu(s.regs, s.stack + Values(regs, s.regs))
  {
    if regs == [] {
      assert s.stack + Values(regs, s.regs) == s.stack;
    } else {
      var n := |regs| - 1;
      var text := Pushes(regs);
      assert text[..|text| - 1] == Pushes(regs[..n]);
      var mid :| RunText(Pushes(regs[..n]), s, mid) && StepInst(Push(regs[n]), mid, s');
      PushesRun(regs[..n], s, mid);
      assert Values(regs, s.regs) == Values(regs[..n], s.regs) + [s.regs(regs[n])];
      assert s.stack + Values(regs[..n], s.regs) + [s.regs(regs[n])] == s.stack + Values(regs, s.regs);
    }
  }

  /** Popping in reverse order undoes the pushes, though a register named twice is popped twice. */
  lemma {:induction false} PopsRun(regs: seq<Reg>, f: RegFile, front: seq<Word>, s: Cpu, s': Cpu)
    requires RunText(Pops(regs), s, s') && s.stack == front + Values(regs, f)
    ensures s'.stack == front
    ensures forall r :: s'.regs(r) == if r in regs then f(r) else s.regs(r)
  {
    hide RunText, Values;
    if regs == [] {
      NoText(s, s');
      assert front + Values(regs, f) == front;
    } else {
      var mid := LastPop(regs, s, s');
      var w := f(regs[0]);
      assert Values(regs, f) == [w] + Values(regs[1..], f);
      PushOne(front, w, Values(regs[1..], f));
      PopsRun(regs[1..], f, front + [w], s, mid);
    }
  }

  lemma NoText(s: Cpu, s': Cpu)
    requires RunText([], s, s')
    ensures s' == s
  {
  }

  lemma LastPop(regs: seq<Reg>, s: Cpu, s': Cpu) returns (mid: Cpu)
    requires regs != [] && RunText(Pops(regs), s, s')
    ensures RunText(Pops(regs[1..]), s, mid) && StepInst(Pop(regs[0]), mid, s')
  {
    var text := Pops(regs);
    assert text[..|text| - 1] == Pops(regs[1..]);
    mid :| RunText(Pops(regs[1..]), s, mid) && StepInst(Pop(regs[0]), mid, s');
  }

  lemma PushOne(front: seq<Word>, w: Word, tail: seq<Word>)
    ensures front + ([w] + tail) == front + [w] + tail
    ensures |front + [w]| == |front| + 1 && (front + [w])[..|front|] == front && (front + [w])[|front|] == w
  {
  }

  // ----- runs -----

  /** A moment of a run; `frames` remembers the processor at the opening of each call that is open. */
  datatype Point = Point(pc: nat, cpu: Cpu, frames: seq<Cpu>)

  /** What the instructions of a quad do: quads that do not concern calls leave the stack alone, and so do
      arguments that go to registers. */
  ghost predicate Acts(regs: seq<Reg>, q: Quad, g: Gen, a: Point, b: Point)
    requires NeedsCall(q) ==> g.calls != []
    requires Accounted(g)
  {
    if q.Quad? && q.op == HintCall then
      RunText(Pushes(regs), a.cpu, b.cpu) && b.frames == a.frames + [a.cpu]
    else if q.Quad? && q.op == Arg then
      b.frames == a.frames &&
      if TopCall(g).ints < ARG_REGISTERS then b.cpu.stack == a.cpu.stack else StepInst(PushWord, a.cpu, b.cpu)
    else if q.Quad? && (q.op == PCall || q.op == FCall) then
      RunText(CallText(g), a.cpu, b.cpu) && a.frames != [] && b.frames == a.frames[..|a.frames| - 1]
    else b.cpu.stack == a.cpu.stack && b.frames == a.frames
  }

  /** The stack is the base with, for every open call, the registers saved when it was opened and the
      arguments pushed since, on top of the stack of that moment. */
  ghost predicate Shape(calls: seq<CallState>, frames: seq<Cpu>, stack: seq<Word>, base: seq<Word>)
  {
    |frames| == |calls| &&
    if calls == [] then stack == base
    else
      var n := |calls| - 1;
      var c, o := calls[n], frames[n];
      && |stack| == |o.stack| + |c.pushed| + c.onStack / 8
      && stack[..|o.stack| + |c.pushed|] == o.stack + Values(c.pushed, o.regs)
      && Shape(calls[..n], frames[..n], o.stack, base)
  }

  ghost predicate Sound(busy: Busy, p: Code, base: seq<Word>, a: Point)
  {
    a.pc <= |p| && Shape(GenAt(busy, p, a.pc).calls, a.frames, a.cpu.stack, base)
  }

  lemma {:induction false} ShapeDepth(calls: seq<CallState>, frames: seq<Cpu>, stack: seq<Word>, base: seq<Word>)
    requires Shape(calls, frames, stack, base)
    requires forall i :: 0 <= i < |calls| ==> calls[i].onStack % 8 == 0
    ensures 8 * |stack| == 8 * |base| + Total(calls)
  {
    if calls != [] {
      var n := |calls| - 1;
      ShapeDepth(calls[..n], frames[..n], frames[n].stack, base);
      assert calls[n].onStack % 8 == 0;
    }
  }

  /** The stack and the registers after the call's instructions: back to what they were when it was
      opened, except that registers that were not saved keep what they held after the call itself, the
      result among them. */
  lemma CallRestores(g: Gen, frames: seq<Cpu>, base: seq<Word>, s: Cpu, s': Cpu) returns (called: Cpu)
    requires g.calls != [] && Accounted(g) && Shape(g.calls, frames, s.stack, base)
    requires RunText(CallText(g), s, s')
    ensures frames != [] && s'.stack == frames[|frames| - 1].stack
    ensures forall r :: r in TopCall(g).pushed ==> s'.regs(r) == frames[|frames| - 1].regs(r)
    ensures RunText(UpToCall(CallPad(g)), s, called)
    ensures forall r :: r !in TopCall(g).pushed ==> s'.regs(r) == called.regs(r)
  {
    hide Shape, RunText, Accounted, CallPad, Values;
    TopShape(g.calls, frames, s.stack, base);
    WordPad(g);
    OnStackWords(g);
    var c, o, pad := TopCall(g), frames[|frames| - 1], CallPad(g);
    var s1, s3;
    s1, called, s3 := CallPieces(c, pad, s, s');
    Dropped(s.stack, s1.stack, s3.stack, |o.stack| + |c.pushed|, c.onStack, pad);
    PopsRun(c.pushed, o.regs, o.stack, s3, s');
  }

  /** The padding and the call itself. */
  function UpToCall(pad: nat): seq<Inst>
  {
    (if pad == 0 then [] else [Push(R15)]) + [CallInst]
  }

  /** The processor after the padding, after the call, and before the registers are restored. */
  lemma CallPieces(c: CallState, pad: nat, s: Cpu, s': Cpu) returns (s1: Cpu, s2: Cpu, s3: Cpu)
    requires pad in {0, 8} && c.onStack % 8 == 0
    requires RunText((if pad == 0 then [] else [Push(R15)]) + [CallInst]
                     + (if c.onStack + pad != 0 then [AddRsp(c.onStack + pad)] else []) + Pops(c.pushed), s, s')
    ensures |s1.stack| == |s.stack| + pad / 8 && s1.stack[..|s.stack|] == s.stack
    ensures (c.onStack + pad) / 8 <= |s1.stack| && s3.stack == s1.stack[..|s1.stack| - (c.onStack + pad) / 8]
    ensures RunText(UpToCall(pad), s, s2) && s3.regs == s2.regs && RunText(Pops(c.pushed), s3, s')
  {
    hide RunText, StepInst;
    var front := if pad == 0 then [] else [Push(R15)];
    var drop := if c.onStack + pad != 0 then [AddRsp(c.onStack + pad)] else [];
    s3 := SplitText(front + [CallInst] + drop, Pops(c.pushed), s, s');
    s2 := SplitText(front + [CallInst], drop, s, s3);
    s1 := SplitText(front, [CallInst], s, s2);
    PadRun(pad, s, s1);
    CallRun(s1, s2);
    DropRun(c.onStack + pad, s2, s3);
  }

  lemma TopShape(calls: seq<CallState>, frames: seq<Cpu>, stack: seq<Word>, base: seq<Word>)
    requires Shape(calls, frames, stack, base) && calls != []
    ensures var n := |calls| - 1;
            && |frames| == n + 1 && |stack| == |frames[n].stack| + |calls[n].pushed| + calls[n].onStack / 8
            && stack[..|frames[n].stack| + |calls[n].pushed|] == frames[n].stack +
                Values(calls[n].pushed, frames[n].regs)
            && Shape(calls[..n], frames[..n], frames[n].stack, base)
  {
  }

  lemma OnStackWords(g: Gen)
    requires g.calls != [] && Accounted(g)
    ensures TopCall(g).onStack % 8 == 0
  {
    assert g.calls[|g.calls| - 1].onStack % 8 == 0;
  }

  lemma Dropped(stack: seq<Word>, padded: seq<Word>, after: seq<Word>, keep: nat, args: nat, pad: nat)
    requires args % 8 == 0 && pad in {0, 8} && |stack| == keep + args / 8
    requires |padded| == |stack| + pad / 8 && padded[..|stack|] == stack
    requires (args + pad) / 8 <= |padded| && after == padded[..|padded| - (args + pad) / 8]
    ensures after == stack[..keep]
  {
    assert padded[..keep] == padded[..|stack|][..keep];
  }

  lemma CallRun(s: Cpu, s': Cpu)
    requires RunText([CallInst], s, s')
    ensures s'.stack == s.stack
  {
    OneInst(CallInst, s, s');
  }

  lemma OneInst(i: Inst, s: Cpu, s': Cpu)
    requires RunText([i], s, s')
    ensures StepInst(i, s, s')
  {
    hide StepInst;
    assert [i][..0] == [];
    var mid :| RunText([], s, mid) && StepInst(i, mid, s');
  }

  lemma PadRun(pad: nat, s: Cpu, s': Cpu)
    requires pad in {0, 8} && RunText(if pad == 0 then [] else [Push(R15)], s, s')
    ensures |s'.stack| == |s.stack| + pad / 8 && s'.stack[..|s.stack|] == s.stack
  {
    if pad != 0 {
      OneInst(Push(R15), s, s');
    }
  }

  lemma DropRun(bytes: nat, s: Cpu, s': Cpu)
    requires bytes % 8 == 0 && RunText(if bytes != 0 then [AddRsp(bytes)] else [], s, s')
    ensures bytes / 8 <= |s.stack| && s'.stack == s.stack[..|s.stack| - bytes / 8] && s'.regs == s.regs
  {
    if bytes != 0 {
      OneInst(AddRsp(bytes), s, s');
    }
  }

  lemma OpenShape(g: Gen, regs: seq<Reg>, frames: seq<Cpu>, base: seq<Word>, s: Cpu)
    requires Shape(g.calls, frames, s.stack, base)
    ensures Shape(OpenCall(g, regs).calls, frames + [s], s.stack + Values(regs, s.regs), base)
  {
    var calls := OpenCall(g, regs).calls;
    assert calls[..|g.calls|] == g.calls && (frames + [s])[..|g.calls|] == frames;
    var stack := s.stack + Values(regs, s.regs);
    assert stack[..|s.stack| + |regs|] == stack;
  }

  lemma PassShape(g: Gen, frames: seq<Cpu>, stack: seq<Word>, stack': seq<Word>, base: seq<Word>)
    requires g.calls != [] && Accounted(g) && Shape(g.calls, frames, stack, base)
    requires if TopCall(g).ints < ARG_REGISTERS then stack' == stack
             else |stack'| == |stack| + 1 && stack'[..|stack|] == stack
    ensures Shape(PassArg(g).calls, frames, stack', base)
  {
    var n := |g.calls| - 1;
    var c, o := g.calls[n], frames[n];
    assert PassArg(g).calls[..n] == g.calls[..n];
    assert c.onStack % 8 == 0;
    var m := |o.stack| + |c.pushed|;
    assert stack'[..m] == stack'[..|stack|][..m];
  }

  /** What one step promises: the saved registers and the whole stack are as they were at the opening. */
  ghost predicate GivesBack(busy: Busy, p: Code, a: Point, b: Point)
    requires a.pc < |p|
  {
    (p[a.pc].Quad? && p[a.pc].op in {PCall, FCall}) ==>
      var g := GenAt(busy, p, a.pc);
      && g.calls != [] && a.frames != []
      && var o := a.frames[|a.frames| - 1];
         && b.cpu.stack == o.stack
         && forall r :: r in TopCall(g).pushed ==> b.cpu.regs(r) == o.regs(r)
  }

  ghost predicate RunStep(busy: Busy, p: Code, a: Point, b: Point)
    requires a.pc < |p| && Accounted(GenAt(busy, p, a.pc)) && InOrder(busy, p, a.pc)
  {
    Leads(p, a.pc, b.pc) && Acts(busy(a.pc), p[a.pc], GenAt(busy, p, a.pc), a, b)
  }

  lemma StepSound(busy: Busy, p: Code, base: seq<Word>, a: Point, b: Point)
    requires a.pc < |p| && Accounted(GenAt(busy, p, a.pc)) && InOrder(busy, p, a.pc)
    requires RunStep(busy, p, a, b) && Sound(busy, p, base, a)
    ensures GivesBack(busy, p, a, b) && Sound(busy, p, base, b)
  {
    hide Shape, Accounted, GenAt, RunText, CallText, StepInst, Leads;
    var q, g := p[a.pc], GenAt(busy, p, a.pc);
    RecordNext(busy, p, a.pc, b.pc);
    if q.Quad? && q.op == HintCall {
      OpenQuad(g, busy(a.pc), a, b, base);
    } else if q.Quad? && q.op == Arg {
      PassQuad(g, a, b, base);
    } else if q.Quad? && (q.op == PCall || q.op == FCall) {
      CloseQuad(g, a, b, base);
    }
  }

  lemma OpenQuad(g: Gen, regs: seq<Reg>, a: Point, b: Point, base: seq<Word>)
    requires Shape(g.calls, a.frames, a.cpu.stack, base)
    requires RunText(Pushes(regs), a.cpu, b.cpu) && b.frames == a.frames + [a.cpu]
    ensures Shape(OpenCall(g, regs).calls, b.frames, b.cpu.stack, base)
  {
    hide Shape, RunText;
    PushesRun(regs, a.cpu, b.cpu);
    OpenShape(g, regs, a.frames, base, a.cpu);
  }

  lemma CloseQuad(g: Gen, a: Point, b: Point, base: seq<Word>)
    requires g.calls != [] && Accounted(g) && Shape(g.calls, a.frames, a.cpu.stack, base)
    requires RunText(CallText(g), a.cpu, b.cpu) && a.frames != [] && b.frames == a.frames[..|a.frames| - 1]
    ensures Shape(CloseCall(g).calls, b.frames, b.cpu.stack, base)
    ensures var o := a.frames[|a.frames| - 1];
            b.cpu.stack == o.stack && forall r :: r in TopCall(g).pushed ==> b.cpu.regs(r) == o.regs(r)
  {
    hide Shape, RunText, CallText, Accounted;
    var called := CallRestores(g, a.frames, base, a.cpu, b.cpu);
    TopShape(g.calls, a.frames, a.cpu.stack, base);
  }

  lemma PassQuad(g: Gen, a: Point, b: Point, base: seq<Word>)
    requires g.calls != [] && Accounted(g) && Shape(g.calls, a.frames, a.cpu.stack, base) && b.frames == a.frames
    requires if TopCall(g).ints < ARG_REGISTERS then b.cpu.stack == a.cpu.stack else StepInst(PushWord, a.cpu, b.cpu)
    ensures Shape(PassArg(g).calls, b.frames, b.cpu.stack, base)
  {
    hide Shape, Accounted;
    PassShape(g, a.frames, a.cpu.stack, b.cpu.stack, base);
  }

  /** The record at the next quad of a run is the one the generator has after this quad. */
  lemma RecordNext(busy: Busy, p: Code, i: nat, i': nat)
    requires i < |p| && InOrder(busy, p, i) && Leads(p, i, i')
    ensures i' <= |p| && GenAt(busy, p, i') == Effect(busy(i), p[i], GenAt(busy, p, i))
  {
  }

  /** A run from the first quad, with any registers and any stack. */
  ghost predicate IsRun(busy: Busy, p: Code, base: seq<Word>, run: seq<Point>)
    requires JumpsLevel(busy, p, 0, |p|) && forall i: nat :: i <= |p| ==> Accounted(GenAt(busy, p, i))
  {
    && run != [] && run[0].pc == 0 && run[0].cpu.stack == base && run[0].frames == []
    && forall k :: 0 <= k < |run| - 1 ==> run[k].pc < |p| && RunStep(busy, p, run[k], run[k + 1])
  }

  lemma {:induction false} RunSound(busy: Busy, p: Code, base: seq<Word>, run: seq<Point>, k: nat)
    requires JumpsLevel(busy, p, 0, |p|) && forall i: nat :: i <= |p| ==> Accounted(GenAt(busy, p, i))
    requires IsRun(busy, p, base, run) && k < |run|
    ensures Sound(busy, p, base, run[k])
    ensures k + 1 < |run| ==> GivesBack(busy, p, run[k], run[k + 1])
  {
    hide Accounted, RunStep, GivesBack;
    if k > 0 {
      RunSound(busy, p, base, run, k - 1);
      assert run[k - 1 + 1] == run[k];
      StepSound(busy, p, base, run[k - 1], run[k]);
    }
    if k + 1 < |run| {
      StepSound(busy, p, base, run[k], run[k + 1]);
    }
  }

  /** At a call quad, with the stack `depth` words deep, the stack pointer is a multiple of 16 away from
      where it was exactly when the arguments beyond the sixth are even in number. */
  ghost predicate AlignedAtCall(q: Quad, depth: int, g: Gen)
  {
    IsCall(q) ==>
      exists n: nat :: q.arg2 == AConst(ToWord(n)) && g.calls != [] && g.alloc >= 0
        && ((8 * depth + CallPad(g)) % 16 == 0 <==> Beyond(n) % 2 == 0)
  }

  function Beyond(n: nat): nat
  {
    if n <= ARG_REGISTERS then 0 else n - ARG_REGISTERS
  }

  lemma CallAligned(q: Quad, g: Gen)
    requires Accounted(g) && (IsCall(q) ==> g.calls != [] && q.arg2 == AConst(ToWord(Passed(TopCall(g)))))
    ensures g.alloc >= 0 && g.alloc % 8 == 0 && AlignedAtCall(q, g.alloc / 8, g)
  {
    if IsCall(q) {
      WordPad(g);
      AlignedIffEven(g);
      var c := g.calls[|g.calls| - 1];
      assert Beyond(Passed(c)) == c.onStack / 8;
    } else {
      TotalWords(g.calls);
    }
  }

  lemma InOrderAt(busy: Busy, p: Code, k: nat)
    requires JumpsLevel(busy, p, 0, |p|) && k < |p|
    ensures var g := GenAt(busy, p, k);
            IsCall(p[k]) ==> g.calls != [] && p[k].arg2 == AConst(ToWord(Passed(TopCall(g))))
  {
    assert InOrder(busy, p, k);
  }

  lemma DepthRecorded(g: Gen, frames: seq<Cpu>, stack: seq<Word>, base: seq<Word>)
    requires Accounted(g) && Shape(g.calls, frames, stack, base)
    ensures g.alloc >= 0 && 8 * |stack| == 8 * |base| + g.alloc
    ensures g.calls == [] ==> stack == base
  {
    ShapeDepth(g.calls, frames, stack, base);
  }

  /** A run of a procedure's code from its first quad, with any registers and any stack. */
  ghost predicate RunOf(busy: Busy, body: Stmt, l: nat, base: seq<Word>, run: seq<Point>)
    requires WellFormed(body, false)
  {
    ProcedureLevel(busy, body, l);
    IsRun(busy, ProcCode(body, l), base, run)
  }

  /** On every run of a procedure's code, at every quad: the depth of the stack is the number of bytes the
      generator has recorded; a call leaves the stack and the saved registers as they were when it was
      opened; and when the code has been run to its end the stack is what it was at the start. */
  lemma CallsBalance(busy: Busy, body: Stmt, l: nat, base: seq<Word>, run: seq<Point>, k: nat)
    requires WellFormed(body, false) && RunOf(busy, body, l, base, run) && k < |run|
    ensures var p := ProcCode(body, l);
            && run[k].pc <= |p|
            && 8 * |run[k].cpu.stack| == 8 * |base| + GenAt(busy, p, run[k].pc).alloc
            && GenAt(busy, p, run[k].pc).alloc >= 0
            && (k + 1 < |run| ==> run[k].pc < |p| && GivesBack(busy, p, run[k], run[k + 1]))
            && (run[k].pc == |p| ==> run[k].cpu.stack == base)
            && (run[k].pc < |p| ==> AlignedAtCall(p[run[k].pc], |run[k].cpu.stack| - |base|, GenAt(busy, p, run[k].pc)))
  {
    hide ProcCode, GivesBack, JumpsLevel, GenAt, InOrder, AlignedAtCall, Accounted, RunStep;
    var p := ProcCode(body, l);
    ProcedureLevel(busy, body, l);
    RunSound(busy, p, base, run, k);
    var g := GenAt(busy, p, run[k].pc);
    DepthRecorded(g, run[k].frames, run[k].cpu.stack, base);
    if run[k].pc < |p| {
      InOrderAt(busy, p, run[k].pc);
      CallAligned(p[run[k].pc], g);
    }
  }
}
