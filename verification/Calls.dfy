/** Stack accounting around calls: what is pushed before a call, what is popped after it, and alignment. */
module Calls {
  import opened Quads
  import opened RegAlloc

  /** A call that has been opened: the registers saved for it, the bytes of its stack arguments and
      padding, and how many arguments went to registers. */
  datatype CallState = CallState(pushed: seq<Reg>, onStack: nat, ints: nat)

  /** The generator's record: bytes pushed so far, and the calls that are open, innermost last. */
  datatype Gen = Gen(alloc: int, calls: seq<CallState>)

  const ARG_REGISTERS: nat := 6

  datatype Inst = Push(reg: Reg) | Pop(reg: Reg) | PushWord | AddRsp(bytes: nat) | AndRsp | CallInst

  /** The bytes that bring a size to a multiple of 16. */
  function StackPad(bytes: nat): (pad: nat)
    ensures pad < 16 && (bytes + pad) % 16 == 0
  {
    (16 - bytes % 16) % 16
  }

  function Bytes(c: CallState): nat
  {
    8 * |c.pushed| + c.onStack
  }

  function Total(calls: seq<CallState>): nat
  {
    if calls == [] then 0 else Total(calls[..|calls| - 1]) + Bytes(calls[|calls| - 1])
  }

  /** How many arguments have been passed. */
  function Passed(c: CallState): nat
  {
    c.ints + c.onStack / 8
  }

  /** The bytes recorded are those of the open calls, in whole words, and the stack takes arguments only
      when the registers are used up. */
  ghost predicate Accounted(g: Gen)
  {
    && g.alloc == Total(g.calls)
    && forall i :: 0 <= i < |g.calls| ==>
         g.calls[i].onStack % 8 == 0 && g.calls[i].ints <= ARG_REGISTERS
         && (g.calls[i].onStack > 0 ==> g.calls[i].ints == ARG_REGISTERS)
  }

  // ----- the three quads that concern calls -----

  function OpenCall(g: Gen, regs: seq<Reg>): Gen
  {
    Gen(g.alloc + 8 * |regs|, g.calls + [CallState(regs, 0, 0)])
  }

  function TopCall(g: Gen): CallState
    requires g.calls != []
  {
    g.calls[|g.calls| - 1]
  }

  function SetTop(g: Gen, c: CallState): seq<CallState>
    requires g.calls != []
  {
    g.calls[|g.calls| - 1 := c]
  }

  /** The first six arguments go to registers, the others are pushed. */
  function PassArg(g: Gen): Gen
  {
    if g.calls == [] then g
    else
      var c := TopCall(g);
      if c.ints < ARG_REGISTERS then g.(calls := SetTop(g, c.(ints := c.ints + 1)))
      else Gen(g.alloc + 8, SetTop(g, c.(onStack := c.onStack + 8)))
  }

  /** The padding pushed before the call instruction. */
  function CallPad(g: Gen): nat
    requires g.calls != [] && g.alloc >= 0
  {
    StackPad(StackPad(g.alloc) + StackPad(TopCall(g).onStack))
  }

  /** After the call everything pushed for it is gone. */
  function CloseCall(g: Gen): Gen
  {
    if g.calls == [] then g
    else Gen(g.alloc - Bytes(TopCall(g)), g.calls[..|g.calls| - 1])
  }

  // ----- the generator -----

  class CallGenerator {
    var stackAlloc: int
    var callStates: seq<CallState>
    var text: seq<Inst>

    constructor ()
      ensures State() == Gen(0, []) && text == []
    {
      stackAlloc, callStates, text := 0, [], [];
    }

    function State(): Gen
      reads this
    {
      Gen(stackAlloc, callStates)
    }

    method GenPush(r: Reg)
      modifies this`stackAlloc, this`text
      ensures stackAlloc == old(stackAlloc) + 8 && text == old(text) + [Push(r)]
    {
      text := text + [Push(r)];
      stackAlloc := stackAlloc + 8;
    }

    method GenPop(r: Reg)
      requires stackAlloc >= 8
      modifies this`stackAlloc, this`text
      ensures stackAlloc == old(stackAlloc) - 8 && stackAlloc >= 0 && text == old(text) + [Pop(r)]
    {
      text := text + [Pop(r)];
      stackAlloc := stackAlloc - 8;
    }

    method DeallocStack(bytes: nat)
      requires stackAlloc >= bytes
      modifies this`stackAlloc, this`text
      ensures stackAlloc == old(stackAlloc) - bytes && stackAlloc >= 0
      ensures text == old(text) + if bytes != 0 then [AddRsp(bytes)] else []
    {
      if bytes != 0 {
        text := text + [AddRsp(bytes)];
        stackAlloc := stackAlloc - bytes;
      }
    }

    /** Pads by a push when a word is missing; the other way is not taken while everything is in words. */
    method AlignStack(bytes: nat) returns (pad: nat)
      requires stackAlloc >= 0
      modifies this`stackAlloc, this`text
      ensures pad == StackPad(bytes)
      ensures pad == 0 ==> stackAlloc == old(stackAlloc) && text == old(text)
      ensures pad == 8 ==> stackAlloc == old(stackAlloc) + 8 && text == old(text) + [Push(R15)]
    {
      pad := StackPad(bytes);
      if pad != 0 {
        if pad == 8 {
          GenPush(R15);
        } else {
          text := text + [AndRsp];
          stackAlloc := stackAlloc + StackPad(stackAlloc);
        }
      }
    }

    /** Saves the registers in use, in order. */
    method OpDeclCall(regs: seq<Reg>)
      modifies this
      ensures State() == OpenCall(old(State()), regs)
      ensures text == old(text) + Pushes(regs)
    {
      assert regs[..0] == [];
      for i := 0 to |regs|
        invariant stackAlloc == old(stackAlloc) + 8 * i && callStates == old(callStates)
        invariant text == old(text) + Pushes(regs[..i])
      {
        assert regs[..i + 1][..i] == regs[..i];
        GenPush(regs[i]);
      }
      assert regs[..|regs|] == regs;
      callStates := callStates + [CallState(regs, 0, 0)];
    }

    method OpArg()
      requires callStates != []
      modifies this
      ensures State() == PassArg(old(State()))
      ensures text == old(text) + if TopCall(old(State())).ints < ARG_REGISTERS then [] else [PushWord]
    {
      var n := |callStates| - 1;
      var c := callStates[n];
      if c.ints < ARG_REGISTERS {
        callStates := callStates[n := c.(ints := c.ints + 1)];
      } else {
        callStates := callStates[n := c.(onStack := c.onStack + 8)];
        text := text + [PushWord];
        stackAlloc := stackAlloc + 8;
      }
    }

    /** Pads, calls, drops the arguments and the padding, and restores the registers in reverse order. */
    method OpCall()
      requires callStates != [] && Accounted(State())
      modifies this
      ensures State() == CloseCall(old(State())) && Accounted(State()) && stackAlloc >= 0
      ensures text == old(text) + CallText(old(State()))
    {
      hide Accounted, StackPad, Bytes, Total;
      var n := |callStates| - 1;
      var c := callStates[n];
      WordPad(State());
      TopBytes(State());
      StepsAccounted(State(), []);
      ghost var front := if CallPad(State()) == 0 then [] else [Push(R15)];
      ghost var drop := if c.onStack + CallPad(State()) != 0 then [AddRsp(c.onStack + CallPad(State()))] else [];
      JoinCall(text, front, drop, Pops(c.pushed));
      var pad := AlignStack(StackPad(stackAlloc) + StackPad(c.onStack));
      text := text + [CallInst];
      DeallocStack(c.onStack + pad);
      CallerRestore(c.pushed);
      callStates := callStates[..n];
    }

    /** Restores saved registers, the last one first. */
    method CallerRestore(pushed: seq<Reg>)
      requires stackAlloc >= 8 * |pushed|
      modifies this`stackAlloc, this`text
      ensures stackAlloc == old(stackAlloc) - 8 * |pushed| && text == old(text) + Pops(pushed)
    {
      var i := |pushed|;
      assert pushed[i..] == [];
      while i > 0
        invariant 0 <= i <= |pushed| && stackAlloc == old(stackAlloc) - 8 * (|pushed| - i)
        invariant text == old(text) + Pops(pushed[i..])
      {
        i := i - 1;
        assert pushed[i..][1..] == pushed[i + 1..];
        JoinThree(old(text), Pops(pushed[i + 1..]), [Pop(pushed[i])]);
        GenPop(pushed[i]);
      }
      assert pushed[0..] == pushed;
    }
  }

  lemma TopBytes(g: Gen)
    requires g.calls != [] && Accounted(g)
    ensures Bytes(TopCall(g)) == 8 * |TopCall(g).pushed| + TopCall(g).onStack
    ensures CloseCall(g).alloc >= 0
  {
    WordPad(g);
  }

  lemma JoinCall(text: seq<Inst>, front: seq<Inst>, drop: seq<Inst>, pops: seq<Inst>)
    ensures text + front + [CallInst] + drop + pops == text + (front + [CallInst] + drop + pops)
    ensures text + [] == text
  {
  }

  function Pushes(regs: seq<Reg>): seq<Inst>
  {
    if regs == [] then [] else Pushes(regs[..|regs| - 1]) + [Push(regs[|regs| - 1])]
  }

  /** Pops in reverse order. */
  function Pops(regs: seq<Reg>): seq<Inst>
  {
    if regs == [] then [] else Pops(regs[1..]) + [Pop(regs[0])]
  }

  function CallText(g: Gen): seq<Inst>
    requires g.calls != [] && Accounted(g)
  {
    var c, pad := TopCall(g), CallPad(g);
    (if pad == 0 then [] else [Push(R15)]) + [CallInst]
    + (if c.onStack + pad != 0 then [AddRsp(c.onStack + pad)] else []) + Pops(c.pushed)
  }

  /** In words, padding is nothing or one word. */
  lemma WordPad(g: Gen)
    requires g.calls != [] && Accounted(g)
    ensures g.alloc % 8 == 0 && CallPad(g) in {0, 8} && g.alloc >= Bytes(TopCall(g))
  {
    TotalWords(g.calls);
    PadOfWords(g.alloc);
    PadOfWords(TopCall(g).onStack);
    assert StackPad(0) == 0 && StackPad(8) == 8 && StackPad(16) == 0;
  }

  lemma PadOfWords(bytes: nat)
    requires bytes % 8 == 0
    ensures StackPad(bytes) == if bytes % 16 == 0 then 0 else 8
  {
    assert bytes % 16 == 0 || bytes % 16 == 8;
  }

  lemma {:induction false} TotalWords(calls: seq<CallState>)
    requires forall i :: 0 <= i < |calls| ==> calls[i].onStack % 8 == 0
    ensures Total(calls) % 8 == 0
  {
    if calls != [] {
      TotalWords(calls[..|calls| - 1]);
    }
  }

  /** At the call instruction the depth is a multiple of 16 exactly when the number of arguments passed on
      the stack is even. */
  lemma AlignedIffEven(g: Gen)
    requires g.calls != [] && Accounted(g)
    ensures (g.alloc + CallPad(g)) % 16 == 0 <==> (TopCall(g).onStack / 8) % 2 == 0
  {
    WordPad(g);
    PadOfWords(g.alloc);
    PadOfWords(TopCall(g).onStack);
    assert StackPad(0) == 0 && StackPad(8) == 8 && StackPad(16) == 0;
  }

  /** Opening, passing and closing keep the books. */
  lemma StepsAccounted(g: Gen, regs: seq<Reg>)
    requires Accounted(g)
    ensures Accounted(OpenCall(g, regs)) && Accounted(PassArg(g)) && Accounted(CloseCall(g))
  {
    assert OpenCall(g, regs).calls[..|g.calls|] == g.calls;
    if g.calls != [] {
      var n := |g.calls| - 1;
      assert PassArg(g).calls[..n] == g.calls[..n];
    }
  }
}
