/** Arguments beyond the sixth: where the caller leaves them and where the callee looks for them. */
module StackArgs {
  import opened Words
  import opened RegAlloc
  import opened Calls

  /** What stands on the stack when the callee has set its frame pointer: what was there before, the arguments in the
      order in which they were pushed, the padding, and the return address and the caller's frame pointer. */
  function CalleeStack(before: seq<Word>, args: seq<Word>, pad: seq<Word>, back: seq<Word>): seq<Word>
  {
    before + args + pad + back
  }

  /** The word at an offset from the frame pointer, which points at the last word. */
  function WordAt(stack: seq<Word>, offset: int): (w: int)
    ensures -1 <= w
  {
    if offset % 8 == 0 && 0 <= offset / 8 < |stack| then stack[|stack| - 1 - offset / 8] else -1
  }

  /** Where a callee with n parameters looks for parameter k. */
  function ParamOffset(n: nat, k: nat): int
    requires k >= 6
  {
    var S := Placed(Alloc(map[], map[], 0), "", k, 0, StackPad(8 * n));
    if "" in S.locs && S.locs[""].InCaller? then S.locs[""].mem else -1
  }

  lemma OffsetIs(n: nat, k: nat)
    requires 6 <= k < n && k <= 4000
    ensures ParamOffset(n, k) == 16 + (if n % 2 == 0 then 0 else 8) + 8 * (k - 6)
  {
    hide StackPad, Placed, Offset;
    var pad := StackPad(8 * n);
    ArgumentPlaces(Alloc(map[], map[], 0), "", k, 0, pad);
    assert pad == if n % 2 == 0 then 0 else 8 by { WordsPad(n); }
    SmallOffset(16 + pad + 8 * (k - 6));
  }

  lemma WordsPad(n: nat)
    ensures StackPad(8 * n) == if n % 2 == 0 then 0 else 8
  {
    hide StackPad;
    PadOfWords(8 * n);
    assert 8 * n % 16 == 8 * (n % 2);
  }

  lemma SmallOffset(m: nat)
    requires m < 0x8000
    ensures Offset(m) == m
  {
  }

  /** The callee finds every argument, whatever is on the stack. */
  ghost predicate AllFound(n: nat, pad: nat)
    requires n >= 6
  {
    forall before, args, fill, back, k :: 6 <= k < n && Laid(n, pad, args, fill, back) ==>
                                            WordAt(CalleeStack(before, args, fill, back), ParamOffset(n, k)) == args[k - 6]
  }

  predicate Laid(n: nat, pad: nat, args: seq<Word>, fill: seq<Word>, back: seq<Word>)
  {
    |args| == n - 6 && 8 * |fill| == pad && |back| == 2
  }

  /** The place of the word that is found, counted from the first argument. */
  function Place(n: nat, pad: nat, k: nat): int
  {
    n - 7 + pad / 8 - n % 2 - (k - 6)
  }

  lemma FoundAt(n: nat, pad: nat, before: seq<Word>, args: seq<Word>, fill: seq<Word>, back: seq<Word>, k: nat)
    requires 6 <= k < n && k <= 4000 && Laid(n, pad, args, fill, back)
    ensures var i, stack := |before| + Place(n, pad, k), CalleeStack(before, args, fill, back);
            WordAt(stack, ParamOffset(n, k)) == if 0 <= i < |stack| then stack[i] else -1
  {
    OffsetIs(n, k);
  }

  /** Words that tell the first two arguments apart from each other, from the others and from zero. */
  function Marks(n: nat): seq<Word>
  {
    seq(n, j requires 0 <= j < n => if j == 0 then 1 else if j == 1 then 2 else 3)
  }

  lemma MissedOne(n: nat, pad: nat, k: nat)
    requires 6 <= k < n && k <= 7 && pad in {0, 8} && Place(n, pad, k) != k - 6
    ensures !AllFound(n, pad)
  {
    var args, fill: seq<Word>, back: seq<Word> := Marks(n - 6), if pad == 0 then [] else [0], [0, 0];
    assert Laid(n, pad, args, fill, back);
    FoundAt(n, pad, [], args, fill, back, k);
    assert WordAt(CalleeStack([], args, fill, back), ParamOffset(n, k)) != args[k - 6];
  }

  /** A call passes its arguments beyond the sixth to where the callee looks for them if and only if there is one of
      them and the depth on record before padding is a multiple of 16: with two or more they are in the wrong order. */
  lemma StackArgsExact(g: Gen)
    requires g.calls != [] && Accounted(g) && Passed(TopCall(g)) > 6
    ensures AllFound(Passed(TopCall(g)), CallPad(g)) <==> Passed(TopCall(g)) == 7 && g.alloc % 16 == 0
  {
    hide Accounted, AllFound, StackPad, CallPad;
    WordPad(g);
    var n, pad := Passed(TopCall(g)), CallPad(g);
    PadExact(g);
    if n == 7 && pad == 8 {
      SeventhFound();
    } else if n == 7 {
      MissedOne(n, pad, 6);
    } else if Place(n, pad, 6) != 0 {
      MissedOne(n, pad, 6);
    } else {
      MissedOne(n, pad, 7);
    }
  }

  lemma PadExact(g: Gen)
    requires g.calls != [] && Accounted(g) && Passed(TopCall(g)) > 6
    ensures CallPad(g) in {0, 8}
    ensures Passed(TopCall(g)) == 7 ==> (CallPad(g) == 8 <==> g.alloc % 16 == 0)
  {
    WordPad(g);
    PadOfWords(g.alloc);
    PadOfWords(TopCall(g).onStack);
    assert StackPad(0) == 0 && StackPad(8) == 8 && StackPad(16) == 0;
  }

  lemma SeventhFound()
    ensures AllFound(7, 8)
  {
    forall before, args, fill, back, k | 6 <= k < 7 && Laid(7, 8, args, fill, back)
      ensures WordAt(CalleeStack(before, args, fill, back), ParamOffset(7, k)) == args[k - 6]
    {
      FoundAt(7, 8, before, args, fill, back, k);
    }
  }
}
