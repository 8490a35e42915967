/** Which temporaries are still to be read, and where emitted code mentions them. */
module Liveness {
  import opened Words
  import opened Ast
  import opened Quads
  import opened Emit
  import opened ExprSim
  import opened StmtSim
  import opened Labels
  import opened Procedure

  // ----- reading, writing and flow -----

  predicate Mentions(q: Quad, a: Operand)
  {
    q.Quad? && (q.res == a || q.arg1 == a || q.arg2 == a)
  }

  /** Running q needs the value of t; a store through a pointer reads its result operand. */
  predicate Reads(q: Quad, t: nat)
  {
    q.Quad? && (q.arg1 == ATemp(t) || q.arg2 == ATemp(t) || (q.op == DerefCopy && q.res == ATemp(t)))
  }

  /** Running q gives t a new value. The hint before a call names the result without setting it. */
  predicate Writes(q: Quad, t: nat)
  {
    && q.Quad? && q.res == ATemp(t)
    && (q.op.Alu? || q.op.Un? || q.op.OpCast? || q.op in {Copy, FCall, OpRef, OpDeref})
  }

  predicate FallsThrough(q: Quad)
  {
    q.Quad? ==> q.op !in {UJump, RetP, RetF}
  }

  function Target(p: Code, q: Quad): Option<nat>
  {
    if q.Quad? && (q.op == UJump || IsCondJump(q.op)) && q.res.ALabel? then FindLabel(p, q.res.l, 0) else None
  }

  /** Control may pass from i to i'. */
  predicate Leads(p: Code, i: nat, i': nat)
  {
    i < |p| && ((FallsThrough(p[i]) && i' == i + 1) || Target(p, p[i]) == Some(i'))
  }

  /** Some path of fewer than n steps from pc reads t before writing it. */
  predicate Live(p: Code, pc: nat, t: nat, n: nat)
    decreases n, 0
  {
    && n > 0 && pc < |p|
    && (Reads(p[pc], t) || (!Writes(p[pc], t) && LiveNext(p, pc, t, n - 1)))
  }

  predicate LiveNext(p: Code, pc: nat, t: nat, n: nat)
    requires pc < |p|
    decreases n, 1
  {
    || (FallsThrough(p[pc]) && Live(p, pc + 1, t, n))
    || (Target(p, p[pc]).Some? && Live(p, Target(p, p[pc]).value, t, n))
  }

  ghost predicate Ment(p: Code, t: nat, i: nat, j: nat)
  {
    exists k :: i <= k < j <= |p| && Mentions(p[k], ATemp(t))
  }

  lemma MentWider(p: Code, t: nat, i: nat, j: nat, i': nat, j': nat)
    requires Ment(p, t, i, j) && i' <= i && j <= j' <= |p|
    ensures Ment(p, t, i', j')
  {
  }

  // ----- stretches of code -----

  ghost predicate LeavesLive(p: Code, t: nat, n: nat, exits: set<nat>)
  {
    exists y, m: nat :: y in exits && m < n && Live(p, y, t, m)
  }

  /** What can be said of t if it is live at pc inside the stretch from i to j: it is mentioned on both
      sides of pc, or it is one of the stretch's inputs, or it is still live where the path leaves. */
  ghost predicate Explained(p: Code, i: nat, j: nat, ins: set<nat>, results: set<nat>, exits: set<nat>, pc: nat,
                            t: nat, n: nat)
  {
    || (Ment(p, t, i, pc) && Ment(p, t, pc, j))
    || (t in ins && Ment(p, t, pc, j))
    || ((t in results ==> Ment(p, t, i, pc)) && LeavesLive(p, t, n, exits + {j}))
  }

  /** Every live temporary is explained everywhere in the stretch; the stretch leaves at its end or at
      its exits, and sets its results before it ends. */
  ghost predicate Stretch(p: Code, i: nat, j: nat, ins: set<nat>, results: set<nat>, exits: set<nat>)
  {
    && i <= j <= |p|
    && (forall t :: t in results ==> Ment(p, t, i, j))
    && (forall pc: nat, t: nat, n: nat :: i <= pc < j && Live(p, pc, t, n) ==>
        Explained(p, i, j, ins, results, exits, pc, t, n))
  }

  /** Entering a stretch at x reads nothing that was not live after it, and none of its results. */
  ghost predicate Entry(p: Code, x: nat, k: nat, results: set<nat>, exits: set<nat>)
  {
    forall t: nat, n: nat :: Live(p, x, t, n) ==> t !in results && LeavesLive(p, t, n, exits + {k})
  }

  lemma StartEntry(p: Code, i: nat, j: nat, results: set<nat>, exits: set<nat>)
    requires Stretch(p, i, j, {}, results, exits) && i < j
    ensures Entry(p, i, j, results, exits)
  {
    forall t: nat, n: nat | Live(p, i, t, n)
      ensures t !in results && LeavesLive(p, t, n, exits + {j})
    {
      assert Explained(p, i, j, {}, results, exits, i, t, n);
    }
  }

  /** Where the exits of a first stretch go: outside, to the end, or into the second where that is harmless. */
  ghost predicate ExitsFit(p: Code, j: nat, k: nat, results1: set<nat>, exits1: set<nat>, results2: set<nat>,
                           exits2: set<nat>,
                           results: set<nat>, exits: set<nat>)
  {
    forall x :: x in exits1 ==>
      (x in exits + {k} && results <= results1) || (j <= x < k && Entry(p, x, k, results2, exits2))
  }

  lemma Join(p: Code, i: nat, j: nat, k: nat, ins1: set<nat>, results1: set<nat>, exits1: set<nat>,
             ins2: set<nat>, results2: set<nat>, exits2: set<nat>, ins: set<nat>, results: set<nat>, exits: set<nat>)
    requires Stretch(p, i, j, ins1, results1, exits1) && Stretch(p, j, k, ins2, results2, exits2)
    requires ins1 <= ins && ins2 - results1 <= ins && exits2 <= exits + {k} && results <= results1 + results2
    requires ExitsFit(p, j, k, results1, exits1, results2, exits2, results, exits)
    ensures Stretch(p, i, k, ins, results, exits)
  {
    forall t | t in results
      ensures Ment(p, t, i, k)
    {
    }
    forall pc: nat, t: nat, n: nat | i <= pc < k && Live(p, pc, t, n)
      ensures Explained(p, i, k, ins, results, exits, pc, t, n)
    {
      if pc < j {
        JoinFirst(p, i, j, k, ins1, results1, exits1, ins2, results2, exits2, ins, results, exits, pc, t, n);
      } else {
        JoinSecond(p, i, j, k, ins1, results1, exits1, ins2, results2, exits2, ins, results, exits, pc, t, n);
      }
    }
  }

  lemma JoinFirst(p: Code, i: nat, j: nat, k: nat, ins1: set<nat>, results1: set<nat>, exits1: set<nat>,
                  ins2: set<nat>, results2: set<nat>, exits2: set<nat>, ins: set<nat>, results: set<nat>,
                      exits: set<nat>,
                  pc: nat, t: nat, n: nat)
    requires Stretch(p, i, j, ins1, results1, exits1) && Stretch(p, j, k, ins2, results2, exits2)
    requires ins1 <= ins && ins2 - results1 <= ins && exits2 <= exits + {k} && results <= results1 + results2
    requires ExitsFit(p, j, k, results1, exits1, results2, exits2, results, exits)
    requires i <= pc < j && Live(p, pc, t, n)
    ensures Explained(p, i, k, ins, results, exits, pc, t, n)
  {
    hide Live;
    assert Explained(p, i, j, ins1, results1, exits1, pc, t, n);
    if Ment(p, t, pc, j) && (Ment(p, t, i, pc) || t in ins1) {
      MentWider(p, t, pc, j, pc, k);
    } else {
      var y, m: nat :| y in exits1 + {j} && m < n && Live(p, y, t, m);
      if y in exits1 {
        if j <= y < k && Entry(p, y, k, results2, exits2) {
          var y', m': nat :| y' in exits2 + {k} && m' < m && Live(p, y', t, m');
          assert y' in exits + {k};
        }
      } else if j < k {
        JoinMiddle(p, i, j, k, results1, ins2, results2, exits2, ins, results, exits, pc, t, m, n);
      }
    }
  }

  /** A path that goes on from the first stretch to the start of the second. */
  lemma JoinMiddle(p: Code, i: nat, j: nat, k: nat, results1: set<nat>,
                   ins2: set<nat>, results2: set<nat>, exits2: set<nat>, ins: set<nat>, results: set<nat>,
                       exits: set<nat>,
                   pc: nat, t: nat, m: nat, n: nat)
    requires Stretch(p, j, k, ins2, results2, exits2) && j < k
    requires ins2 - results1 <= ins && exits2 <= exits + {k} && results <= results1 + results2
    requires t in results1 ==> Ment(p, t, i, pc)
    requires i <= pc < j && m < n && Live(p, j, t, m)
    ensures Explained(p, i, k, ins, results, exits, pc, t, n)
  {
    hide Live;
    assert Explained(p, j, k, ins2, results2, exits2, j, t, m);
    if t in ins2 && Ment(p, t, j, k) {
      MentWider(p, t, j, k, pc, k);
    } else {
      var y, m': nat :| y in exits2 + {k} && m' < m && Live(p, y, t, m');
      assert y in exits + {k} && m' < n;
    }
  }

  lemma JoinSecond(p: Code, i: nat, j: nat, k: nat, ins1: set<nat>, results1: set<nat>, exits1: set<nat>,
                   ins2: set<nat>, results2: set<nat>, exits2: set<nat>, ins: set<nat>, results: set<nat>,
                       exits: set<nat>,
                   pc: nat, t: nat, n: nat)
    requires Stretch(p, i, j, ins1, results1, exits1) && Stretch(p, j, k, ins2, results2, exits2)
    requires ins2 - results1 <= ins && exits2 <= exits + {k} && results <= results1 + results2
    requires j <= pc < k && Live(p, pc, t, n)
    ensures Explained(p, i, k, ins, results, exits, pc, t, n)
  {
    hide Live;
    assert Explained(p, j, k, ins2, results2, exits2, pc, t, n);
    if Ment(p, t, j, pc) {
      MentWider(p, t, j, pc, i, pc);
    }
    if t in results1 {
      MentWider(p, t, i, j, i, pc);
    }
    if LeavesLive(p, t, n, exits2 + {k}) {
      var y, m: nat :| y in exits2 + {k} && m < n && Live(p, y, t, m);
      assert y in exits + {k};
    }
  }

  /** One quad. */
  lemma One(p: Code, i: nat, ins: set<nat>, results: set<nat>, exits: set<nat>)
    requires i < |p|
    requires forall t: nat :: Reads(p[i], t) ==> t in ins
    requires forall t :: t in results ==> Writes(p[i], t)
    requires Target(p, p[i]).Some? ==> Target(p, p[i]).value in exits + {i + 1}
    ensures Stretch(p, i, i + 1, ins, results, exits)
  {
    forall t | t in results
      ensures Ment(p, t, i, i + 1)
    {
    }
    forall t: nat, n: nat | Live(p, i, t, n)
      ensures Explained(p, i, i + 1, ins, results, exits, i, t, n)
    {
      if Reads(p[i], t) {
        assert Mentions(p[i], ATemp(t));
      } else {
        assert LiveNext(p, i, t, n - 1);
        var y := if FallsThrough(p[i]) && Live(p, i + 1, t, n - 1) then i + 1 else Target(p, p[i]).value;
        assert y in exits + {i + 1} && Live(p, y, t, n - 1);
      }
    }
  }

  lemma Nothing(p: Code, i: nat)
    requires i <= |p|
    ensures Stretch(p, i, i, {}, {}, {})
  {
  }

  function TempOf(a: Operand): set<nat>
  {
    if a.ATemp? then {a.t} else {}
  }

  /** The code of an expression at pos: only its result is read afterwards. */
  ghost predicate Covers(p: Code, pos: nat, E: Emitted)
  {
    Stretch(p, pos, pos + |E.code|, {}, TempOf(E.res), {})
  }

  /** One more quad, which reads only results of what precedes it. */
  lemma Append(p: Code, pos: nat, c: Code, q: Quad, results1: set<nat>, exits1: set<nat>, results: set<nat>,
               exits: set<nat>)
    requires Within(p, pos, c + [q]) && Stretch(p, pos, pos + |c|, {}, results1, exits1)
    requires forall t: nat :: Reads(q, t) ==> t in results1
    requires forall t :: t in results ==> t in results1 || Writes(q, t)
    requires Target(p, q).Some? ==> Target(p, q).value in exits + {pos + |c| + 1}
    requires exits1 <= exits && (exits1 != {} ==> results <= results1)
    ensures Stretch(p, pos, pos + |c| + 1, {}, results, exits)
  {
    hide Within, Stretch, Reads, Target;
    LastQuad(p, pos, c, q);
    var at := pos + |c|;
    One(p, at, results1, results - results1, exits);
    Join(p, pos, at, at + 1, {}, results1, exits1, results1, results - results1, exits, {}, results, exits);
  }

  lemma Both1(p: Code, pos: nat, A: Emitted, B: Emitted)
    requires Covers(p, pos, A) && Covers(p, pos + |A.code|, B)
    ensures Stretch(p, pos, pos + |Both(A, B)|, {}, TempOf(A.res) + TempOf(B.res), {})
  {
    hide Stretch;
    var at := pos + |A.code|;
    Join(p, pos, at, at + |B.code|, {}, TempOf(A.res), {}, {}, TempOf(B.res), {}, {}, TempOf(A.res) + TempOf(B.res),
        {});
  }

  lemma FreshCovers(p: Code, pos: nat, op: Op, A: Emitted)
    requires Within(p, pos, FreshCode(op, A).code) && Covers(p, pos, A)
    requires op.OpCast? || op == Copy || op == OpDeref
    ensures Covers(p, pos, FreshCode(op, A))
  {
    hide Within, Stretch;
    var r := A.cgt + 1;
    Append(p, pos, A.code, Q1(op, ATemp(r), A.res), TempOf(A.res), {}, {r}, {});
  }

  lemma UnaryCovers(p: Code, pos: nat, k: UnaryKind, A: Emitted)
    requires Within(p, pos, UnaryCode(k, A).code) && Covers(p, pos, A)
    ensures Covers(p, pos, UnaryCode(k, A))
  {
    hide Within, Stretch;
    Append(p, pos, A.code, Q1(Un(UnOf(k)), A.res, A.res), TempOf(A.res), {}, TempOf(A.res), {});
  }

  lemma ArithCovers(p: Code, pos: nat, k: ArithKind, A: Emitted, B: Emitted)
    requires Within(p, pos, ArithCode(k, A, B).code) && Covers(p, pos, A) && Covers(p, pos + |A.code|, B)
    ensures Covers(p, pos, ArithCode(k, A, B))
  {
    hide Within, Stretch;
    Both1(p, pos, A, B);
    Append(p, pos, Both(A, B), Quad(Alu(AluOf(k)), A.res, A.res, B.res), TempOf(A.res) + TempOf(B.res), {},
        TempOf(A.res), {});
  }

  lemma AssignCovers(p: Code, pos: nat, A: Emitted, B: Emitted)
    requires Within(p, pos, AssignCode(A, B).code) && Covers(p, pos, A) && Covers(p, pos + |A.code|, B)
    ensures Covers(p, pos, AssignCode(A, B))
  {
    hide Within, Stretch;
    Both1(p, pos, A, B);
    var put, copy := Q1(DerefCopy, A.res, B.res), Q1(Copy, ATemp(B.cgt + 1), B.res);
    LastQuad(p, pos, Both(A, B) + [put], copy);
    Append(p, pos, Both(A, B), put, TempOf(A.res) + TempOf(B.res), {}, TempOf(B.res), {});
    Append(p, pos, Both(A, B) + [put], copy, TempOf(B.res), {}, {B.cgt + 1}, {});
  }

  /** The settling tail: at its label the result is dead. */
  lemma SettleStretch(p: Code, j: nat, r: nat, v: Word, here: nat, next: nat)
    requires v <= 1 && UniqueLabels(p) && Within(p, j, Settle(ATemp(r), v, here, next))
    ensures Stretch(p, j, j + 5, {}, {r}, {}) && Entry(p, j + 2, j + 5, {r}, {})
    ensures FindLabel(p, here, 0) == Some(j + 2)
  {
    hide Within, Stretch, UniqueLabels;
    SettleQuads(p, j, r, v, here, next);
    One(p, j, {}, {r}, {});
    One(p, j + 1, {}, {}, {j + 4});
    Join(p, j, j + 1, j + 2, {}, {r}, {}, {}, {}, {j + 4}, {}, {r}, {j + 4});
    One(p, j + 2, {}, {}, {});
    One(p, j + 3, {}, {r}, {});
    Join(p, j + 2, j + 3, j + 4, {}, {}, {}, {}, {r}, {}, {}, {r}, {});
    Join(p, j, j + 2, j + 4, {}, {r}, {j + 4}, {}, {r}, {}, {}, {r}, {});
    One(p, j + 4, {}, {}, {});
    Join(p, j, j + 4, j + 5, {}, {r}, {}, {}, {}, {}, {}, {r}, {});
    Join(p, j + 2, j + 4, j + 5, {}, {r}, {}, {}, {}, {}, {}, {r}, {});
    StartEntry(p, j + 2, j + 5, {r}, {});
  }

  /** A body whose only other exit is the label of the settling tail. */
  lemma SettleCovers(p: Code, pos: nat, body: Code, c: nat, l: nat, lab: nat, v: Word)
    requires v <= 1 && UniqueLabels(p) && Within(p, pos, SettleAfter(body, c, l, lab, v).code)
    requires Stretch(p, pos, pos + |body|, {}, {}, {pos + |body| + 2})
    ensures Covers(p, pos, SettleAfter(body, c, l, lab, v))
  {
    hide Within, Stretch, UniqueLabels, Entry;
    var j := pos + |body|;
    WithinSplit(p, pos, body, Settle(ATemp(c + 1), v, l + 1, l + 2));
    SettleStretch(p, j, c + 1, v, l + 1, l + 2);
    Join(p, pos, j, j + 5, {}, {}, {j + 2}, {}, {c + 1}, {}, {}, {c + 1}, {});
  }

  lemma NotCovers(p: Code, pos: nat, A: Emitted, l: nat)
    requires UniqueLabels(p) && Within(p, pos, NotCode(A, l).code) && Covers(p, pos, A)
    ensures Covers(p, pos, NotCode(A, l))
  {
    hide Within, Stretch, UniqueLabels;
    var q := JumpZero(l + 1, A.res);
    SettleLabel(p, pos, A.code + [q], A.cgt, l, A.lab, 0);
    Append(p, pos, A.code, q, TempOf(A.res), {}, {}, {pos + |A.code| + 3});
    SettleCovers(p, pos, A.code + [q], A.cgt, l, A.lab, 0);
  }

  lemma RelateCovers(p: Code, pos: nat, k: RelKind, A: Emitted, B: Emitted, l: nat)
    requires UniqueLabels(p) && Within(p, pos, RelateCode(k, A, B, l).code)
    requires Covers(p, pos, A) && Covers(p, pos + |A.code|, B)
    ensures Covers(p, pos, RelateCode(k, A, B, l))
  {
    hide Within, Stretch, UniqueLabels;
    Both1(p, pos, A, B);
    var q := Quad(CJump(JumpOf(k)), ALabel(l + 1), A.res, B.res);
    var body := Both(A, B) + [q];
    SettleLabel(p, pos, body, B.cgt, l, B.lab, 0);
    Append(p, pos, Both(A, B), q, TempOf(A.res) + TempOf(B.res), {}, {}, {pos + |body| + 2});
    SettleCovers(p, pos, body, B.cgt, l, B.lab, 0);
  }

  lemma LogicCovers(p: Code, pos: nat, isOr: bool, A: Emitted, B: Emitted, l: nat)
    requires UniqueLabels(p) && Within(p, pos, LogicCode(isOr, A, B, l).code)
    requires Covers(p, pos, A) && Covers(p, pos + |A.code| + 1, B)
    ensures Covers(p, pos, LogicCode(isOr, A, B, l))
  {
    hide Within, Stretch, UniqueLabels;
    var j1, j2 := LogicJump(isOr, l + 1, A.res), LogicJump(isOr, l + 1, B.res);
    var v: Word := if isOr then 0 else 1;
    var first, body := A.code + [j1], A.code + [j1] + B.code + [j2];
    var x := pos + |body| + 2;
    SettleLabel(p, pos, body, B.cgt, l, B.lab, v);
    PrefixWithin(p, pos, first + B.code, body);
    PrefixWithin(p, pos, first, first + B.code);
    Append(p, pos, A.code, j1, TempOf(A.res), {}, {}, {x});
    var at, end := pos + |first|, pos + |first| + |B.code|;
    WithinSplit(p, pos, first, B.code);
    LastQuad(p, pos, first + B.code, j2);
    One(p, end, TempOf(B.res), {}, {x});
    Join(p, at, end, end + 1, {}, TempOf(B.res), {}, TempOf(B.res), {}, {x}, {}, {}, {x});
    Join(p, pos, at, end + 1, {}, {}, {x}, {}, {}, {x}, {}, {}, {x});
    SettleCovers(p, pos, body, B.cgt, l, B.lab, v);
  }

  /** The two alternatives of a ternary; its second one starts at a label. */
  lemma AlternativesCover(p: Code, pos: nat, X: Emitted, N: Emitted, Y: Emitted, l: nat)
    requires UniqueLabels(p) && Within(p, pos, TernaryCode(X, N, Y, l).code)
    requires var at := pos + |X.code| + 1; Covers(p, at, N) && Covers(p, at + |N.code| + 3, Y)
    ensures var i, r := pos + |X.code| + 1, X.cgt + 1;
            var h := i + |N.code| + 2;
            var e := h + 1 + |Y.code| + 1;
            Stretch(p, i, e, {}, {r}, {}) && Entry(p, h, e, {r}, {}) && e < |p| && p[e].Label?
  {
    hide Within, Stretch, UniqueLabels;
    TernaryLayout(p, pos, X, N, Y, l);
    var i, r := pos + |X.code| + 1, X.cgt + 1;
    var j := i + |N.code|;
    var h := j + 2;
    var y := h + 1 + |Y.code|;
    var e := y + 1;
    One(p, j, TempOf(N.res), {r}, {});
    Join(p, i, j, j + 1, {}, TempOf(N.res), {}, TempOf(N.res), {r}, {}, {}, {r}, {});
    One(p, j + 1, {}, {}, {e});
    Join(p, i, j + 1, h, {}, {r}, {}, {}, {}, {e}, {}, {r}, {e});
    One(p, h, {}, {}, {});
    Join(p, h, h + 1, y, {}, {}, {}, {}, TempOf(Y.res), {}, {}, TempOf(Y.res), {});
    One(p, y, TempOf(Y.res), {r}, {});
    Join(p, h, y, e, {}, TempOf(Y.res), {}, TempOf(Y.res), {r}, {}, {}, {r}, {});
    StartEntry(p, h, e, {r}, {});
    Join(p, i, h, e, {}, {r}, {e}, {}, {r}, {}, {}, {r}, {});
  }

  lemma TernaryCovers(p: Code, pos: nat, X: Emitted, N: Emitted, Y: Emitted, l: nat)
    requires UniqueLabels(p) && Within(p, pos, TernaryCode(X, N, Y, l).code) && Covers(p, pos, X)
    requires var at := pos + |X.code| + 1; Covers(p, at, N) && Covers(p, at + |N.code| + 3, Y)
    ensures Covers(p, pos, TernaryCode(X, N, Y, l))
  {
    hide Within, Stretch, UniqueLabels, Entry;
    TernaryLayout(p, pos, X, N, Y, l);
    AlternativesCover(p, pos, X, N, Y, l);
    var i, r := pos + |X.code| + 1, X.cgt + 1;
    var h := i + |N.code| + 2;
    var e := h + 1 + |Y.code| + 1;
    One(p, i - 1, TempOf(X.res), {}, {h});
    Join(p, pos, i - 1, i, {}, TempOf(X.res), {}, TempOf(X.res), {}, {h}, {}, {}, {h});
    Join(p, pos, i, e, {}, {}, {h}, {}, {r}, {}, {}, {r}, {});
    One(p, e, {}, {}, {});
    Join(p, pos, e, e + 1, {}, {r}, {}, {}, {}, {}, {}, {r}, {});
  }

  lemma CallCovers(p: Code, pos: nat, A: Emitted, F: Emitted, isVoid: bool, count: Word)
    requires Within(p, pos, CallCode(A, F, isVoid, count).code)
    requires Stretch(p, pos + 1, pos + 1 + |A.code|, {}, {}, {}) && Covers(p, pos + 1 + |A.code|, F)
    ensures Covers(p, pos, CallCode(A, F, isVoid, count))
  {
    hide Within, Stretch;
    var E := CallCode(A, F, isVoid, count);
    var hint := Q1(HintCall, E.res, ANone);
    var call := Quad(if isVoid then PCall else FCall, E.res, F.res, AConst(count));
    LastQuad(p, pos, [hint] + A.code + F.code, call);
    assert [hint] + A.code + F.code == [] + [hint] + (A.code + F.code);
    QuadAt(p, pos, [], hint, A.code + F.code);
    var at := pos + 1 + |A.code|;
    One(p, pos, {}, {}, {});
    Join(p, pos, pos + 1, at, {}, {}, {}, {}, {}, {}, {}, {}, {});
    Join(p, pos, at, at + |F.code|, {}, {}, {}, {}, TempOf(F.res), {}, {}, TempOf(F.res), {});
    Append(p, pos, [hint] + A.code + F.code, call, TempOf(F.res), {}, TempOf(E.res), {});
  }

  // ----- every expression -----

  /** A single quad that sets r and reads no temporary. */
  lemma SingleCovers(p: Code, pos: nat, q: Quad, r: nat)
    requires Within(p, pos, [q]) && Writes(q, r) && !q.arg1.ATemp? && q.arg2 == ANone
    ensures Stretch(p, pos, pos + 1, {}, {r}, {})
  {
    hide Stretch;
    WithinAt(p, pos, [q], 0);
    One(p, pos, {}, {r}, {});
  }

  lemma {:induction false} ExprCovers(p: Code, pos: nat, e: Expr, c: nat, l: nat)
    requires UniqueLabels(p) && Within(p, pos, ExprCode(e, c, l).code)
    ensures Covers(p, pos, ExprCode(e, c, l))
    decreases e, 1
  {
    hide Within, UniqueLabels, Stretch, ExprCode, ArgsCode, PlaceCode;
    CodeParts(e, c, l);
    match e
    case Const(n) =>
      SingleCovers(p, pos, CopyConst(ATemp(c + 1), ToWord(n)), c + 1);
    case Ident(x, isFn) =>
      SingleCovers(p, pos, Q1(Copy, ATemp(c + 1), AName(x, isFn)), c + 1);
    case Not(a) =>
      PrefixCovers(p, pos, a, c, l + 2, ExprCode(e, c, l).code);
      NotCovers(p, pos, ExprCode(a, c, l + 2), l);
    case Unary(k, a) =>
      PrefixCovers(p, pos, a, c, l, ExprCode(e, c, l).code);
      UnaryCovers(p, pos, k, ExprCode(a, c, l));
    case Cast(t, a) =>
      PrefixCovers(p, pos, a, c, l, ExprCode(e, c, l).code);
      FreshCovers(p, pos, OpCast(t), ExprCode(a, c, l));
    case Ref(a) => PlaceCovers(p, pos, a, c, l);
    case Deref(a) =>
      var A := ExprCode(a, c, l);
      PrefixCovers(p, pos, a, c, l, ExprCode(e, c, l).code);
      PrefixWithin(p, pos, FreshCode(Copy, A).code, ExprCode(e, c, l).code);
      FreshCovers(p, pos, Copy, A);
      FreshCovers(p, pos, OpDeref, FreshCode(Copy, A));
    case Ternary(x, y, n) =>
      var X := ExprCode(x, c, l + 2);
      var N := ExprCode(n, X.cgt + 1, X.lab);
      var Y := ExprCode(y, N.cgt, N.lab);
      TernaryLayout(p, pos, X, N, Y, l);
      ExprCovers(p, pos, x, c, l + 2);
      ExprCovers(p, pos + |X.code| + 1, n, X.cgt + 1, X.lab);
      ExprCovers(p, pos + |X.code| + 1 + |N.code| + 3, y, N.cgt, N.lab);
      TernaryCovers(p, pos, X, N, Y, l);
    case Call(f, args, isVoid) =>
      var A := ArgsCode(args, c, l);
      var F := ExprCode(f, A.cgt, A.lab);
      CallWithin(p, pos, A, F, isVoid, Count(args));
      ArgsCovers(p, pos + 1, args, c, l);
      ExprCovers(p, pos + 1 + |A.code|, f, A.cgt, A.lab);
      CallCovers(p, pos, A, F, isVoid, Count(args));
    case _ => InfixCovers(p, pos, e, c, l);
  }

  lemma {:induction false} PrefixCovers(p: Code, pos: nat, a: Expr, c: nat, l: nat, whole: Code)
    requires UniqueLabels(p) && Within(p, pos, whole) && ExprCode(a, c, l).code <= whole
    ensures Covers(p, pos, ExprCode(a, c, l))
    decreases a, 2
  {
    hide Within, UniqueLabels, Stretch, ExprCode;
    PrefixWithin(p, pos, ExprCode(a, c, l).code, whole);
    ExprCovers(p, pos, a, c, l);
  }

  lemma {:induction false} InfixCovers(p: Code, pos: nat, e: Expr, c: nat, l: nat)
    requires e.Arith? || e.Relate? || e.Or? || e.And? || e.Assign? || e.Comma?
    requires UniqueLabels(p) && Within(p, pos, ExprCode(e, c, l).code)
    ensures Covers(p, pos, ExprCode(e, c, l))
    decreases e, 0
  {
    hide Within, UniqueLabels, Stretch, ExprCode;
    CodeParts(e, c, l);
    var logic := e.Or? || e.And?;
    var l' := if e.Relate? || logic then l + 2 else l;
    var A := if e.Assign? then PlaceCode(e.left, c, l) else ExprCode(e.left, c, l');
    var B := ExprCode(e.right, A.cgt, A.lab);
    var at := pos + |A.code|;
    if logic {
      LogicWithin(p, pos, e.Or?, A, B, l);
      ExprCovers(p, pos, e.left, c, l');
      ExprCovers(p, at + 1, e.right, A.cgt, A.lab);
      LogicCovers(p, pos, e.Or?, A, B, l);
    } else {
      InfixCode(e, c, l);
      PairWithin(p, pos, A, B, ExprCode(e, c, l).code);
      if e.Assign? {
        PlaceCovers(p, pos, e.left, c, l);
      } else {
        ExprCovers(p, pos, e.left, c, l');
      }
      ExprCovers(p, at, e.right, A.cgt, A.lab);
      match e
      case Arith(k, _, _) => ArithCovers(p, pos, k, A, B);
      case Relate(k, _, _) => RelateCovers(p, pos, k, A, B, l);
      case Assign(_, _) => AssignCovers(p, pos, A, B);
      case Comma(_, _) => CommaCovers(p, pos, A, B);
    }
  }

  lemma CommaCovers(p: Code, pos: nat, A: Emitted, B: Emitted)
    requires Within(p, pos, CommaCode(A, B).code) && Covers(p, pos, A) && Covers(p, pos + |A.code|, B)
    ensures Covers(p, pos, CommaCode(A, B))
  {
    hide Within, Stretch;
    Both1(p, pos, A, B);
    Append(p, pos, Both(A, B), Q1(Copy, ATemp(B.cgt + 1), B.res), TempOf(A.res) + TempOf(B.res), {}, {B.cgt + 1}, {});
  }

  lemma {:induction false} PlaceCovers(p: Code, pos: nat, e: Expr, c: nat, l: nat)
    requires UniqueLabels(p) && Within(p, pos, PlaceCode(e, c, l).code)
    ensures Covers(p, pos, PlaceCode(e, c, l))
    decreases e, 2
  {
    hide UniqueLabels, Stretch;
    match e
    case Ident(x, isFn) =>
      SingleCovers(p, pos, Q1(OpRef, ATemp(c + 1), AName(x, isFn)), c + 1);
    case Deref(a) =>
      PrefixCovers(p, pos, a, c, l, PlaceCode(e, c, l).code);
      FreshCovers(p, pos, Copy, ExprCode(a, c, l));
    case Call(_, _, _) => ExprCovers(p, pos, e, c, l);
    case _ => Nothing(p, pos);
  }

  lemma {:induction false} ArgsCovers(p: Code, pos: nat, args: ExprList, c: nat, l: nat)
    requires UniqueLabels(p) && Within(p, pos, ArgsCode(args, c, l).code)
    ensures Stretch(p, pos, pos + |ArgsCode(args, c, l).code|, {}, {}, {})
    decreases args, 0
  {
    hide UniqueLabels, Stretch, ExprCode, ArgsCode, Within;
    ArgsParts(args, c, l);
    if args.ENil? {
      Nothing(p, pos) by { WithinBound(p, pos, []); }
    } else {
      var A := ExprCode(args.head, c, l);
      var T := ArgsCode(args.tail, A.cgt, A.lab);
      var q := Q1(Arg, ANone, A.res);
      var at := pos + |A.code + [q]|;
      WithinSplit(p, pos, A.code + [q], T.code);
      PrefixCovers(p, pos, args.head, c, l, A.code + [q]);
      Append(p, pos, A.code, q, TempOf(A.res), {}, {}, {});
      ArgsCovers(p, at, args.tail, A.cgt, A.lab);
      Join(p, pos, at, at + |T.code|, {}, {}, {}, {}, {}, {}, {}, {}, {});
    }
  }

  lemma WithinBound(p: Code, pos: nat, c: Code)
    requires Within(p, pos, c)
    ensures pos + |c| <= |p|
  {
  }

  lemma ArgsParts(args: ExprList, c: nat, l: nat)
    ensures args.ENil? ==> ArgsCode(args, c, l) == Emitted([], ANone, c, l)
    ensures args.ECons? ==>
              var A := ExprCode(args.head, c, l);
              var T := ArgsCode(args.tail, A.cgt, A.lab);
              ArgsCode(args, c, l) == T.(code := A.code + [Q1(Arg, ANone, A.res)] + T.code)
  {
  }

  // ----- every statement -----

  /** A statement leaves at its end, or at the labels it may jump out to. */
  ghost predicate Contained(p: Code, i: nat, j: nat, exits: set<nat>)
  {
    Stretch(p, i, j, {}, {}, exits)
  }

  /** Two stretches one after the other; the first may also jump to the start of the second. */
  lemma Chain(p: Code, i: nat, j: nat, k: nat, exits1: set<nat>, exits2: set<nat>, exits: set<nat>)
    requires Contained(p, i, j, exits1) && Contained(p, j, k, exits2)
    requires exits1 <= exits + {k, j} && exits2 <= exits + {k}
    ensures Contained(p, i, k, exits)
  {
    hide Stretch, Entry;
    StretchBounds(p, j, k, {}, {}, exits2);
    if j < k {
      StartEntry(p, j, k, {}, exits2);
    }
    assert ExitsFit(p, j, k, {}, exits1, {}, exits2, {}, exits) by {
      forall x | x in exits1
        ensures x in exits + {k} || (j <= x < k && Entry(p, x, k, {}, exits2))
      {
        assert x in exits + {k, j};
      }
    }
    Join(p, i, j, k, {}, {}, exits1, {}, {}, exits2, {}, {}, exits);
  }

  lemma StretchBounds(p: Code, i: nat, j: nat, ins: set<nat>, results: set<nat>, exits: set<nat>)
    requires Stretch(p, i, j, ins, results, exits)
    ensures i <= j <= |p|
  {
  }

  /** A quad that reads no temporary. */
  lemma Plain(p: Code, i: nat, exits: set<nat>)
    requires i < |p| && (forall t: nat :: !Reads(p[i], t))
    requires Target(p, p[i]).Some? ==> Target(p, p[i]).value in exits + {i + 1}
    ensures Contained(p, i, i + 1, exits)
  {
    hide Stretch;
    One(p, i, {}, {}, exits);
  }

  /** An expression and the quad that uses its result. */
  lemma UsedOnce(p: Code, pos: nat, e: Expr, c: nat, l: nat, q: Quad, exits: set<nat>)
    requires var E := ExprCode(e, c, l);
             && UniqueLabels(p) && Within(p, pos, E.code + [q])
             && (forall t: nat :: Reads(q, t) ==> t in TempOf(E.res))
             && (Target(p, q).Some? ==> Target(p, q).value in exits + {pos + |E.code| + 1})
    ensures Contained(p, pos, pos + |ExprCode(e, c, l).code| + 1, exits)
  {
    hide ExprCode, Within, Stretch, UniqueLabels;
    var E := ExprCode(e, c, l);
    PrefixCovers(p, pos, e, c, l, E.code + [q]);
    Append(p, pos, E.code, q, TempOf(E.res), {}, {}, exits);
  }

  lemma TestContained(p: Code, pos: nat, test: Option<Expr>, c: nat, l: nat, out: nat, k: nat)
    requires UniqueLabels(p) && Within(p, pos, TestCode(test, c, l, out).code) && FindLabel(p, out, 0) == Some(k)
    ensures Contained(p, pos, pos + |TestCode(test, c, l, out).code|, {k})
  {
    hide ExprCode, Within, Stretch, UniqueLabels, FindLabel;
    if test.None? {
      NoneContained(p, pos, {k}) by { WithinBound(p, pos, []); }
    } else {
      UsedOnce(p, pos, test.value, c, l, Q1(CJumpF, ALabel(out), ExprCode(test.value, c, l).res), {k});
    }
  }

  lemma NoneContained(p: Code, pos: nat, exits: set<nat>)
    requires pos <= |p|
    ensures Contained(p, pos, pos, exits)
  {
  }

  /** The quads at the two ends of a loop whose body reads nothing it has not set. */
  ghost predicate IsLoop(p: Code, head: nat, g: nat)
  {
    && head < g && g + 2 <= |p| && p[head].Label? && p[g + 1].Label?
    && p[g].Quad? && p[g].op == UJump && Target(p, p[g]) == Some(head)
    && !p[g].arg1.ATemp? && !p[g].arg2.ATemp?
    && Contained(p, head + 1, g, {head, g + 1})
  }

  /** A path that enters a loop reads nothing from before it, however often it goes round. */
  lemma {:induction false} OutOfLoop(p: Code, head: nat, g: nat, y: nat, t: nat, n: nat)
    requires IsLoop(p, head, g) && y in {head, g, g + 1} && Live(p, y, t, n)
    ensures LeavesLive(p, t, n, {g + 2})
    decreases n
  {
    assert LiveNext(p, y, t, n - 1);
    if y == g + 1 {
      assert Live(p, g + 2, t, n - 1);
    } else if y == g {
      OutOfLoop(p, head, g, head, t, n - 1);
    } else if head + 1 == g {
      OutOfLoop(p, head, g, g, t, n - 1);
    } else {
      hide Live, LiveNext;
      assert Explained(p, head + 1, g, {}, {}, {head, g + 1}, head + 1, t, n - 1);
      var y', m: nat :| y' in {head, g + 1} + {g} && m < n - 1 && Live(p, y', t, m);
      OutOfLoop(p, head, g, y', t, m);
    }
  }

  lemma LoopContained(p: Code, head: nat, g: nat)
    requires IsLoop(p, head, g)
    ensures Contained(p, head, g + 2, {})
  {
    hide Live;
    forall pc: nat, t: nat, n: nat | head <= pc < g + 2 && Live(p, pc, t, n)
      ensures Explained(p, head, g + 2, {}, {}, {}, pc, t, n)
    {
      if pc in {head, g, g + 1} {
        OutOfLoop(p, head, g, pc, t, n);
        var y, m: nat :| y in {g + 2} && m < n && Live(p, y, t, m);
        assert y in {} + {g + 2};
      } else {
        assert Explained(p, head + 1, g, {}, {}, {head, g + 1}, pc, t, n);
        if Ment(p, t, head + 1, pc) {
          MentWider(p, t, head + 1, pc, head, pc);
        }
        if Ment(p, t, pc, g) {
          MentWider(p, t, pc, g, pc, g + 2);
        }
        if LeavesLive(p, t, n, {head, g + 1} + {g}) {
          var y, m: nat :| y in {head, g + 1} + {g} && m < n && Live(p, y, t, m);
          OutOfLoop(p, head, g, y, t, m);
          var y', m': nat :| y' in {g + 2} && m' < m && Live(p, y', t, m');
          assert y' in {} + {g + 2};
        }
      }
    }
  }

  /** The positions a statement inside a loop may jump out to. */
  ghost predicate LoopExits(p: Code, inLoop: bool, out: nat, iter: nat, exits: set<nat>)
  {
    inLoop ==>
      && FindLabel(p, out, 0).Some? && FindLabel(p, out, 0).value in exits
      && FindLabel(p, iter, 0).Some? && FindLabel(p, iter, 0).value in exits
  }

  lemma {:induction false} StmtContained(p: Code, pos: nat, st: Stmt, c: nat, l: nat, out: nat, iter: nat,
                                         inLoop: bool, exits: set<nat>)
    requires UniqueLabels(p) && Within(p, pos, StmtCode(st, c, l, out, iter).code)
    requires WellFormed(st, inLoop) && LoopExits(p, inLoop, out, iter, exits)
    ensures Contained(p, pos, pos + |StmtCode(st, c, l, out, iter).code|, exits)
    decreases st, 2
  {
    hide Within, UniqueLabels, Contained, FindLabel, StmtCode, ExprCode, BranchCode;
    StmtParts(st, c, l, out, iter);
    match st
    case Seq(a, b) =>
      var A := StmtCode(a, c, l, out, iter);
      var B := StmtCode(b, A.cgt, A.lab, out, iter);
      WithinSplit(p, pos, A.code, B.code);
      StmtContained(p, pos, a, c, l, out, iter, inLoop, exits);
      StmtContained(p, pos + |A.code|, b, A.cgt, A.lab, out, iter, inLoop, exits);
      Chain(p, pos, pos + |A.code|, pos + |A.code| + |B.code|, exits, exits, exits);
    case If(branch) =>
      var B := BranchCode(branch, c, l + 1, l + 1, out, iter);
      var end := pos + |B.code|;
      LastQuad(p, pos, B.code, Label(l + 1));
      LabelAt(p, end, l + 1);
      BranchContained(p, pos, branch, c, l + 1, l + 1, out, iter, inLoop, exits);
      Plain(p, end, exits);
      Chain(p, pos, end, end + 1, exits, exits, exits);
    case While(_, _) => WhileContained(p, pos, st, c, l, out, iter, exits);
    case Do(_, _) => WhileContained(p, pos, st, c, l, out, iter, exits);
    case For(_, _, _, _) => ForContained(p, pos, st, c, l, out, iter, exits);
    case _ => SmallContained(p, pos, st, c, l, out, iter, inLoop, exits);
  }

  /** Statements without statements inside. */
  lemma SmallContained(p: Code, pos: nat, st: Stmt, c: nat, l: nat, out: nat, iter: nat, inLoop: bool, exits: set<nat>)
    requires UniqueLabels(p) && Within(p, pos, StmtCode(st, c, l, out, iter).code)
    requires WellFormed(st, inLoop) && LoopExits(p, inLoop, out, iter, exits)
    requires st.Empty? || st.Eval? || st.Let? || st.Break? || st.Continue? || st.Return?
    ensures Contained(p, pos, pos + |StmtCode(st, c, l, out, iter).code|, exits)
  {
    hide Within, UniqueLabels, Contained, FindLabel, ExprCode;
    if st.Empty? {
      NoneContained(p, pos, exits) by { WithinBound(p, pos, []); }
    } else if st.Eval? {
      EvalContained(p, pos, st.expr, c, l, exits);
    } else if st.Let? && st.initial.Some? {
      LetContained(p, pos, st.name, st.initial.value, c, l, exits);
    } else if st.Return? && st.value.Some? {
      UsedOnce(p, pos, st.value.value, c, l, Q1(RetF, ANone, ExprCode(st.value.value, c, l).res), exits);
    } else {
      WithinAt(p, pos, StmtCode(st, c, l, out, iter).code, 0);
      Plain(p, pos, exits);
    }
  }

  lemma Weaker(p: Code, i: nat, j: nat, results: set<nat>, exits: set<nat>)
    requires Stretch(p, i, j, {}, results, {})
    ensures Contained(p, i, j, exits)
  {
    hide Stretch;
    StretchBounds(p, i, j, {}, results, {});
    Nothing(p, j);
    Join(p, i, j, j, {}, results, {}, {}, {}, {}, {}, {}, exits);
  }

  lemma EvalContained(p: Code, pos: nat, e: Expr, c: nat, l: nat, exits: set<nat>)
    requires UniqueLabels(p) && Within(p, pos, ExprCode(e, c, l).code)
    ensures Contained(p, pos, pos + |ExprCode(e, c, l).code|, exits)
  {
    hide Within, UniqueLabels, ExprCode, Stretch, Contained;
    ExprCovers(p, pos, e, c, l);
    var E := ExprCode(e, c, l);
    Weaker(p, pos, pos + |E.code|, TempOf(E.res), exits);
  }

  lemma LetContained(p: Code, pos: nat, x: string, e: Expr, c: nat, l: nat, exits: set<nat>)
    requires UniqueLabels(p) && Within(p, pos, LetCode(x, ExprCode(e, c, l)).code)
    ensures Contained(p, pos, pos + |LetCode(x, ExprCode(e, c, l)).code|, exits)
  {
    hide Within, UniqueLabels, Contained, ExprCode;
    var E := ExprCode(e, c, l);
    var hint, put := Q1(HintLocal, AName(x, false), ANone), Q1(Copy, AName(x, false), E.res);
    assert LetCode(x, E).code == [hint] + (E.code + [put]);
    WithinSplit(p, pos, [hint], E.code + [put]);
    WithinAt(p, pos, [hint], 0);
    Plain(p, pos, exits);
    UsedOnce(p, pos + 1, e, c, l, put, exits);
    Chain(p, pos, pos + 1, pos + 2 + |E.code|, exits, exits, exits);
  }

  lemma {:induction false} BranchContained(p: Code, pos: nat, b: Branch, c: nat, l: nat, done: nat, out: nat, iter: nat,
                                           inLoop: bool, exits: set<nat>)
    requires UniqueLabels(p) && Within(p, pos, BranchCode(b, c, l, done, out, iter).code)
    requires WellFormedBranch(b, inLoop) && LoopExits(p, inLoop, out, iter, exits)
    requires FindLabel(p, done, 0) == Some(pos + |BranchCode(b, c, l, done, out, iter).code|)
    ensures Contained(p, pos, pos + |BranchCode(b, c, l, done, out, iter).code|, exits)
    decreases b, 0
  {
    hide Within, UniqueLabels, Contained, FindLabel, StmtCode, TestCode;
    var end := FindLabel(p, done, 0).value;
    if b.others.NoElse? {
      var X := TestCode(Some(b.cond), c, l, done);
      var B := StmtCode(b.body, X.cgt, X.lab, out, iter);
      WithinSplit(p, pos, X.code, B.code);
      TestContained(p, pos, Some(b.cond), c, l, done, end);
      StmtContained(p, pos + |X.code|, b.body, X.cgt, X.lab, out, iter, inLoop, exits);
      Chain(p, pos, pos + |X.code|, end, {end}, exits, exits);
    } else {
      var X := TestCode(Some(b.cond), c, l + 1, l + 1);
      var B := StmtCode(b.body, X.cgt, X.lab, out, iter);
      var E := if b.others.Elif? then BranchCode(b.others.branch, B.cgt, B.lab, done, out, iter)
               else StmtCode(b.others.body, B.cgt, B.lab, out, iter);
      ElseLayout(p, pos, X, B, E, done, l + 1);
      var a, j := pos + |X.code|, pos + |X.code| + |B.code|;
      TestContained(p, pos, Some(b.cond), c, l + 1, l + 1, j + 1);
      StmtContained(p, a, b.body, X.cgt, X.lab, out, iter, inLoop, exits);
      if b.others.Elif? {
        BranchContained(p, j + 2, b.others.branch, B.cgt, B.lab, done, out, iter, inLoop, exits);
      } else {
        StmtContained(p, j + 2, b.others.body, B.cgt, B.lab, out, iter, inLoop, exits);
      }
      Plain(p, j, {end});
      Plain(p, j + 1, {});
      Chain(p, a, j, j + 1, exits, {end}, exits + {end});
      Chain(p, pos, a, j + 1, {j + 1}, exits + {end}, exits + {end});
      Chain(p, j + 1, j + 2, end, {}, exits, exits);
      Chain(p, pos, j + 1, end, exits + {end}, exits, exits);
    }
  }

  /** Both kinds of loop that have one label at the top and one at the end. */
  lemma {:induction false} WhileContained(p: Code, pos: nat, st: Stmt, c: nat, l: nat, out: nat, iter: nat,
                                          exits: set<nat>)
    requires st.While? || st.Do?
    requires UniqueLabels(p) && Within(p, pos, StmtCode(st, c, l, out, iter).code) && WellFormed(st, true)
    ensures Contained(p, pos, pos + |StmtCode(st, c, l, out, iter).code|, exits)
    decreases st, 0
  {
    hide Within, UniqueLabels, Contained, FindLabel, StmtCode, TestCode;
    StmtParts(st, c, l, out, iter);
    var P, Q;
    if st.While? {
      P := TestCode(Some(st.cond), c, l + 2, l + 2);
      Q := StmtCode(st.body, P.cgt, P.lab, l + 2, l + 1);
    } else {
      P := StmtCode(st.body, c, l + 2, l + 2, l + 1);
      Q := TestCode(Some(st.cond), P.cgt, P.lab, l + 2);
    }
    LoopLayout(p, pos, P, Q, l);
    var i, g := pos + 1 + |P.code|, pos + 1 + |P.code| + |Q.code|;
    var own := {pos, g + 1};
    if st.While? {
      TestContained(p, pos + 1, Some(st.cond), c, l + 2, l + 2, g + 1);
      StmtContained(p, i, st.body, P.cgt, P.lab, l + 2, l + 1, true, own);
      Chain(p, pos + 1, i, g, {g + 1}, own, own);
    } else {
      StmtContained(p, pos + 1, st.body, c, l + 2, l + 2, l + 1, true, own);
      TestContained(p, i, Some(st.cond), P.cgt, P.lab, l + 2, g + 1);
      Chain(p, pos + 1, i, g, own, {g + 1}, own);
    }
    LoopAt(p, pos, g, exits);
  }

  lemma LoopAt(p: Code, head: nat, g: nat, exits: set<nat>)
    requires IsLoop(p, head, g)
    ensures Contained(p, head, g + 2, exits)
  {
    hide Stretch;
    LoopContained(p, head, g);
    Weaker(p, head, g + 2, {}, exits);
  }

  lemma {:induction false} ForContained(p: Code, pos: nat, st: Stmt, c: nat, l: nat, out: nat, iter: nat,
                                        exits: set<nat>)
    requires st.For?
    requires UniqueLabels(p) && Within(p, pos, StmtCode(st, c, l, out, iter).code) && WellFormed(st, true)
    ensures Contained(p, pos, pos + |StmtCode(st, c, l, out, iter).code|, exits)
    decreases st, 1
  {
    hide Within, UniqueLabels, Contained, FindLabel, StmtCode, TestCode, ForCode;
    StmtParts(st, c, l, out, iter);
    var (I, X, B, S) := ForParts(st, c, l);
    ForLayout(p, pos, I, X, B, S, l);
    var a, g := pos + |I.code|, pos + |StmtCode(st, c, l, out, iter).code|;
    SimpleAnywhere(st.init);
    SmallContained(p, pos, st.init, c, l + 3, l + 3, l + 2, false, exits);
    ForLoopContained(p, pos, st, c, l, out, iter, exits);
    Chain(p, pos, a, g, exits, exits, exits);
  }

  /** A `for` loop without its first part. */
  lemma {:induction false} ForLoopContained(p: Code, pos: nat, st: Stmt, c: nat, l: nat, out: nat, iter: nat,
                                            exits: set<nat>)
    requires st.For?
    requires UniqueLabels(p) && Within(p, pos, StmtCode(st, c, l, out, iter).code) && WellFormed(st, true)
    ensures Contained(p, pos + |ForParts(st, c, l).0.code|, pos + |StmtCode(st, c, l, out, iter).code|, exits)
    decreases st, 0
  {
    hide Within, UniqueLabels, Contained, FindLabel, StmtCode, TestCode, ForCode;
    StmtParts(st, c, l, out, iter);
    var (I, X, B, S) := ForParts(st, c, l);
    ForLayout(p, pos, I, X, B, S, l);
    var a := pos + |I.code|;
    var b := a + 1 + |X.code|;
    var d := b + |B.code|;
    var g := d + 1 + |S.code|;
    var own, none: set<nat> := {d, g + 1}, {};
    SimpleAnywhere(st.step);
    TestContained(p, a + 1, st.test, I.cgt, I.lab, l + 3, g + 1);
    StmtContained(p, b, st.body, X.cgt, X.lab, l + 3, l + 2, true, own);
    Plain(p, d, none);
    SmallContained(p, d + 1, st.step, B.cgt, B.lab, l + 3, l + 2, false, none);
    Chain(p, d, d + 1, g, none, none, none);
    Chain(p, a + 1, b, d, {g + 1}, own, {g + 1});
    Chain(p, a + 1, d, g, {g + 1}, none, {a, g + 1});
    LoopAt(p, a, g, exits);
  }

  lemma SimpleAnywhere(st: Stmt)
    requires Simple(st)
    ensures WellFormed(st, false)
  {
  }

  /** In the code of a procedure, a temporary that may still be read at some point is mentioned both
      before that point and from it on. */
  lemma LiveCovered(body: Stmt, l: nat, pc: nat, t: nat, n: nat)
    requires WellFormed(body, false) && Live(ProcCode(body, l), pc, t, n)
    ensures var p := ProcCode(body, l); Ment(p, t, 0, pc) && Ment(p, t, pc, |p|)
  {
    hide StmtCode, FindLabel, UniqueLabels, Within;
    var p := ProcCode(body, l);
    ProcedureLabels(body, 0, l);
    WithinWhole(p);
    StmtContained(p, 0, body, 0, l, 0, 0, false, {});
    assert Explained(p, 0, |p|, {}, {}, {}, pc, t, n);
  }

  lemma WithinWhole(p: Code)
    ensures Within(p, 0, p)
  {
    assert p[0..0 + |p|] == p;
  }

  /** On every path, a temporary is written before it is read. */
  lemma WrittenFirst(body: Stmt, l: nat, t: nat, n: nat)
    requires WellFormed(body, false)
    ensures !Live(ProcCode(body, l), 0, t, n)
  {
    if Live(ProcCode(body, l), 0, t, n) {
      LiveCovered(body, l, 0, t, n);
    }
  }
}
