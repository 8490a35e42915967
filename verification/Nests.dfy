/** Which calls are open at each quad, read off the code from first to last. */
module Nests {
  import opened Quads
  import opened Liveness

  /** A call that has been opened: how many were opened before it, and the operand for its result. */
  datatype Opening = Opening(k: nat, res: Operand)

  /** The calls opened so far, those open now, and how many arguments each open call has been passed. */
  datatype Nest = Nest(count: nat, open: seq<Opening>, passed: seq<nat>)

  predicate IsHint(q: Quad)
  {
    q.Quad? && q.op == HintCall
  }

  predicate IsCall(q: Quad)
  {
    q.Quad? && q.op in {PCall, FCall}
  }

  predicate IsArg(q: Quad)
  {
    q.Quad? && q.op == Arg
  }

  predicate NeedsCall(q: Quad)
  {
    q.Quad? && q.op in {Arg, PCall, FCall}
  }

  /** No label and none of the quads that concern calls. */
  predicate Inside(q: Quad)
  {
    q.Quad? && !IsHint(q) && !NeedsCall(q)
  }

  function Front<T>(s: seq<T>): seq<T>
  {
    if s == [] then [] else s[..|s| - 1]
  }

  function Enter(q: Quad, n: Nest): Nest
  {
    if IsHint(q) then Nest(n.count + 1, n.open + [Opening(n.count, q.res)], n.passed + [0])
    else if IsCall(q) then n.(open := Front(n.open), passed := Front(n.passed))
    else if IsArg(q) && n.passed != [] then n.(passed := n.passed[|n.passed| - 1 := n.passed[|n.passed| - 1] + 1])
    else n
  }

  function NestAt(p: Code, i: nat): Nest
    requires i <= |p|
  {
    if i == 0 then Nest(0, [], []) else Enter(p[i - 1], NestAt(p, i - 1))
  }

  function OpenAt(p: Code, i: nat): seq<Opening>
    requires i <= |p|
  {
    NestAt(p, i).open
  }

  function ArgsAt(p: Code, i: nat): seq<nat>
    requires i <= |p|
  {
    NestAt(p, i).passed
  }

  /** The calls a temporary lives in when the quad at i mentions it: the result of a call lives outside it. */
  function HomeAt(p: Code, i: nat, t: nat): seq<Opening>
    requires i < |p|
  {
    if IsCall(p[i]) && p[i].res == ATemp(t) then Front(OpenAt(p, i)) else OpenAt(p, i)
  }

  type Homes = nat -> seq<Opening>

  /** Every temporary lives in one place. */
  ghost predicate Housed(p: Code, home: Homes)
  {
    forall i: nat, t: nat :: i < |p| && Mentions(p[i], ATemp(t)) ==> home(t) == HomeAt(p, i, t)
  }

  /** The same calls are open, with as many arguments passed. */
  ghost predicate SameCalls(p: Code, i: nat, j: nat)
  {
    i <= |p| && j <= |p| && OpenAt(p, i) == OpenAt(p, j) && ArgsAt(p, i) == ArgsAt(p, j)
  }

  /** What holds at every quad: arguments and calls find a call open, a call sets the result its opening names,
      if any, and does not read it, a jump stays inside the same calls, and an argument is mentioned for the last
      time. */
  ghost predicate Orderly(p: Code, i: nat)
    requires i < |p|
  {
    && (NeedsCall(p[i]) ==> OpenAt(p, i) != [])
    && (IsCall(p[i]) ==> OpenAt(p, i)[|OpenAt(p, i)| - 1].res == p[i].res
                         && (p[i].arg1.ATemp? ==> p[i].arg1 != p[i].res) && !p[i].arg2.ATemp?
                         && (p[i].op == PCall ==> !p[i].res.ATemp?))
    && (IsHint(p[i]) ==> !p[i].arg1.ATemp? && !p[i].arg2.ATemp?)
    && (Target(p, p[i]).Some? ==> SameCalls(p, Target(p, p[i]).value, i))
    && (IsArg(p[i]) && p[i].arg1.ATemp? ==> LastMention(p, i, p[i].arg1.t))
  }

  ghost predicate LastMention(p: Code, i: nat, t: nat)
  {
    forall j: nat :: i < j < |p| ==> !Mentions(p[j], ATemp(t))
  }

  ghost predicate Framed(p: Code, home: Homes)
  {
    Housed(p, home) && forall i: nat :: i < |p| ==> Orderly(p, i)
  }

  // ----- in which argument of which call -----

  /** The calls that are open, and which argument of each comes next. */
  datatype Spot = Spot(open: seq<Opening>, passed: seq<nat>)

  function SpotAt(p: Code, i: nat): Spot
    requires i <= |p|
  {
    Spot(OpenAt(p, i), ArgsAt(p, i))
  }

  /** Where the quad at i mentions a temporary: the result of a call stands outside it. */
  function SpotOf(p: Code, i: nat, t: nat): Spot
    requires i < |p|
  {
    if IsCall(p[i]) && p[i].res == ATemp(t) then Spot(Front(OpenAt(p, i)), Front(ArgsAt(p, i))) else SpotAt(p, i)
  }

  type Spots = nat -> Spot

  /** Every temporary lives in one argument of one call. */
  ghost predicate Spotted(p: Code, spot: Spots)
  {
    forall i: nat, t: nat :: i < |p| && Mentions(p[i], ATemp(t)) ==> spot(t) == SpotOf(p, i, t)
  }

  // ----- calls opened once are open once -----

  ghost predicate Older(open: seq<Opening>, count: nat)
  {
    (forall a :: 0 <= a < |open| ==> open[a].k < count)
    && (forall a, b :: 0 <= a < b < |open| ==> open[a].k < open[b].k)
  }

  lemma {:induction false} OpenOlder(p: Code, i: nat)
    requires i <= |p|
    ensures Older(OpenAt(p, i), NestAt(p, i).count)
  {
    if i > 0 {
      OpenOlder(p, i - 1);
    }
  }

  lemma {:induction false} CountGrows(p: Code, i: nat, j: nat)
    requires i <= j <= |p|
    ensures NestAt(p, i).count <= NestAt(p, j).count
    decreases j - i
  {
    if i < j {
      CountGrows(p, i, j - 1);
    }
  }

  lemma WithoutNewest(A: seq<Opening>, open: seq<Opening>, newest: Opening)
    requires A <= open + [newest] && Older(A, newest.k)
    ensures A <= open
  {
    var all := open + [newest];
    assert all[|open|] == newest;
    assert forall m :: 0 <= m < |A| ==> A[m] == all[m] && all[m].k < newest.k;
    assert A == all[..|A|];
  }

  /** Calls that are open at two points are open in between. */
  lemma {:induction false} StillOpen(p: Code, i: nat, k: nat, j: nat, A: seq<Opening>)
    requires i <= k <= j <= |p| && Older(A, NestAt(p, i).count) && A <= OpenAt(p, j)
    ensures A <= OpenAt(p, k)
    decreases j - k
  {
    if k < j {
      StillOpen(p, i, k + 1, j, A);
      CountGrows(p, i, k);
      if IsHint(p[k]) {
        WithoutNewest(A, OpenAt(p, k), Opening(NestAt(p, k).count, p[k].res));
      }
    }
  }

  /** A mention lies inside the calls its temporary lives in. */
  lemma HomeIsOpen(p: Code, i: nat, t: nat)
    requires i < |p|
    ensures HomeAt(p, i, t) <= OpenAt(p, i) && Older(HomeAt(p, i, t), NestAt(p, i).count)
    ensures HomeAt(p, i, t) <= OpenAt(p, i + 1) || !(IsCall(p[i]) && p[i].res == ATemp(t))
  {
    OpenOlder(p, i);
  }

  /** Between two mentions control is inside the calls a temporary lives in. */
  lemma HomeBetween(p: Code, home: Homes, t: nat, i: nat, k: nat, j: nat)
    requires Housed(p, home) && i <= k <= j < |p| && Mentions(p[i], ATemp(t)) && Mentions(p[j], ATemp(t))
    ensures home(t) <= OpenAt(p, k)
  {
    HomeIsOpen(p, i, t);
    HomeIsOpen(p, j, t);
    StillOpen(p, i, k, j, home(t));
  }

  /** Once a call is closed nothing that lives in it is mentioned again. */
  lemma NotAfterClose(p: Code, home: Homes, t: nat, i: nat, j: nat)
    requires Housed(p, home) && i < j < |p| && IsCall(p[i]) && OpenAt(p, i) != [] && home(t) == OpenAt(p, i)
    ensures !Mentions(p[j], ATemp(t))
  {
    if Mentions(p[j], ATemp(t)) {
      HomeIsOpen(p, j, t);
      OpenOlder(p, i);
      CountGrows(p, i, i + 1);
      StillOpen(p, i, i + 1, j, home(t));
    }
  }

  lemma {:induction false} NestSizes(p: Code, i: nat)
    requires i <= |p|
    ensures |ArgsAt(p, i)| == |OpenAt(p, i)|
  {
    if i > 0 {
      NestSizes(p, i - 1);
    }
  }

  /** While a call is open it is passed more and more arguments. */
  lemma {:induction false} PassedGrows(p: Code, i: nat, j: nat, A: seq<Opening>)
    requires i <= j <= |p| && A != [] && A <= OpenAt(p, i) && A <= OpenAt(p, j)
    ensures |ArgsAt(p, i)| == |OpenAt(p, i)| && |ArgsAt(p, j)| == |OpenAt(p, j)|
    ensures ArgsAt(p, i)[|A| - 1] <= ArgsAt(p, j)[|A| - 1]
    decreases j
  {
    NestSizes(p, i);
    NestSizes(p, j);
    if i < j {
      OpenOlder(p, i);
      PrefixOlder(A, OpenAt(p, i), NestAt(p, i).count);
      StillOpen(p, i, j - 1, j, A);
      PassedGrows(p, i, j - 1, A);
      OnePassed(p[j - 1], NestAt(p, j - 1), A);
    }
  }

  lemma PrefixOlder(A: seq<Opening>, open: seq<Opening>, count: nat)
    requires A <= open && Older(open, count)
    ensures Older(A, count)
  {
    assert forall a :: 0 <= a < |A| ==> A[a] == open[a];
  }

  lemma OnePassed(q: Quad, n: Nest, A: seq<Opening>)
    requires A != [] && A <= n.open && A <= Enter(q, n).open && |n.passed| == |n.open|
    ensures |Enter(q, n).passed| == |Enter(q, n).open| && n.passed[|A| - 1] <= Enter(q, n).passed[|A| - 1]
    ensures IsArg(q) && |A| == |n.open| ==> Enter(q, n).passed[|A| - 1] == n.passed[|A| - 1] + 1
  {
  }

  /** What is mentioned for the first time while an argument is computed is not mentioned after it has been passed:
      u is the argument passed at i, mentioned at s already, and t is mentioned in between. */
  lemma InsideArgument(p: Code, spot: Spots, s: nat, j: nat, i: nat, u: nat, t: nat, m: nat)
    requires Spotted(p, spot) && s <= j <= i < m < |p| && IsArg(p[i]) && p[i].arg1 == ATemp(u) && OpenAt(p, i) != []
    requires Mentions(p[s], ATemp(u)) && Mentions(p[j], ATemp(t)) && !(IsCall(p[j]) && p[j].res == ATemp(t))
    ensures !Mentions(p[m], ATemp(t))
  {
    hide NestAt, Enter;
    var A, n := OpenAt(p, i), |OpenAt(p, i)| - 1;
    assert Mentions(p[i], ATemp(u));
    assert spot(u) == SpotAt(p, i) == SpotOf(p, s, u);
    SpotOpen(p, s, u);
    StillOpen(p, s, j, i, A);
    PassedGrows(p, s, j, A);
    PassedGrows(p, j, i, A);
    if Mentions(p[m], ATemp(t)) {
      assert spot(t) == SpotAt(p, j) == SpotOf(p, m, t);
      SpotOpen(p, m, t);
      OpenOlder(p, s);
      StillOpen(p, s, i + 1, m, A);
      PassedGrows(p, i + 1, m, A);
      NestSizes(p, i);
      ArgPassed(p, i, A);
    }
  }

  lemma ArgPassed(p: Code, i: nat, A: seq<Opening>)
    requires i < |p| && IsArg(p[i]) && A != [] && A == OpenAt(p, i) && A <= OpenAt(p, i + 1) && |ArgsAt(p, i)| == |OpenAt(p, i)|
    ensures |ArgsAt(p, i + 1)| == |OpenAt(p, i + 1)| && ArgsAt(p, i + 1)[|A| - 1] == ArgsAt(p, i)[|A| - 1] + 1
  {
    OnePassed(p[i], NestAt(p, i), A);
  }

  /** What holds of the spot of a mention holds where the mention stands. */
  lemma SpotOpen(p: Code, i: nat, t: nat)
    requires i < |p|
    ensures var sp := SpotOf(p, i, t);
            && |sp.passed| == |sp.open| <= |OpenAt(p, i)| == |ArgsAt(p, i)| && sp.open <= OpenAt(p, i)
            && Older(sp.open, NestAt(p, i).count)
            && forall a :: 0 <= a < |sp.passed| ==> sp.passed[a] == ArgsAt(p, i)[a]
  {
    NestSizes(p, i);
    OpenOlder(p, i);
  }
}
