/** A pass leaves temporaries in the calls they live in. */
module OptHomes {
  import opened Quads
  import opened Liveness
  import opened Nests
  import opened Optimizer
  import opened OptSim
  import opened OptOrder

  /** Windows that are rewritten hold and leave quads only that do not concern calls, and no temporary is brought in. */
  lemma WindowInner(ctx: Contexts, p: Code, i: nat)
    requires i < |p| && Good(ctx, p, i) && Search(ctx, p[i..]) != NoPattern
    ensures var (out, k) := Rewrite(ctx, p[i..]);
            && (forall m :: i <= m < i + k ==> Inside(p[m]))
            && (out != [] ==> Inside(out[0]))
            && (forall t: nat :: out != [] && Mentions(out[0], ATemp(t)) ==> exists m :: i <= m < i + k && Mentions(p[m], ATemp(t)))
  {
    hide Gone, FoldFits, Folded, CastWord, FoldUn, FoldJump;
    var s, k := p[i..], Rewrite(ctx, p[i..]).1;
    WindowSizes(ctx, s);
    assert s[0] == p[i] && s[1] == p[i + 1];
    assert k == 3 ==> s[2] == p[i + 2];
  }

  lemma {:induction false} FlatNest(p: Code, i: nat, j: nat)
    requires i <= j <= |p| && forall m :: i <= m < j ==> Inside(p[m])
    ensures NestAt(p, j) == NestAt(p, i)
    decreases j - i
  {
    if i < j {
      FlatNest(p, i, j - 1);
    }
  }

  /** The calls open after a window are those open after what it becomes. */
  lemma WindowNest(ctx: Contexts, p: Code, i: nat, i': nat)
    requires i < |p| && Good(ctx, p, i) && Aligned(ctx, p, Pass(ctx, p), i, i')
    requires NestAt(Pass(ctx, p), i') == NestAt(p, i)
    ensures var (out, k) := Rewrite(ctx, p[i..]);
            && i + k <= |p| && i' + |out| <= |Pass(ctx, p)| && NestAt(Pass(ctx, p), i' + |out|) == NestAt(p, i + k)
  {
    hide Pass, Rewrite, Good, Aligned, Search;
    var p' := Pass(ctx, p);
    var (out, k) := Rewrite(ctx, p[i..]);
    WindowAt(ctx, p, p', i, i');
    WindowFlow(ctx, p, i);
    if Search(ctx, p[i..]) == NoPattern {
      OneQuad(ctx, p, i);
      assert p'[i' + 0] == out[0];
    } else {
      WindowInner(ctx, p, i);
      FlatNest(p, i, i + k);
      assert out != [] ==> p'[i' + 0] == out[0];
      FlatNest(p', i', i' + |out|);
    }
  }

  lemma OneQuad(ctx: Contexts, p: Code, i: nat)
    requires i < |p| && Search(ctx, p[i..]) == NoPattern
    ensures Rewrite(ctx, p[i..]) == ([p[i]], 1)
  {
    assert p[i..][0] == p[i];
  }

  /** The window a quad of the rewritten code comes from has the same calls open. */
  lemma {:induction false} OriginNest(ctx: Contexts, p: Code, i: nat, i': nat, j': nat) returns (a: nat)
    requires GoodFrom(ctx, p, i) && Aligned(ctx, p, Pass(ctx, p), i, i') && i' <= j' < |Pass(ctx, p)|
    requires i <= |p| && NestAt(Pass(ctx, p), i') == NestAt(p, i)
    ensures i <= a < |p| && Good(ctx, p, a) && GoodFrom(ctx, p, a) && Aligned(ctx, p, Pass(ctx, p), a, j')
    ensures Rewrite(ctx, p[a..]).0 == [Pass(ctx, p)[j']] && NestAt(Pass(ctx, p), j') == NestAt(p, a)
    decreases |p| - i
  {
    hide Pass, Rewrite, Good, Aligned, NestAt;
    var p' := Pass(ctx, p);
    InsideBoth(ctx, p, i, i');
    var (out, k) := Rewrite(ctx, p[i..]);
    WindowAt(ctx, p, p', i, i');
    WindowFlow(ctx, p, i);
    WindowNest(ctx, p, i, i');
    if out != [] && i' == j' {
      a := i;
      assert p'[i' + 0] == out[0];
    } else {
      a := OriginNest(ctx, p, i + k, i' + |out|, j');
    }
  }

  lemma FirstOrigin(ctx: Contexts, p: Code, j': nat) returns (a: nat)
    requires GoodFrom(ctx, p, 0) && j' < |Pass(ctx, p)|
    ensures a < |p| && Good(ctx, p, a) && GoodFrom(ctx, p, a) && Aligned(ctx, p, Pass(ctx, p), a, j')
    ensures Rewrite(ctx, p[a..]).0 == [Pass(ctx, p)[j']] && NestAt(Pass(ctx, p), j') == NestAt(p, a)
  {
    hide Pass, Rewrite, Good, Aligned, GoodFrom;
    StartAligned(ctx, p);
    a := OriginNest(ctx, p, 0, 0, j');
  }

  /** The same for a quad further on. */
  lemma NextOrigin(ctx: Contexts, p: Code, a: nat, i': nat, j': nat) returns (b: nat)
    requires a < |p| && GoodFrom(ctx, p, a) && Good(ctx, p, a) && Aligned(ctx, p, Pass(ctx, p), a, i')
    requires i' < j' < |Pass(ctx, p)| && |Rewrite(ctx, p[a..]).0| == 1 && NestAt(Pass(ctx, p), i') == NestAt(p, a)
    ensures a + Rewrite(ctx, p[a..]).1 <= b < |p| && Good(ctx, p, b)
    ensures Rewrite(ctx, p[b..]).0 == [Pass(ctx, p)[j']]
  {
    hide Pass, Rewrite, Good, Aligned, NestAt;
    WindowAt(ctx, p, Pass(ctx, p), a, i');
    WindowNest(ctx, p, a, i');
    b := OriginNest(ctx, p, a + Rewrite(ctx, p[a..]).1, i' + 1, j');
  }

  /** A label, an opening, an argument or a call comes from itself. */
  lemma SameQuad(ctx: Contexts, p: Code, a: nat, q: Quad)
    requires a < |p| && Good(ctx, p, a) && Rewrite(ctx, p[a..]).0 == [q] && !Inside(q)
    ensures p[a] == q && Rewrite(ctx, p[a..]).1 == 1
  {
    hide Good, Rewrite, Search;
    if Search(ctx, p[a..]) == NoPattern {
      OneQuad(ctx, p, a);
    } else {
      WindowInner(ctx, p, a);
    }
  }

  lemma PassLabels(ctx: Contexts, p: Code)
    requires GoodFrom(ctx, p, 0) && UniqueLabels(p)
    ensures UniqueLabels(Pass(ctx, p))
  {
    hide Pass, GoodFrom, Good, Rewrite, NestAt, Aligned, UniqueLabels;
    var p' := Pass(ctx, p);
    forall i, j | 0 <= i < j < |p'| && p'[i].Label? && p'[j].Label?
      ensures p'[i].id != p'[j].id
    {
      var a := FirstOrigin(ctx, p, i);
      var b := NextOrigin(ctx, p, a, i, j);
      SameQuad(ctx, p, a, p'[i]);
      SameQuad(ctx, p, b, p'[j]);
      ApartLabels(p, a, b);
    }
    PairwiseUnique(p');
  }

  lemma ApartLabels(p: Code, a: nat, b: nat)
    requires UniqueLabels(p) && a < b < |p| && p[a].Label? && p[b].Label?
    ensures p[a].id != p[b].id
  {
  }

  /** What a rewritten quad mentions is mentioned in its window, inside the same calls. */
  lemma MentionFrom(ctx: Contexts, p: Code, home: Homes, a: nat, q: Quad, t: nat)
    requires a < |p| && Good(ctx, p, a) && Rewrite(ctx, p[a..]).0 == [q] && Mentions(q, ATemp(t)) && Housed(p, home)
    ensures exists m :: a <= m < a + Rewrite(ctx, p[a..]).1 && m < |p| && Mentions(p[m], ATemp(t))
    ensures Inside(q) ==> home(t) == OpenAt(p, a)
  {
    hide Good, Rewrite, Search;
    if Search(ctx, p[a..]) == NoPattern {
      OneQuad(ctx, p, a);
    } else {
      var k := Rewrite(ctx, p[a..]).1;
      WindowInner(ctx, p, a);
      var m :| a <= m < a + k && Mentions(p[m], ATemp(t));
      FlatNest(p, a, m);
    }
  }

  lemma PassHoused(ctx: Contexts, p: Code, home: Homes)
    requires GoodFrom(ctx, p, 0) && Housed(p, home)
    ensures Housed(Pass(ctx, p), home)
  {
    hide Pass, GoodFrom, Good, Rewrite, NestAt, Aligned, Housed;
    var p' := Pass(ctx, p);
    forall i: nat, t: nat | i < |p'| && Mentions(p'[i], ATemp(t))
      ensures home(t) == HomeAt(p', i, t)
    {
      var a := FirstOrigin(ctx, p, i);
      MentionFrom(ctx, p, home, a, p'[i], t);
      if !Inside(p'[i]) {
        SameQuad(ctx, p, a, p'[i]);
        HousedHere(p, home, a, t);
      }
    }
    HousedFrom(p', home);
  }

  lemma HousedHere(p: Code, home: Homes, i: nat, t: nat)
    requires Housed(p, home) && i < |p| && Mentions(p[i], ATemp(t))
    ensures home(t) == HomeAt(p, i, t)
  {
  }

  lemma HousedFrom(p: Code, home: Homes)
    requires forall i: nat, t: nat :: i < |p| && Mentions(p[i], ATemp(t)) ==> home(t) == HomeAt(p, i, t)
    ensures Housed(p, home)
  {
  }

  lemma SpotFrom(ctx: Contexts, p: Code, spot: Spots, a: nat, q: Quad, t: nat)
    requires a < |p| && Good(ctx, p, a) && Rewrite(ctx, p[a..]).0 == [q] && Mentions(q, ATemp(t)) && Spotted(p, spot)
    ensures Inside(q) ==> spot(t) == SpotAt(p, a)
    ensures !Inside(q) ==> p[a] == q && spot(t) == SpotOf(p, a, t)
  {
    hide Good, Rewrite, Search;
    if Search(ctx, p[a..]) == NoPattern {
      OneQuad(ctx, p, a);
    } else {
      var k := Rewrite(ctx, p[a..]).1;
      WindowInner(ctx, p, a);
      var m :| a <= m < a + k && Mentions(p[m], ATemp(t));
      FlatNest(p, a, m);
    }
  }

  /** Temporaries stay in the arguments they live in. */
  lemma PassSpotted(ctx: Contexts, p: Code, spot: Spots)
    requires GoodFrom(ctx, p, 0) && Spotted(p, spot)
    ensures Spotted(Pass(ctx, p), spot)
  {
    hide Pass, GoodFrom, Good, Rewrite, NestAt, Aligned, Spotted;
    var p' := Pass(ctx, p);
    forall i: nat, t: nat | i < |p'| && Mentions(p'[i], ATemp(t))
      ensures spot(t) == SpotOf(p', i, t)
    {
      var a := FirstOrigin(ctx, p, i);
      SpotFrom(ctx, p, spot, a, p'[i], t);
    }
    SpottedFrom(p', spot);
  }

  lemma SpottedFrom(p: Code, spot: Spots)
    requires forall i: nat, t: nat :: i < |p| && Mentions(p[i], ATemp(t)) ==> spot(t) == SpotOf(p, i, t)
    ensures Spotted(p, spot)
  {
  }

  /** Where a jump of the rewritten code goes the same calls are open. */
  lemma PassJump(ctx: Contexts, p: Code, home: Homes, j': nat)
    requires GoodFrom(ctx, p, 0) && Framed(p, home) && UniqueLabels(p) && j' < |Pass(ctx, p)|
    requires Target(Pass(ctx, p), Pass(ctx, p)[j']).Some?
    ensures var p' := Pass(ctx, p);
            SameCalls(p', Target(p', p'[j']).value, j')
  {
    hide Pass, Good, Aligned, GoodFrom, Rewrite, FindLabel, NestAt, Housed, UniqueLabels, Search;
    var p' := Pass(ctx, p);
    var a := FirstOrigin(ctx, p, j');
    WindowFlow(ctx, p, a);
    var l := p'[j'].res.l;
    TargetFrom(ctx, p, l);
    var k', last := FindLabel(p', l, 0).value, Last(ctx, p, a);
    var b := FirstOrigin(ctx, p, k');
    SameQuad(ctx, p, b, p'[k']);
    LabelAt(p, b, l);
    if Search(ctx, p[a..]) == NoPattern {
      OneQuad(ctx, p, a);
    } else {
      WindowInner(ctx, p, a);
      FlatNest(p, a, last);
    }
    assert Orderly(p, last);
  }

  lemma PassOrderly(ctx: Contexts, p: Code, home: Homes, j': nat)
    requires GoodFrom(ctx, p, 0) && Framed(p, home) && UniqueLabels(p) && j' < |Pass(ctx, p)|
    ensures Orderly(Pass(ctx, p), j')
  {
    hide Pass, Good, Aligned, GoodFrom, Rewrite, FindLabel, NestAt, Housed, UniqueLabels, Search, LastMention;
    var p' := Pass(ctx, p);
    if Target(p', p'[j']).Some? {
      PassJump(ctx, p, home, j');
    }
    if !Inside(p'[j']) {
      var a := FirstOrigin(ctx, p, j');
      SameQuad(ctx, p, a, p'[j']);
      assert Orderly(p, a);
      if IsArg(p'[j']) && p'[j'].arg1.ATemp? {
        PassLast(ctx, p, home, a, j', p'[j'].arg1.t);
      }
    }
  }

  lemma PassLast(ctx: Contexts, p: Code, home: Homes, a: nat, i': nat, t: nat)
    requires Housed(p, home) && a < |p| && GoodFrom(ctx, p, a) && Good(ctx, p, a)
    requires Aligned(ctx, p, Pass(ctx, p), a, i')
    requires i' < |Pass(ctx, p)| && |Rewrite(ctx, p[a..]).0| == 1 && NestAt(Pass(ctx, p), i') == NestAt(p, a)
    requires LastMention(p, a, t)
    ensures LastMention(Pass(ctx, p), i', t)
  {
    hide Pass, Good, Aligned, GoodFrom, Rewrite, NestAt, Housed;
    var p' := Pass(ctx, p);
    forall j': nat | i' < j' < |p'|
      ensures !Mentions(p'[j'], ATemp(t))
    {
      var b := NextOrigin(ctx, p, a, i', j');
      if Mentions(p'[j'], ATemp(t)) {
        MentionFrom(ctx, p, home, b, p'[j'], t);
      }
    }
  }

  /** If every window may be rewritten, a pass leaves temporaries, calls and jumps framed. */
  lemma PassFramed(ctx: Contexts, p: Code, home: Homes)
    requires GoodFrom(ctx, p, 0) && Framed(p, home) && UniqueLabels(p)
    ensures Framed(Pass(ctx, p), home) && UniqueLabels(Pass(ctx, p))
  {
    hide Pass, GoodFrom, Housed, Orderly, UniqueLabels;
    PassHoused(ctx, p, home);
    PassLabels(ctx, p);
    forall i: nat | i < |Pass(ctx, p)|
      ensures Orderly(Pass(ctx, p), i)
    {
      PassOrderly(ctx, p, home, i);
    }
  }

  /** All passes together. */
  lemma {:induction false} PassesFramed(ctx: Contexts, p: Code, home: Homes)
    requires AllGood(ctx, p) && Framed(p, home) && UniqueLabels(p)
    ensures Framed(Passes(ctx, p), home) && UniqueLabels(Passes(ctx, p))
    decreases |p|
  {
    hide Pass, GoodFrom, Framed, UniqueLabels;
    PassShortens(ctx, p);
    if |Pass(ctx, p)| != |p| {
      PassFramed(ctx, p, home);
      PassesFramed(ctx, Pass(ctx, p), home);
    }
  }

  lemma {:induction false} PassesSpotted(ctx: Contexts, p: Code, spot: Spots)
    requires AllGood(ctx, p) && Spotted(p, spot)
    ensures Spotted(Passes(ctx, p), spot)
    decreases |p|
  {
    hide Pass, GoodFrom, Spotted;
    PassShortens(ctx, p);
    if |Pass(ctx, p)| != |p| {
      PassSpotted(ctx, p, spot);
      PassesSpotted(ctx, Pass(ctx, p), spot);
    }
  }
}
