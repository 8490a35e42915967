/** Linear live ranges: from the first to the last quad that mentions an operand. */
module LiveRanges {
  import opened Ast
  import opened Quads
  import opened Liveness
  import opened Needs
  import opened Procedure

  datatype Range = Range(starts: nat, ends: nat)

  /** What a range is kept for: a temporary, or everything with the same name. */
  datatype Key = TempKey(t: nat) | NameKey(name: string)

  function KeyOf(a: Operand): Option<Key>
  {
    match a
    case ATemp(t) => Some(TempKey(t))
    case AName(x, _) => Some(NameKey(x))
    case _ => None
  }

  predicate Hits(q: Quad, k: Key)
  {
    q.Quad? && (KeyOf(q.res) == Some(k) || KeyOf(q.arg1) == Some(k) || KeyOf(q.arg2) == Some(k))
  }

  /** r spans the mentions of k in the first n quads: None when nothing mentions k. */
  ghost predicate Spans(p: Code, n: nat, k: Key, r: Option<Range>)
    requires n <= |p|
  {
    match r
    case None => forall i :: 0 <= i < n ==> !Hits(p[i], k)
    case Some(Range(s, e)) =>
      && s <= e < n && Hits(p[s], k) && Hits(p[e], k)
      && forall i :: 0 <= i < n && Hits(p[i], k) ==> s <= i <= e
  }

  /** A range after one more mention. */
  function Extend(r: Option<Range>, pos: nat): Range
  {
    if r.Some? then r.value.(ends := pos) else Range(pos, pos)
  }

  lemma SpansNext(p: Code, n: nat, k: Key, r: Option<Range>)
    requires n < |p| && Spans(p, n, k, r)
    ensures Spans(p, n + 1, k, if Hits(p[n], k) then Some(Extend(r, n)) else r)
  {
  }

  /** The two range maps of a procedure. */
  class ProcRanges {
    var cgt: map<nat, Range>
    var vars: map<string, Range>

    constructor ()
      ensures cgt == map[] && vars == map[]
    {
      cgt, vars := map[], map[];
    }

    function Of(k: Key): Option<Range>
      reads this
    {
      match k
      case TempKey(t) => if t in cgt then Some(cgt[t]) else None
      case NameKey(x) => if x in vars then Some(vars[x]) else None
    }

    method PutCgt(t: nat, pos: nat)
      modifies this`cgt
      ensures cgt == old(cgt)[t := Extend(old(Of(TempKey(t))), pos)]
    {
      if t !in cgt {
        cgt := cgt[t := Range(pos, pos)];
      } else {
        cgt := cgt[t := cgt[t].(ends := pos)];
      }
    }

    method PutVar(x: string, pos: nat)
      modifies this`vars
      ensures vars == old(vars)[x := Extend(old(Of(NameKey(x))), pos)]
    {
      if x !in vars {
        vars := vars[x := Range(pos, pos)];
      } else {
        vars := vars[x := vars[x].(ends := pos)];
      }
    }

    method PutAddr(a: Operand, pos: nat)
      modifies this
      ensures forall k :: Of(k) == if KeyOf(a) == Some(k) then Some(Extend(old(Of(k)), pos)) else old(Of(k))
    {
      match a {
        case ATemp(t) => PutCgt(t, pos);
        case AName(x, _) => PutVar(x, pos);
        case _ =>
      }
    }

    method ProcessQuad(q: Quad, pos: nat)
      requires q.Quad?
      modifies this
      ensures forall k :: Of(k) == if Hits(q, k) then Some(Extend(old(Of(k)), pos)) else old(Of(k))
    {
      PutAddr(q.res, pos);
      if q.arg1 != ANone {
        PutAddr(q.arg1, pos);
      }
      if q.arg2 != ANone {
        PutAddr(q.arg2, pos);
      }
    }

    /** One pass over the quads gives everything its range. A label has no operands. */
    method MakeForProc(p: Code)
      requires cgt == map[] && vars == map[]
      modifies this
      ensures forall k :: Spans(p, |p|, k, Of(k))
      ensures forall t :: TempSpans(p, t, if t in cgt then Some(cgt[t]) else None)
      ensures forall x :: NameSpans(p, x, if x in vars then Some(vars[x]) else None)
    {
      for i := 0 to |p|
        invariant forall k :: Spans(p, i, k, Of(k))
      {
        label before:
        forall k
          ensures Spans(p, i + 1, k, if Hits(p[i], k) then Some(Extend(Of(k), i)) else Of(k))
        {
          SpansNext(p, i, k, Of(k));
        }
        if p[i].Quad? {
          ProcessQuad(p[i], i);
        }
        forall k
          ensures Spans(p, i + 1, k, Of(k))
        {
          assert Of(k) == if Hits(p[i], k) then Some(Extend(old@before(Of(k)), i)) else old@before(Of(k));
        }
      }
      forall t: nat
        ensures TempSpans(p, t, if t in cgt then Some(cgt[t]) else None)
      {
        SpansTemp(p, t, Of(TempKey(t)));
      }
      forall x: string
        ensures NameSpans(p, x, if x in vars then Some(vars[x]) else None)
      {
        SpansName(p, x, Of(NameKey(x)));
      }
    }
  }

  // ----- the same by operands -----

  /** A name is kept track of whether it stands for a function or not. */
  predicate HasName(q: Quad, x: string)
  {
    Mentions(q, AName(x, false)) || Mentions(q, AName(x, true))
  }

  /** From the first quad with the temporary to the last. */
  ghost predicate TempSpans(p: Code, t: nat, r: Option<Range>)
  {
    match r
    case None => forall i :: 0 <= i < |p| ==> !Mentions(p[i], ATemp(t))
    case Some(Range(s, e)) =>
      && s < |p| && e < |p| && Mentions(p[s], ATemp(t)) && Mentions(p[e], ATemp(t))
      && forall i :: 0 <= i < |p| && Mentions(p[i], ATemp(t)) ==> s <= i <= e
  }

  /** From the first quad with the name to the last. */
  ghost predicate NameSpans(p: Code, x: string, r: Option<Range>)
  {
    match r
    case None => forall i :: 0 <= i < |p| ==> !HasName(p[i], x)
    case Some(Range(s, e)) =>
      && s < |p| && e < |p| && HasName(p[s], x) && HasName(p[e], x)
      && forall i :: 0 <= i < |p| && HasName(p[i], x) ==> s <= i <= e
  }

  lemma SpansTemp(p: Code, t: nat, r: Option<Range>)
    ensures Spans(p, |p|, TempKey(t), r) <==> TempSpans(p, t, r)
  {
    assert forall q :: Hits(q, TempKey(t)) == Mentions(q, ATemp(t));
  }

  lemma SpansName(p: Code, x: string, r: Option<Range>)
    ensures Spans(p, |p|, NameKey(x), r) <==> NameSpans(p, x, r)
  {
    assert forall q :: Hits(q, NameKey(x)) == HasName(q, x);
  }

  /** Although jumps go backward, the linear ranges are sound: a temporary of a procedure's code that
      may still be read at a point has a range that starts before the point and ends at it or later. */
  lemma RangesSound(body: Stmt, l: nat, pc: nat, t: nat, n: nat, r: Option<Range>)
    requires WellFormed(body, false) && Live(ProcCode(body, l), pc, t, n)
    requires Spans(ProcCode(body, l), |ProcCode(body, l)|, TempKey(t), r)
    ensures r.Some? && r.value.starts < pc <= r.value.ends
  {
    hide ProcCode, Live;
    var p := ProcCode(body, l);
    LiveCovered(body, l, pc, t, n);
    var i: nat :| 0 <= i < pc <= |p| && Mentions(p[i], ATemp(t));
    var j: nat :| pc <= j < |p| && Mentions(p[j], ATemp(t));
    assert Hits(p[i], TempKey(t)) && Hits(p[j], TempKey(t));
  }

  /** The same for any code in which nothing is needed where a jump goes back to, whatever has been
      rewritten in it: where control can come, what is needed lies inside its range. */
  lemma RangesCover(p: Code, pc: nat, t: nat, r: Option<Range>)
    requires Ordered(p) && Reach(p, pc) && NeedAt(p, pc, t) && Spans(p, |p|, TempKey(t), r)
    ensures r.Some? && r.value.starts < pc <= r.value.ends
  {
    hide Ordered, Needed, ReachIn;
    var n: nat :| ReachIn(p, pc, n);
    var i := WrittenAbove(p, pc, t, n);
    var m: nat :| Needed(p, pc, t, m);
    var j := ReadBelow(p, pc, t, m);
    assert Hits(p[i], TempKey(t)) && Hits(p[j], TempKey(t));
  }
}
