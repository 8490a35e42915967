/** Sizes of types against the addresses that indexing and member access compute. */
module Layout {
  import opened Words

  datatype Type =
    | Prim(size: nat)
    | Arr(dim: nat, base: Type)
    | Struct(members: seq<Member>)
    | Union(members: seq<Member>)

  datatype Member = Member(name: string, t: Type)

  /** Arrays multiply, structs add up without padding, unions take the largest member. */
  function SizeOf(t: Type): nat
    decreases t, 0
  {
    match t
    case Prim(n) => n
    case Arr(d, b) => d * SizeOf(b)
    case Struct(ms) => SumSizes(ms)
    case Union(ms) => MaxSize(ms)
  }

  function SumSizes(ms: seq<Member>): nat
    decreases ms, 0
  {
    if ms == [] then 0 else SumSizes(ms[..|ms| - 1]) + SizeOf(ms[|ms| - 1].t)
  }

  function MaxSize(ms: seq<Member>): nat
    decreases ms, 0
  {
    if ms == [] then 0
    else
      var m, n := MaxSize(ms[..|ms| - 1]), SizeOf(ms[|ms| - 1].t);
      if m >= n then m else n
  }

  /** The size a struct or union is given by going over its members. */
  method ResolveMembers(ms: seq<Member>, isUnion: bool) returns (size: nat)
    ensures size == SizeOf(if isUnion then Union(ms) else Struct(ms))
  {
    size := 0;
    for i := 0 to |ms|
      invariant size == if isUnion then MaxSize(ms[..i]) else SumSizes(ms[..i])
    {
      assert ms[..i + 1][..i] == ms[..i];
      if isUnion {
        size := if size >= SizeOf(ms[i].t) then size else SizeOf(ms[i].t);
      } else {
        size := size + SizeOf(ms[i].t);
      }
    }
    assert ms[..|ms|] == ms;
  }

  // ----- members -----

  /** The first member of a name. */
  predicate IsFirst(ms: seq<Member>, name: string, i: nat)
  {
    i < |ms| && ms[i].name == name && forall j :: 0 <= j < i ==> ms[j].name != name
  }

  /** The offset of a member: the sizes of the members before the first one of that name; 0 in a union. */
  method DotOffset(ms: seq<Member>, isUnion: bool, name: string) returns (offset: nat)
    ensures isUnion ==> offset == 0
    ensures !isUnion ==> forall i: nat :: IsFirst(ms, name, i) ==> offset == SumSizes(ms[..i])
  {
    offset := 0;
    var i := 0;
    while i < |ms| && !isUnion && ms[i].name != name
      invariant 0 <= i <= |ms| && offset == (if isUnion then 0 else SumSizes(ms[..i]))
      invariant forall j :: 0 <= j < i ==> ms[j].name != name
    {
      assert ms[..i + 1][..i] == ms[..i];
      offset := offset + SizeOf(ms[i].t);
      i := i + 1;
    }
  }

  /** Where the i-th member of a struct starts. */
  function Start(ms: seq<Member>, i: nat): nat
    requires i <= |ms|
  {
    SumSizes(ms[..i])
  }

  /** Members tile the struct: the first starts at 0, each starts where the one before ends, and the last
      ends at the size of the struct. */
  lemma StructTiles(ms: seq<Member>)
    ensures Start(ms, 0) == 0 && Start(ms, |ms|) == SizeOf(Struct(ms))
    ensures forall i :: 0 <= i < |ms| ==> Start(ms, i + 1) == Start(ms, i) + SizeOf(ms[i].t)
  {
    assert ms[..|ms|] == ms;
    forall i | 0 <= i < |ms|
      ensures Start(ms, i + 1) == Start(ms, i) + SizeOf(ms[i].t)
    {
      assert ms[..i + 1][..i] == ms[..i];
    }
  }

  lemma {:induction false} StartsGrow(ms: seq<Member>, i: nat, j: nat)
    requires i < j <= |ms|
    ensures Start(ms, i) + SizeOf(ms[i].t) <= Start(ms, j)
    decreases j - i
  {
    StructTiles(ms);
    if i + 1 < j {
      StartsGrow(ms, i, j - 1);
    }
  }

  /** Every byte of a struct belongs to exactly one member. */
  lemma {:induction false} ByteOwner(ms: seq<Member>, b: nat, n: nat) returns (i: nat)
    requires n <= |ms| && b < Start(ms, n)
    ensures i < n && Start(ms, i) <= b < Start(ms, i) + SizeOf(ms[i].t)
    ensures forall j :: 0 <= j < |ms| && Start(ms, j) <= b < Start(ms, j) + SizeOf(ms[j].t) ==> j == i
    decreases n
  {
    StructTiles(ms);
    if b >= Start(ms, n - 1) {
      i := n - 1;
    } else {
      i := ByteOwner(ms, b, n - 1);
    }
    forall j | 0 <= j < |ms| && Start(ms, j) <= b < Start(ms, j) + SizeOf(ms[j].t)
      ensures j == i
    {
      if j < i {
        StartsGrow(ms, j, i);
      } else if i < j {
        StartsGrow(ms, i, j);
      }
    }
  }

  /** Every member of a union fits at offset 0, and some member fills it. */
  lemma {:induction false} UnionFits(ms: seq<Member>)
    ensures forall i :: 0 <= i < |ms| ==> SizeOf(ms[i].t) <= SizeOf(Union(ms))
    ensures ms != [] ==> exists i :: 0 <= i < |ms| && SizeOf(ms[i].t) == SizeOf(Union(ms))
  {
    if ms != [] {
      var n := |ms| - 1;
      UnionFits(ms[..n]);
      assert forall i :: 0 <= i < n ==> ms[..n][i] == ms[i];
      if MaxSize(ms[..n]) >= SizeOf(ms[n].t) && n > 0 {
        var i :| 0 <= i < |ms[..n]| && SizeOf(ms[..n][i].t) == SizeOf(Union(ms[..n]));
        assert SizeOf(ms[i].t) == SizeOf(Union(ms));
      } else {
        assert SizeOf(ms[n].t) == SizeOf(Union(ms));
      }
    }
  }

  // ----- arrays -----

  /** The type declared with dimensions `dims` in the order in which they are written. */
  function ArrayOf(dims: seq<nat>, elem: Type): Type
  {
    if dims == [] then elem else Arr(dims[|dims| - 1], ArrayOf(dims[..|dims| - 1], elem))
  }

  /** The type after k indices. */
  function Indexed(t: Type, k: nat): Type
  {
    if k == 0 || !t.Arr? then t else Indexed(t.base, k - 1)
  }

  function Product(dims: seq<nat>): nat
  {
    if dims == [] then 1 else Product(dims[..|dims| - 1]) * dims[|dims| - 1]
  }

  /** The byte offset of a chain of indices: the last one is multiplied by the size of the type after one
      index, the one before it by the size after two, and so on. */
  function Offset(t: Type, idx: seq<nat>): nat
    decreases |idx|
  {
    if idx == [] then 0
    else idx[|idx| - 1] * SizeOf(Indexed(t, 1)) + Offset(Indexed(t, 1), idx[..|idx| - 1])
  }

  /** The sizes are collected from the last index inward; then they are used up from the other end. */
  method IndexOffset(t: Type, idx: seq<nat>) returns (offset: nat)
    requires idx != []
    ensures offset == Offset(t, idx)
  {
    var sizes: seq<nat> := [];
    var n := |idx|;
    for k := 0 to n
      invariant |sizes| == k && forall j :: 0 <= j < k ==> sizes[j] == SizeOf(Indexed(t, n - j))
    {
      sizes := sizes + [SizeOf(Indexed(t, n - k))];
    }
    offset := 0;
    var dims := n;
    assert idx[..n] == idx;
    while dims > 0
      invariant 0 <= dims <= n
      invariant offset + Offset(Indexed(t, n - dims), idx[..dims]) == Offset(t, idx)
    {
      var typesize := sizes[dims - 1];
      assert idx[..dims][..dims - 1] == idx[..dims - 1];
      IndexedTwice(t, n - dims);
      offset := offset + idx[dims - 1] * typesize;
      dims := dims - 1;
    }
  }

  lemma {:induction false} IndexedTwice(t: Type, k: nat)
    ensures Indexed(Indexed(t, k), 1) == Indexed(t, k + 1)
    decreases k
  {
    if k > 0 && t.Arr? {
      IndexedTwice(t.base, k - 1);
    }
  }

  /** In range: each index is below the dimension written at its place. */
  predicate InRange(dims: seq<nat>, idx: seq<nat>)
  {
    |idx| == |dims| && forall k :: 0 <= k < |dims| ==> idx[k] < dims[k]
  }

  lemma {:induction false} ArraySize(dims: seq<nat>, elem: Type)
    ensures SizeOf(ArrayOf(dims, elem)) == Product(dims) * SizeOf(elem)
  {
    if dims != [] {
      var n := |dims| - 1;
      ArraySize(dims[..n], elem);
      calc {
        SizeOf(ArrayOf(dims, elem));
        dims[n] * (Product(dims[..n]) * SizeOf(elem));
        Product(dims) * SizeOf(elem);
      }
    }
  }

  /** The number of the element an index tuple designates: mixed radix, the first index varying fastest. */
  function Rank(dims: seq<nat>, idx: seq<nat>): nat
    requires |idx| == |dims|
  {
    if dims == [] then 0
    else
      var n := |dims| - 1;
      idx[n] * Product(dims[..n]) + Rank(dims[..n], idx[..n])
  }

  /** The address computed is the element's number times its size. */
  lemma {:induction false} OffsetIsRank(dims: seq<nat>, elem: Type, idx: seq<nat>)
    requires |idx| == |dims|
    ensures Offset(ArrayOf(dims, elem), idx) == Rank(dims, idx) * SizeOf(elem)
  {
    if dims != [] {
      var n := |dims| - 1;
      OffsetIsRank(dims[..n], elem, idx[..n]);
      ArraySize(dims[..n], elem);
      OffsetStep(dims, elem, idx);
      Distribute(idx[n], Product(dims[..n]), Rank(dims[..n], idx[..n]), SizeOf(elem));
    }
  }

  lemma OffsetStep(dims: seq<nat>, elem: Type, idx: seq<nat>)
    requires |idx| == |dims| > 0
    ensures var n, inner := |dims| - 1, ArrayOf(dims[..|dims| - 1], elem);
            Offset(ArrayOf(dims, elem), idx) == idx[n] * SizeOf(inner) + Offset(inner, idx[..n])
  {
    hide SizeOf;
    assert Indexed(ArrayOf(dims, elem), 1) == ArrayOf(dims[..|dims| - 1], elem);
  }

  lemma Distribute(a: int, b: int, c: int, d: int)
    ensures a * (b * d) + c * d == (a * b + c) * d
  {
  }

  lemma {:induction false} RankBound(dims: seq<nat>, idx: seq<nat>)
    requires InRange(dims, idx)
    ensures Rank(dims, idx) < Product(dims)
  {
    if dims != [] {
      var n := |dims| - 1;
      RankBound(dims[..n], idx[..n]);
      DigitBound(idx[n], dims[n], Product(dims[..n]), Rank(dims[..n], idx[..n]));
    }
  }

  lemma DigitBound(i: nat, d: nat, p: nat, r: nat)
    requires i < d && r < p
    ensures i * p + r < p * d
  {
    MulMono(i + 1, d, p);
  }

  lemma MulMono(a: int, b: int, c: nat)
    requires a <= b
    ensures a * c <= b * c
  {
  }

  /** Different tuples, different elements. */
  lemma {:induction false} RankInjective(dims: seq<nat>, a: seq<nat>, b: seq<nat>)
    requires InRange(dims, a) && InRange(dims, b) && Rank(dims, a) == Rank(dims, b)
    ensures a == b
  {
    if dims != [] {
      var n := |dims| - 1;
      var p := Product(dims[..n]);
      RankBound(dims[..n], a[..n]);
      RankBound(dims[..n], b[..n]);
      DivModUnique(Rank(dims, a), p, a[n], Rank(dims[..n], a[..n]));
      DivModUnique(Rank(dims, b), p, b[n], Rank(dims[..n], b[..n]));
      RankInjective(dims[..n], a[..n], b[..n]);
      assert a == a[..n] + [a[n]] && b == b[..n] + [b[n]];
    }
  }

  /** Every element has a tuple. */
  lemma {:induction false} RankSurjective(dims: seq<nat>, r: nat) returns (idx: seq<nat>)
    requires r < Product(dims)
    ensures InRange(dims, idx) && Rank(dims, idx) == r
  {
    if dims == [] {
      idx := [];
    } else {
      var n := |dims| - 1;
      var p := Product(dims[..n]);
      Euclid(r, p) by { PositiveFactor(p, dims[n]); }
      var i := r / p;
      QuotientBelow(r, p, dims[n]);
      var rest := RankSurjective(dims[..n], r % p);
      idx := rest + [i];
      assert idx[..n] == rest;
    }
  }

  lemma PositiveFactor(p: nat, d: nat)
    requires p * d > 0
    ensures p > 0
  {
  }

  lemma QuotientBelow(r: nat, p: nat, d: nat)
    requires p > 0 && r < p * d
    ensures 0 <= r / p < d
  {
    Euclid(r, p);
    if r / p >= d {
      MulMono(d, r / p, p);
    }
  }

  /** Fully applied indices in range are one-to-one onto the element slots of the array. */
  lemma IndexingOntoSlots(dims: seq<nat>, elem: Type, idx: seq<nat>)
    requires InRange(dims, idx)
    ensures var t := ArrayOf(dims, elem);
            && Offset(t, idx) == Rank(dims, idx) * SizeOf(elem)
            && Offset(t, idx) + SizeOf(elem) <= SizeOf(t)
    ensures SizeOf(elem) > 0 ==> forall other ::
              InRange(dims, other) && Offset(ArrayOf(dims, elem), other) == Offset(ArrayOf(dims, elem), idx) ==>
                  other == idx
  {
    hide SizeOf, Rank, Offset, Product, ArrayOf;
    OffsetIsRank(dims, elem, idx);
    ArraySize(dims, elem);
    RankBound(dims, idx);
    SlotFits(Rank(dims, idx), Product(dims), SizeOf(elem));
    forall other | SizeOf(elem) > 0 && InRange(dims, other)
                   && Offset(ArrayOf(dims, elem), other) == Offset(ArrayOf(dims, elem), idx)
      ensures other == idx
    {
      SameSlot(dims, elem, other, idx);
    }
  }

  lemma SlotFits(r: nat, n: nat, size: nat)
    requires r < n
    ensures r * size + size <= n * size
  {
    MulMono(r + 1, n, size);
  }

  lemma SameSlot(dims: seq<nat>, elem: Type, a: seq<nat>, b: seq<nat>)
    requires SizeOf(elem) > 0 && InRange(dims, a) && InRange(dims, b)
    requires Offset(ArrayOf(dims, elem), a) == Offset(ArrayOf(dims, elem), b)
    ensures a == b
  {
    hide SizeOf, Rank, Offset, Product, ArrayOf;
    OffsetIsRank(dims, elem, a);
    OffsetIsRank(dims, elem, b);
    Cancel(Rank(dims, a), Rank(dims, b), SizeOf(elem));
    RankInjective(dims, a, b);
  }

  lemma Cancel(a: int, b: int, c: nat)
    requires c > 0 && a * c == b * c
    ensures a == b
  {
    if a < b {
      MulMono(a + 1, b, c);
    } else {
      MulMono(b + 1, a + 1, c);
      if b < a {
        MulMono(b + 1, a, c);
      }
    }
  }

  lemma SlotsAreReached(dims: seq<nat>, elem: Type, r: nat) returns (idx: seq<nat>)
    requires r < Product(dims)
    ensures InRange(dims, idx) && Offset(ArrayOf(dims, elem), idx) == r * SizeOf(elem)
  {
    idx := RankSurjective(dims, r);
    OffsetIsRank(dims, elem, idx);
  }
}
