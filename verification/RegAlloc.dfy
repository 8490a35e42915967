/** The storage allocator: every temporary gets a register or a frame slot; each register has a stack of ranges. */
module RegAlloc {
  import opened Ast
  import opened LiveRanges
  import opened Nests
  import HashMap

  datatype Reg = RAX | RBX | RCX | RDX | RSI | RDI | R8 | R9 | R10 | R11 | R12 | R13 | R14 | R15

  /** The order in which registers are saved before a call, tried for temporaries, and given to arguments. */
  const SAVE_ORDER: seq<Reg> := [RAX, RBX, RCX, RDX, RSI, RDI, R8, R9, R10, R11, R12, R13, R14, R15]
  const LOCAL_ORDER: seq<Reg> := [RAX, RBX, R10, R11, R12, R13, R14, R15, R9, R8, RCX, RDX, RDI, RSI]
  const PARAM_ORDER: seq<Reg> := [RDI, RSI, RDX, RCX, R8, R9]

  /** Where the range of a reserved register ends. */
  const LAST: nat := 0xFFFF_FFFF

  /** `mem` is a 16-bit offset from the frame pointer: below it in the frame, above it in the caller's. */
  datatype Loc = InReg(reg: Reg) | OnStack(mem: int, size: nat) | InData(name: string) | InCaller(mem: int)

  /** What can be stored: a temporary, while a quad has taken some registers for itself, or a variable in the frame
      or in the data segment. */
  datatype Addr = Cgt(t: nat, size: nat, held: seq<Reg>) | Var(name: string, size: nat, inData: bool)

  // ----- labels of locations -----

  function Digit(d: nat): char
    requires d < 10
  {
    (d + '0' as int) as char
  }

  function Decimal(n: nat): (s: string)
    ensures s != []
  {
    if n < 10 then [Digit(n)] else Decimal(n / 10) + [Digit(n % 10)]
  }

  lemma {:induction false} DecimalUnique(m: nat, n: nat)
    requires Decimal(m) == Decimal(n)
    ensures m == n
  {
    var s := Decimal(m);
    var last := |s| - 1;
    assert s[last] == Digit(m % 10) && s[last] == Digit(n % 10);
    if m >= 10 && n >= 10 {
      assert Decimal(m / 10) == s[..last] && Decimal(n / 10) == s[..last];
      DecimalUnique(m / 10, n / 10);
    }
  }

  /** The number some digits stand for. */
  function ReadDecimal(s: string): int
  {
    if s == [] then 0 else 10 * ReadDecimal(s[..|s| - 1]) + (s[|s| - 1] as int - '0' as int)
  }

  lemma {:induction false} DecimalReads(n: nat)
    ensures ReadDecimal(Decimal(n)) == n
  {
    var s := Decimal(n);
    if n >= 10 {
      DecimalReads(n / 10);
      assert s[..|s| - 1] == Decimal(n / 10);
    }
  }

  function TempLabel(t: nat): string
  {
    "c_" + Decimal(t)
  }

  lemma TempLabelUnique(t: nat, u: nat)
    requires TempLabel(t) == TempLabel(u)
    ensures t == u
  {
    assert TempLabel(t)[2..] == Decimal(t) && TempLabel(u)[2..] == Decimal(u);
    DecimalUnique(t, u);
  }

  lemma DifferentLabels(u: nat, t: nat)
    requires u != t
    ensures TempLabel(u) != TempLabel(t)
  {
    if TempLabel(u) == TempLabel(t) {
      TempLabelUnique(u, t);
    }
  }

  /** The key under which a location is remembered: a variable is its own name. */
  function LabelOf(a: Addr): string
  {
    match a
    case Cgt(t, _, _) => TempLabel(t)
    case Var(x, _, _) => x
  }

  // ----- the ranges of registers -----

  /** The ranges of each register, the latest last; None marks that the register has been saved. */
  type Stacks = map<Reg, seq<Option<Range>>>

  /** Ranges intersect if each starts before the other ends; a missing one intersects nothing. */
  function Intersects(a: Option<Range>, b: Option<Range>): bool
  {
    a.Some? && b.Some? && a.value.starts <= b.value.ends && b.value.starts <= a.value.ends
  }

  function StackOf(k: Stacks, r: Reg): seq<Option<Range>>
  {
    if r in k then k[r] else []
  }

  function Peek(k: Stacks, r: Reg): Option<Range>
  {
    var s := StackOf(k, r);
    if s == [] then None else s[|s| - 1]
  }

  /** Replaces the latest range. */
  function Update(k: Stacks, r: Reg, lr: Option<Range>): Stacks
  {
    var s := StackOf(k, r);
    k[r := if s == [] then [lr] else s[|s| - 1 := lr]]
  }

  function PushMark(k: Stacks, r: Reg): Stacks
  {
    k[r := StackOf(k, r) + [None]]
  }

  function Drop(k: Stacks, r: Reg): Stacks
  {
    k[r := Front(StackOf(k, r))]
  }

  /** In use at pos or later. */
  predicate InUse(k: Stacks, r: Reg, pos: nat)
  {
    Intersects(Some(Range(pos, LAST)), Peek(k, r))
  }

  /** Takes a register from pos on, over a mark if it is in use. */
  function Reserve(k: Stacks, r: Reg, pos: nat): Stacks
  {
    Update(if InUse(k, r, pos) then PushMark(k, r) else k, r, Some(Range(pos, LAST)))
  }

  /** Those registers of a list that are in use, without the one the result goes to. */
  function BusyIn(k: Stacks, pos: nat, keep: Option<Reg>, order: seq<Reg>): seq<Reg>
  {
    if order == [] then []
    else
      var r := order[|order| - 1];
      BusyIn(k, pos, keep, Front(order)) + if InUse(k, r, pos) && keep != Some(r) then [r] else []
  }

  function BusyRegs(k: Stacks, pos: nat, keep: Option<Reg>): seq<Reg>
  {
    BusyIn(k, pos, keep, SAVE_ORDER)
  }

  function MarkAll(k: Stacks, regs: seq<Reg>): Stacks
  {
    if regs == [] then k else PushMark(MarkAll(k, Front(regs)), regs[|regs| - 1])
  }

  function DropAll(k: Stacks, regs: seq<Reg>): Stacks
  {
    if regs == [] then k else Drop(DropAll(k, Front(regs)), regs[|regs| - 1])
  }

  /** Gives back the registers of the arguments, then the saved ones. */
  function Close(k: Stacks, used: seq<Reg>, pushed: seq<Reg>): Stacks
  {
    DropAll(DropAll(k, used), pushed)
  }

  // ----- the allocator -----

  /** The ranges of the registers, the locations given so far, and the bytes of frame in use: the allocator as it
      would be if no location were ever lost. */
  datatype Alloc = Alloc(stacks: Stacks, locs: map<string, Loc>, lStack: nat)

  /** The first register in order whose latest range is out of the way. */
  function Pick(k: Stacks, lr: Option<Range>, order: seq<Reg>): (r: Option<Reg>)
    ensures r.Some? ==> !Intersects(lr, Peek(k, r.value))
  {
    if order == [] then None
    else if !Intersects(lr, Peek(k, order[0])) then Some(order[0])
    else Pick(k, lr, order[1..])
  }

  /** The registers of a list that are not held. */
  function Without(order: seq<Reg>, held: seq<Reg>): (r: seq<Reg>)
    ensures forall q :: q in r <==> q in order && q !in held
    ensures held == [] ==> r == order
  {
    if order == [] then []
    else if order[0] in held then Without(order[1..], held)
    else [order[0]] + Without(order[1..], held)
  }

  /** Two ranges intersect if and only if some position lies in both. */
  lemma IntersectShare(a: Range, b: Range)
    requires a.starts <= a.ends && b.starts <= b.ends
    ensures Intersects(Some(a), Some(b)) <==>
            exists pos: nat :: Covers(a, pos) && Covers(b, pos)
  {
    var pos := if a.starts <= b.starts then b.starts else a.starts;
    assert Intersects(Some(a), Some(b)) ==> Covers(a, pos) && Covers(b, pos);
  }

  predicate Covers(r: Range, pos: nat)
  {
    r.starts <= pos <= r.ends
  }

  /** A register is in use if and only if its latest range has not ended; a mark or nothing is not a range. */
  lemma InUseExact(k: Stacks, r: Reg, pos: nat)
    ensures InUse(k, r, pos) <==>
            r in k && k[r] != [] && k[r][|k[r]| - 1].Some? && pos <= k[r][|k[r]| - 1].value.ends
            && k[r][|k[r]| - 1].value.starts <= 0xFFFF_FFFF
  {
  }

  /** Reduction to a signed 16-bit offset. */
  function Offset(x: int): int
  {
    var w := x % 0x1_0000;
    if w < 0x8000 then w else w - 0x1_0000
  }

  function OnFrame(S: Alloc, a: Addr): Alloc
  {
    var l := S.lStack + a.size;
    S.(lStack := l, locs := S.locs[LabelOf(a) := OnStack(Offset(0 - l), a.size)])
  }

  function RangeOf(ranges: map<nat, Range>, t: nat): Option<Range>
  {
    if t in ranges then Some(ranges[t]) else None
  }

  /** The allocator after one request. */
  function Stored(ranges: map<nat, Range>, S: Alloc, a: Addr): Alloc
  {
    if LabelOf(a) in S.locs then S
    else match a
      case Cgt(t, _, held) =>
        var lr := RangeOf(ranges, t);
        (match Pick(S.stacks, lr, Without(LOCAL_ORDER, held))
         case Some(r) => S.(stacks := Update(S.stacks, r, lr), locs := S.locs[TempLabel(t) := InReg(r)])
         case None => OnFrame(S, a))
      case Var(x, _, inData) =>
        if inData then S.(locs := S.locs[x := InData(x)]) else OnFrame(S, a)
  }

  /** The place of argument or parameter number k: a register of its own, reserved, or the stack of the caller. */
  function Placed(S: Alloc, key: string, k: nat, pos: nat, pad: nat): Alloc
  {
    if k < |PARAM_ORDER| then
      S.(stacks := Reserve(S.stacks, PARAM_ORDER[k], pos), locs := S.locs[key := InReg(PARAM_ORDER[k])])
    else S.(locs := S.locs[key := InCaller(Offset(8 + pad + 8 * (k + 1 - |PARAM_ORDER|)))])
  }

  /** A parameter that came in a register is moved to the frame, and its register given back. */
  function Received(S: Alloc, x: string, size: nat, k: nat, pad: nat): Alloc
  {
    var S1 := Placed(S, x, k, 0, pad);
    if k < |PARAM_ORDER| then OnFrame(S1.(stacks := Drop(S1.stacks, PARAM_ORDER[k])), Var(x, size, false)) else S1
  }

  /** Where each argument goes: rdi, rsi, rdx, rcx, r8 and r9 in this order, and words of the caller's frame. */
  lemma ArgumentPlaces(S: Alloc, key: string, k: nat, pos: nat, pad: nat)
    ensures var S' := Placed(S, key, k, pos, pad);
            && key in S'.locs
            && S'.locs[key] == match k
                               case 0 => InReg(RDI)
                               case 1 => InReg(RSI)
                               case 2 => InReg(RDX)
                               case 3 => InReg(RCX)
                               case 4 => InReg(R8)
                               case 5 => InReg(R9)
                               case _ => InCaller(Offset(16 + pad + 8 * (k - 6)))
  {
  }

  /** The turn of each register when a temporary needs one. */
  function Turn(r: Reg): (n: nat)
    ensures n < 14
  {
    match r
    case RAX => 0 case RBX => 1 case R10 => 2 case R11 => 3 case R12 => 4 case R13 => 5 case R14 => 6 case R15 => 7
    case R9 => 8 case R8 => 9 case RCX => 10 case RDX => 11 case RDI => 12 case RSI => 13
  }

  lemma TurnIs(r: Reg)
    ensures |LOCAL_ORDER| == 14 && LOCAL_ORDER[Turn(r)] == r
  {
  }

  ghost predicate IsFirst(k: Stacks, lr: Option<Range>, order: seq<Reg>, i: nat)
  {
    i < |order| && !Intersects(lr, Peek(k, order[i])) && forall j :: 0 <= j < i ==> Intersects(lr, Peek(k, order[j]))
  }

  lemma {:induction false} PickFirst(k: Stacks, lr: Option<Range>, order: seq<Reg>) returns (i: nat)
    ensures match Pick(k, lr, order)
            case Some(r) => IsFirst(k, lr, order, i) && order[i] == r
            case None => forall j :: 0 <= j < |order| ==> Intersects(lr, Peek(k, order[j]))
  {
    hide Intersects, Peek;
    i := 0;
    if order != [] && Intersects(lr, Peek(k, order[0])) {
      i := PickFirst(k, lr, order[1..]);
      assert order == [order[0]] + order[1..];
      i := i + 1;
    }
  }

  lemma PickByTurn(k: Stacks, lr: Option<Range>, order: seq<Reg>, turn: Reg -> nat, r: Reg)
    requires forall q :: turn(q) < |order| && order[turn(q)] == q
    requires forall i :: 0 <= i < |order| ==> turn(order[i]) == i
    ensures Pick(k, lr, order) == Some(r) <==>
            !Intersects(lr, Peek(k, r)) && forall q :: turn(q) < turn(r) ==> Intersects(lr, Peek(k, q))
    ensures Pick(k, lr, order) == None <==> forall q :: Intersects(lr, Peek(k, q))
  {
    hide Intersects, Peek, Pick;
    var i := PickFirst(k, lr, order);
    if Pick(k, lr, order).Some? {
      assert turn(order[i]) == i;
      forall q | turn(q) < i
        ensures Intersects(lr, Peek(k, q))
      {
        assert order[turn(q)] == q;
      }
    } else {
      forall q
        ensures Intersects(lr, Peek(k, q))
      {
        assert order[turn(q)] == q;
      }
    }
  }

  /** A temporary gets the register whose turn comes first among those that are out of the way. */
  lemma FirstOut(k: Stacks, lr: Option<Range>, r: Reg)
    ensures Pick(k, lr, LOCAL_ORDER) == Some(r) <==>
            !Intersects(lr, Peek(k, r)) && forall q :: Turn(q) < Turn(r) ==> Intersects(lr, Peek(k, q))
    ensures Pick(k, lr, LOCAL_ORDER) == None <==> forall q :: Intersects(lr, Peek(k, q))
  {
    hide Intersects, Peek, Pick;
    forall q
      ensures Turn(q) < |LOCAL_ORDER| && LOCAL_ORDER[Turn(q)] == q
    {
      TurnIs(q);
    }
    forall i | 0 <= i < 14
      ensures Turn(LOCAL_ORDER[i]) == i
    {
      assert i in {0, 1, 2, 3, 4, 5, 6} || i in {7, 8, 9, 10, 11, 12, 13};
    }
    PickByTurn(k, lr, LOCAL_ORDER, Turn, r);
  }

  // ----- the same with the locations in the hash map -----

  type Hash = string -> nat

  type Locs = t: HashMap.Table<string, Loc> | HashMap.Shaped(t) witness HashMap.Fresh<string, Loc>(1)

  /** The allocator as it is: what it finds of the locations is what the table finds. */
  datatype AllocT = AllocT(stacks: Stacks, table: Locs, lStack: nat)

  /** The same ranges and the same frame, and no locations. */
  function Bare(S: AllocT): Alloc
  {
    Alloc(S.stacks, map[], S.lStack)
  }

  /** What has been done to ranges and frame, and the new location put into the table. */
  function Entered(hash: Hash, S: AllocT, key: string, A: Alloc): AllocT
  {
    AllocT(A.stacks, if key in A.locs then HashMap.PutT(hash, S.table, key, A.locs[key]) else S.table, A.lStack)
  }

  /** A request is granted anew if and only if the table does not find its label. */
  function StoredT(hash: Hash, ranges: map<nat, Range>, S: AllocT, a: Addr): AllocT
  {
    if HashMap.GetT(hash, S.table, LabelOf(a)).Some? then S
    else Entered(hash, S, LabelOf(a), Stored(ranges, Bare(S), a))
  }

  /** The new place of an argument is put over the one it has. */
  function PlacedT(hash: Hash, S: AllocT, key: string, k: nat, pos: nat, pad: nat): AllocT
  {
    Entered(hash, S, key, Placed(Bare(S), key, k, pos, pad))
  }

  /** A parameter that came in a register is put a second time when it is spilled. */
  function ReceivedT(hash: Hash, S: AllocT, x: string, size: nat, k: nat, pad: nat): AllocT
  {
    var S1 := PlacedT(hash, S, x, k, 0, pad);
    if k < |PARAM_ORDER| then
      var S2 := S1.(stacks := Drop(S1.stacks, PARAM_ORDER[k]));
      Entered(hash, S2, x, OnFrame(Bare(S2), Var(x, size, false)))
    else S1
  }

  class Allocator {
    const ranges: map<nat, Range>
    const locs: HashMap.ChainedMap<string, Loc>
    var stacks: Stacks
    var lStack: nat

    constructor (ranges: map<nat, Range>, locs: HashMap.ChainedMap<string, Loc>)
      requires HashMap.Shaped(locs.State())
      ensures this.ranges == ranges && this.locs == locs && Valid() && State() == AllocT(map[], locs.State(), 0)
    {
      this.ranges, this.locs, stacks, lStack := ranges, locs, map[], 0;
    }

    ghost predicate Valid()
      reads this, locs
    {
      HashMap.Shaped(locs.State())
    }

    function State(): AllocT
      reads this, locs
      requires HashMap.Shaped(locs.State())
    {
      AllocT(stacks, locs.State(), lStack)
    }

    /** What the table finds. */
    function Found(key: string): Option<Loc>
      reads this, locs
      requires HashMap.Shaped(locs.State())
    {
      HashMap.GetT(locs.hash, locs.State(), key)
    }

    method UpdateReg(r: Reg, lr: Option<Range>)
      modifies this`stacks
      ensures stacks == Update(old(stacks), r, lr)
    {
      if StackOf(stacks, r) == [] {
        stacks := stacks[r := [lr]];
      } else {
        stacks := stacks[r := stacks[r][|stacks[r]| - 1 := lr]];
      }
    }

    method PushReg(r: Reg)
      modifies this`stacks
      ensures stacks == PushMark(old(stacks), r)
    {
      stacks := stacks[r := StackOf(stacks, r) + [None]];
    }

    /** Also how a reserved register is given back. */
    method PopReg(r: Reg)
      modifies this`stacks
      ensures stacks == Drop(old(stacks), r)
    {
      stacks := stacks[r := Front(StackOf(stacks, r))];
    }

    method ReserveReg(r: Reg, pos: nat) returns (pushed: bool)
      modifies this`stacks
      ensures stacks == Reserve(old(stacks), r, pos) && pushed == InUse(old(stacks), r, pos)
    {
      pushed := InUse(stacks, r, pos);
      if pushed {
        PushReg(r);
      }
      UpdateReg(r, Some(Range(pos, LAST)));
    }

    /** Marks the registers in use, in the order of saving, and tells which they are. */
    method SaveBusy(pos: nat, keep: Option<Reg>) returns (pushed: seq<Reg>)
      modifies this`stacks
      ensures pushed == BusyRegs(old(stacks), pos, keep) && stacks == MarkAll(old(stacks), pushed)
    {
      OrdersDistinct();
      pushed := SaveIn(SAVE_ORDER, pos, keep);
    }

    method SaveIn(order: seq<Reg>, pos: nat, keep: Option<Reg>) returns (pushed: seq<Reg>)
      requires Distinct(order)
      modifies this`stacks
      ensures pushed == BusyIn(old(stacks), pos, keep, order) && stacks == MarkAll(old(stacks), pushed)
    {
      hide InUse, StackOf, PushMark, MarkAll, BusyIn;
      pushed := [];
      NoneSaved(stacks, pos, keep);
      assert order[..0] == [];
      for i := 0 to |order|
        invariant pushed == BusyIn(old(stacks), pos, keep, order[..i]) && stacks == MarkAll(old(stacks), pushed)
      {
        var r := order[i];
        SaveNext(old(stacks), pos, keep, order, i);
        if InUse(stacks, r, pos) && keep != Some(r) {
          PushReg(r);
          pushed := pushed + [r];
        }
      }
      assert order[..|order|] == order;
    }

    method MakeRegLoc(r: Reg, key: string) returns (loc: Loc)
      requires Valid()
      modifies locs
      ensures Valid() && loc == InReg(r) && locs.State() == HashMap.PutT(locs.hash, old(locs.State()), key, loc)
    {
      loc := InReg(r);
      locs.Put(key, loc);
    }

    method MakeStackLoc(a: Addr) returns (loc: Loc)
      requires Valid()
      modifies this`lStack, locs
      ensures Valid() && State() == Entered(locs.hash, old(State()), LabelOf(a), OnFrame(Bare(old(State())), a))
      ensures loc == OnStack(Offset(0 - lStack), a.size)
    {
      hide HashMap.PutT, LabelOf, Offset;
      lStack := lStack + a.size;
      loc := OnStack(Offset(0 - lStack), a.size);
      locs.Put(LabelOf(a), loc);
    }

    /** Tries the registers in order. */
    method FindReg(lr: Option<Range>, order: seq<Reg>) returns (r: Option<Reg>)
      ensures r == Pick(stacks, lr, order)
    {
      var i := 0;
      while i < |order|
        invariant 0 <= i <= |order|
        invariant Pick(stacks, lr, order) == Pick(stacks, lr, order[i..])
      {
        if !Intersects(lr, Peek(stacks, order[i])) {
          return Some(order[i]);
        }
        assert order[i..][1..] == order[i + 1..];
        i := i + 1;
      }
      r := None;
    }

    /** If no register is free the temporary goes to the frame. */
    method StoreCgt(a: Addr) returns (loc: Loc)
      requires Valid() && a.Cgt? && a.held == [] && Found(LabelOf(a)).None?
      modifies this, locs
      ensures Valid() && State() == StoredT(locs.hash, ranges, old(State()), a)
      ensures loc == Stored(ranges, Bare(old(State())), a).locs[LabelOf(a)]
    {
      hide HashMap.PutT, HashMap.GetT, Pick, TempLabel, Offset, Peek, Intersects;
      var lr := RangeOf(ranges, a.t);
      var r := FindReg(lr, LOCAL_ORDER);
      if r.Some? {
        UpdateReg(r.value, lr);
        loc := MakeRegLoc(r.value, LabelOf(a));
      } else {
        loc := MakeStackLoc(a);
      }
    }

    method StoreVar(a: Addr) returns (loc: Loc)
      requires Valid() && a.Var? && Found(LabelOf(a)).None?
      modifies this, locs
      ensures Valid() && State() == StoredT(locs.hash, ranges, old(State()), a)
      ensures loc == Stored(ranges, Bare(old(State())), a).locs[LabelOf(a)]
    {
      if a.inData {
        loc := InData(a.name);
        locs.Put(a.name, loc);
      } else {
        loc := MakeStackLoc(a);
      }
    }

    method Store(a: Addr) returns (loc: Loc)
      requires Valid() && (a.Cgt? ==> a.held == [])
      modifies this, locs
      ensures Valid() && State() == StoredT(locs.hash, ranges, old(State()), a) && Found(LabelOf(a)) == Some(loc)
      ensures old(Found(LabelOf(a))).Some? ==> loc == old(Found(LabelOf(a))).value
    {
      hide HashMap.PutT, HashMap.GetT, Stored, LabelOf;
      var has := locs.Has(LabelOf(a));
      if has {
        loc := locs.Get(LabelOf(a));
      } else {
        GrantedNew(locs.hash, ranges, State(), a);
        if a.Cgt? {
          loc := StoreCgt(a);
        } else {
          loc := StoreVar(a);
        }
      }
    }

    /** Argument or parameter number k is given the place the calling convention says. */
    method StoreParam(key: string, k: nat, pos: nat, pad: nat) returns (loc: Loc)
      requires Valid()
      modifies this, locs
      ensures Valid() && State() == PlacedT(locs.hash, old(State()), key, k, pos, pad)
      ensures loc == Placed(Bare(old(State())), key, k, pos, pad).locs[key]
      ensures loc == match k
                     case 0 => InReg(RDI)
                     case 1 => InReg(RSI)
                     case 2 => InReg(RDX)
                     case 3 => InReg(RCX)
                     case 4 => InReg(R8)
                     case 5 => InReg(R9)
                     case _ => InCaller(Offset(16 + pad + 8 * (k - 6)))
    {
      ArgumentPlaces(Bare(State()), key, k, pos, pad);
      if k < |PARAM_ORDER| {
        var _ := ReserveReg(PARAM_ORDER[k], pos);
        loc := MakeRegLoc(PARAM_ORDER[k], key);
      } else {
        loc := InCaller(Offset(8 + pad + 8 * (k + 1 - |PARAM_ORDER|)));
        locs.Put(key, loc);
      }
    }

    /** A parameter at the start of its procedure. */
    method ReceiveParam(x: string, size: nat, k: nat, pad: nat)
      requires Valid()
      modifies this, locs
      ensures Valid() && State() == ReceivedT(locs.hash, old(State()), x, size, k, pad)
    {
      var loc := StoreParam(x, k, 0, pad);
      if loc.InReg? {
        PopReg(loc.reg);
        var _ := MakeStackLoc(Var(x, size, false));
      }
    }

    /** What a finished call gives back: the registers of its arguments, then the saved ones. */
    method CloseRegs(used: seq<Reg>, pushed: seq<Reg>)
      modifies this`stacks
      ensures stacks == Close(old(stacks), used, pushed)
    {
      PopAll(used);
      PopAll(pushed);
    }

    method PopAll(regs: seq<Reg>)
      modifies this`stacks
      ensures stacks == DropAll(old(stacks), regs)
    {
      assert regs[..0] == [];
      for i := 0 to |regs|
        invariant stacks == DropAll(old(stacks), regs[..i])
      {
        assert Front(regs[..i + 1]) == regs[..i];
        PopReg(regs[i]);
      }
      assert regs[..|regs|] == regs;
    }
  }

  lemma {:induction false} FindPut(c: HashMap.Chain<string, Loc>, k: string, v: Loc)
    ensures HashMap.Find(HashMap.ChainPut(c, k, v), k) == Some(v)
  {
    if c != [] && c[0].0 != k {
      FindPut(c[1..], k, v);
    }
  }

  /** What is put is found. */
  lemma PutFound(hash: Hash, t: Locs, k: string, v: Loc)
    ensures HashMap.GetT(hash, HashMap.PutT(hash, t, k, v), k) == Some(v)
  {
    hide HashMap.RehashT, HashMap.NeedsRehash, HashMap.Find, HashMap.ChainPut;
    HashMap.PutParts(hash, t, k, v);
    var t1 := HashMap.Roomy(hash, t);
    FindPut(t1.buckets[hash(k) % t1.cap], k, v);
  }

  /** A request for something the table does not find gets a new location, which is found then. */
  lemma GrantedNew(hash: Hash, ranges: map<nat, Range>, S: AllocT, a: Addr)
    requires HashMap.GetT(hash, S.table, LabelOf(a)).None?
    ensures var A := Stored(ranges, Bare(S), a);
            LabelOf(a) in A.locs && HashMap.GetT(hash, StoredT(hash, ranges, S, a).table, LabelOf(a)) == Some(A.locs[LabelOf(a)])
  {
    hide HashMap.GetT, HashMap.PutT, Stored;
    StoredKeeps(ranges, Bare(S), a);
    PutFound(hash, S.table, LabelOf(a), Stored(ranges, Bare(S), a).locs[LabelOf(a)]);
  }

  lemma SameBusy(k: Stacks, k': Stacks, r: Reg, pos: nat)
    requires StackOf(k, r) == StackOf(k', r)
    ensures InUse(k, r, pos) == InUse(k', r, pos)
  {
  }

  lemma NoneSaved(k: Stacks, pos: nat, keep: Option<Reg>)
    ensures BusyIn(k, pos, keep, []) == [] && MarkAll(k, []) == k
  {
  }

  /** Marking the registers before one does not change whether it is in use. */
  lemma SaveNext(k: Stacks, pos: nat, keep: Option<Reg>, order: seq<Reg>, i: nat)
    requires i < |order| && Distinct(order)
    ensures var pushed, r := BusyIn(k, pos, keep, order[..i]), order[i];
            && InUse(MarkAll(k, pushed), r, pos) == InUse(k, r, pos)
            && MarkAll(k, pushed + [r]) == PushMark(MarkAll(k, pushed), r)
            && BusyIn(k, pos, keep, order[..i + 1]) ==
               if InUse(k, r, pos) && keep != Some(r) then pushed + [r] else pushed
  {
    hide InUse, StackOf, PushMark, MarkAll;
    var pushed, r := BusyIn(k, pos, keep, order[..i]), order[i];
    NextUnsaved(k, pos, keep, order, i);
    SameBusy(MarkAll(k, pushed), k, r, pos);
    assert Front(order[..i + 1]) == order[..i];
    MarkLast(k, pushed, r);
  }

  lemma MarkLast(k: Stacks, pushed: seq<Reg>, r: Reg)
    ensures MarkAll(k, pushed + [r]) == PushMark(MarkAll(k, pushed), r)
  {
    hide PushMark;
    FrontOf(pushed, r);
  }

  lemma NextUnsaved(k: Stacks, pos: nat, keep: Option<Reg>, order: seq<Reg>, i: nat)
    requires i < |order| && Distinct(order)
    ensures StackOf(MarkAll(k, BusyIn(k, pos, keep, order[..i])), order[i]) == StackOf(k, order[i])
  {
    hide InUse, StackOf, PushMark, MarkAll, BusyIn;
    SavedExactly(k, pos, keep, order[..i]);
    MarkedOnce(k, BusyIn(k, pos, keep, order[..i]), order[i]);
  }

  // ----- what saving, reserving and giving back do to one register -----

  /** Exactly the registers in use are saved, except the one for the result, and none twice. */
  lemma {:induction false} SavedExactly(k: Stacks, pos: nat, keep: Option<Reg>, order: seq<Reg>)
    requires Distinct(order)
    ensures forall r :: r in BusyIn(k, pos, keep, order) <==> r in order && InUse(k, r, pos) && keep != Some(r)
    ensures Distinct(BusyIn(k, pos, keep, order))
  {
    hide InUse;
    if order != [] {
      SavedExactly(k, pos, keep, Front(order));
      FrontIn(order);
      DistinctMore(BusyIn(k, pos, keep, Front(order)), order[|order| - 1]);
    }
  }

  lemma FrontIn(s: seq<Reg>)
    requires s != []
    ensures forall x :: x in s <==> x in Front(s) || x == s[|s| - 1]
    ensures Distinct(s) ==> Distinct(Front(s)) && s[|s| - 1] !in Front(s)
  {
    assert s == Front(s) + [s[|s| - 1]];
  }

  lemma DistinctMore(s: seq<Reg>, x: Reg)
    ensures Distinct(s) && x !in s ==> Distinct(s + [x])
  {
  }

  predicate Distinct(regs: seq<Reg>)
  {
    forall i, j :: 0 <= i < j < |regs| ==> regs[i] != regs[j]
  }

  function RegNumber(r: Reg): nat
  {
    match r
    case RAX => 0 case RBX => 1 case RCX => 2 case RDX => 3 case RSI => 4 case RDI => 5 case R8 => 6 case R9 => 7
    case R10 => 8 case R11 => 9 case R12 => 10 case R13 => 11 case R14 => 12 case R15 => 13
  }

  lemma EveryRegister(r: Reg)
    ensures SAVE_ORDER[RegNumber(r)] == r
  {
  }

  lemma OrdersDistinct()
    ensures Distinct(SAVE_ORDER) && Distinct(PARAM_ORDER)
  {
    forall i: nat | i < |SAVE_ORDER|
      ensures RegNumber(SAVE_ORDER[i]) == i
    {
      assert i in {0, 1, 2, 3, 4, 5, 6} || i in {7, 8, 9, 10, 11, 12, 13};
    }
  }

  lemma SavedRegs(k: Stacks, pos: nat, keep: Option<Reg>, r: Reg)
    ensures r in BusyRegs(k, pos, keep) <==> InUse(k, r, pos) && keep != Some(r)
    ensures Distinct(BusyRegs(k, pos, keep))
  {
    hide InUse;
    OrdersDistinct();
    SavedExactly(k, pos, keep, SAVE_ORDER);
    EveryRegister(r);
  }

  predicate Ascending(regs: seq<Reg>, n: nat)
  {
    && (forall r :: r in regs ==> RegNumber(r) < n)
    && forall i, j :: 0 <= i < j < |regs| ==> RegNumber(regs[i]) < RegNumber(regs[j])
  }

  lemma {:induction false} BusyAscends(k: Stacks, pos: nat, keep: Option<Reg>, order: seq<Reg>)
    requires forall i :: 0 <= i < |order| ==> RegNumber(order[i]) == i
    ensures Ascending(BusyIn(k, pos, keep, order), |order|)
  {
    hide InUse, RegNumber;
    if order != [] {
      BusyAscends(k, pos, keep, Front(order));
    }
  }

  /** Registers are saved in the order of their numbers. */
  lemma SavedInOrder(k: Stacks, pos: nat, keep: Option<Reg>)
    ensures Ascending(BusyRegs(k, pos, keep), 14)
  {
    hide InUse, RegNumber, BusyIn;
    forall n: nat | n < |SAVE_ORDER|
      ensures RegNumber(SAVE_ORDER[n]) == n
    {
      NumberAt(n);
    }
    BusyAscends(k, pos, keep, SAVE_ORDER);
  }

  lemma NumberAt(n: nat)
    requires n < |SAVE_ORDER|
    ensures RegNumber(SAVE_ORDER[n]) == n
  {
    assert n in {0, 1, 2, 3, 4, 5, 6} || n in {7, 8, 9, 10, 11, 12, 13};
  }

  lemma {:induction false} MarkedOnce(k: Stacks, regs: seq<Reg>, r: Reg)
    requires Distinct(regs)
    ensures StackOf(MarkAll(k, regs), r) == if r in regs then StackOf(k, r) + [None] else StackOf(k, r)
  {
    if regs != [] {
      MarkedOnce(k, Front(regs), r);
      assert regs == Front(regs) + [regs[|regs| - 1]];
    }
  }

  lemma {:induction false} DroppedOnce(k: Stacks, regs: seq<Reg>, r: Reg)
    requires Distinct(regs)
    ensures StackOf(DropAll(k, regs), r) == if r in regs then Front(StackOf(k, r)) else StackOf(k, r)
  {
    if regs != [] {
      DroppedOnce(k, Front(regs), r);
      assert regs == Front(regs) + [regs[|regs| - 1]];
    }
  }

  lemma ReserveOne(k: Stacks, r: Reg, pos: nat, q: Reg)
    ensures q != r ==> StackOf(Reserve(k, r, pos), q) == StackOf(k, q)
    ensures var s := StackOf(k, r);
            StackOf(Reserve(k, r, pos), r) ==
            (if InUse(k, r, pos) then s else Front(s)) + [Some(Range(pos, LAST))]
  {
    var s := StackOf(k, r);
    if InUse(k, r, pos) {
      assert (s + [None])[|s| := Some(Range(pos, LAST))] == s + [Some(Range(pos, LAST))];
    }
  }

  /** Taking a register for the length of a quad leaves its ranges as they were if and only if it had none or was
      in use: otherwise its latest range is lost, and if that is a mark, so is the record that it was saved. */
  lemma BracketExact(k: Stacks, r: Reg, pos: nat)
    ensures StackOf(Drop(Reserve(k, r, pos), r), r) == StackOf(k, r) <==> StackOf(k, r) == [] || InUse(k, r, pos)
  {
    ReserveOne(k, r, pos, r);
    var s := StackOf(k, r);
    assert Front(s + [Some(Range(pos, LAST))]) == s && Front(Front(s) + [Some(Range(pos, LAST))]) == Front(s);
    assert Front(s) == s <==> s == [];
  }

  /** The registers of arguments, reserved one after the other. */
  function ReserveAll(k: Stacks, args: seq<Reg>, pos: nat): Stacks
  {
    if args == [] then k else Reserve(ReserveAll(k, Front(args), pos), args[|args| - 1], pos)
  }

  lemma {:induction false} ReservedOnce(k: Stacks, args: seq<Reg>, pos: nat, r: Reg)
    requires Distinct(args)
    ensures StackOf(ReserveAll(k, args, pos), r) == if r in args then StackOf(Reserve(k, r, pos), r) else StackOf(k, r)
  {
    hide Reserve;
    if args != [] {
      var q := args[|args| - 1];
      assert args == Front(args) + [q];
      ReservedOnce(k, Front(args), pos, r);
      ReserveOne(ReserveAll(k, Front(args), pos), q, pos, r);
      ReserveSame(ReserveAll(k, Front(args), pos), k, q, pos);
    }
  }

  lemma ReserveSame(k: Stacks, k': Stacks, r: Reg, pos: nat)
    ensures StackOf(k, r) == StackOf(k', r) ==> StackOf(Reserve(k, r, pos), r) == StackOf(Reserve(k', r, pos), r)
  {
  }

  /** The ranges after a call opened at `pos` whose register arguments are passed at `at`. */
  function AroundCall(k: Stacks, pos: nat, keep: Option<Reg>, args: seq<Reg>, at: nat): Stacks
  {
    var pushed := BusyRegs(k, pos, keep);
    Close(ReserveAll(MarkAll(k, pushed), args, at), args, pushed)
  }

  /** One register across a call. */
  lemma AcrossCall(k: Stacks, pos: nat, keep: Option<Reg>, args: seq<Reg>, at: nat, r: Reg)
    requires Distinct(args) && pos <= at
    ensures StackOf(AroundCall(k, pos, keep, args, at), r) ==
            if r !in args || (keep == Some(r) && InUse(k, r, at)) then StackOf(k, r) else Front(StackOf(k, r))
    ensures r in BusyRegs(k, pos, keep) <==> InUse(k, r, pos) && keep != Some(r)
  {
    hide ReserveAll, MarkAll, DropAll, BusyRegs, Reserve, InUse, StackOf;
    var pushed, s := BusyRegs(k, pos, keep), StackOf(k, r);
    var marked, lr := MarkAll(k, pushed), Some(Range(at, LAST));
    var reserved := ReserveAll(marked, args, at);
    SavedRegs(k, pos, keep, r);
    MarkedOnce(k, pushed, r);
    ReservedOnce(marked, args, at, r);
    ReserveOne(marked, r, at, r);
    DroppedOnce(reserved, args, r);
    DroppedOnce(DropAll(reserved, args), pushed, r);
    FrontOf(s, None);
    FrontOf(s, lr);
    FrontOf(Front(s), lr);
    BusyEarlier(k, r, pos, at);
    if r in pushed {
      MarkedIdle(marked, s, r, at);
    } else {
      SameBusy(k, marked, r, at);
    }
  }

  lemma FrontOf<T>(s: seq<T>, x: T)
    ensures Front(s + [x]) == s
  {
  }

  lemma BusyEarlier(k: Stacks, r: Reg, pos: nat, at: nat)
    requires pos <= at
    ensures InUse(k, r, at) ==> InUse(k, r, pos)
  {
  }

  lemma MarkedIdle(k: Stacks, s: seq<Option<Range>>, r: Reg, at: nat)
    requires StackOf(k, r) == s + [None]
    ensures !InUse(k, r, at)
  {
  }

  /** A call leaves a register's ranges as they were if and only if it passes nothing in the register, or the
      register had none, or it is the result's and still in use. A saved register that is also passed in
      loses its latest range: marking and reserving share one entry, and closing drops two. */
  lemma CallExact(k: Stacks, pos: nat, keep: Option<Reg>, args: seq<Reg>, at: nat, r: Reg)
    requires Distinct(args) && pos <= at
    ensures StackOf(AroundCall(k, pos, keep, args, at), r) == StackOf(k, r) <==>
            r !in args || StackOf(k, r) == [] || (keep == Some(r) && InUse(k, r, at))
  {
    hide AroundCall, InUse;
    AcrossCall(k, pos, keep, args, at, r);
    var s := StackOf(k, r);
    assert Front(s) == s <==> s == [];
  }

  /** So a register that holds an argument of an outer call, and nothing else, is not saved by a second call
      among the arguments: the first one has taken it off the record. */
  lemma SecondCallForgets(k: Stacks, pos: nat, args: seq<Reg>, at: nat, r: Reg, next: nat, keep: Option<Reg>)
    requires Distinct(args) && pos <= at && r in args && InUse(k, r, pos) && |StackOf(k, r)| == 1
    ensures r in BusyRegs(k, pos, None) && r !in BusyRegs(AroundCall(k, pos, None, args, at), next, keep)
  {
    hide AroundCall, BusyRegs;
    AcrossCall(k, pos, None, args, at, r);
    SavedRegs(AroundCall(k, pos, None, args, at), next, keep, r);
  }

  // ----- a run of requests -----

  function StoreAll(ranges: map<nat, Range>, S: Alloc, addrs: seq<Addr>): Alloc
  {
    if addrs == [] then S else Stored(ranges, StoreAll(ranges, S, Front(addrs)), addrs[|addrs| - 1])
  }

  /** A location once given never changes, and the frame only grows. */
  lemma StoredKeeps(ranges: map<nat, Range>, S: Alloc, a: Addr)
    ensures var S' := Stored(ranges, S, a);
            && LabelOf(a) in S'.locs && S.lStack <= S'.lStack
            && (forall x :: x in S.locs ==> x in S'.locs && S'.locs[x] == S.locs[x])
            && (forall x :: x in S'.locs ==> x in S.locs || x == LabelOf(a))
  {
  }

  lemma {:induction false} AllStored(ranges: map<nat, Range>, S: Alloc, addrs: seq<Addr>)
    ensures var S' := StoreAll(ranges, S, addrs);
            && S.lStack <= S'.lStack
            && (forall x :: x in S.locs ==> x in S'.locs && S'.locs[x] == S.locs[x])
            && (forall a :: a in addrs ==> LabelOf(a) in S'.locs)
  {
    hide Stored, LabelOf;
    if addrs != [] {
      AllStored(ranges, S, Front(addrs));
      StoredKeeps(ranges, StoreAll(ranges, S, Front(addrs)), addrs[|addrs| - 1]);
      assert addrs == Front(addrs) + [addrs[|addrs| - 1]];
    }
  }

  /** Whatever is stored in between, asking again gives the same location and changes nothing. */
  lemma StoredAgain(ranges: map<nat, Range>, S: Alloc, a: Addr, between: seq<Addr>)
    ensures var S1 := Stored(ranges, S, a);
            var S2 := StoreAll(ranges, S1, between);
            && LabelOf(a) in S1.locs && LabelOf(a) in S2.locs && S2.locs[LabelOf(a)] == S1.locs[LabelOf(a)]
            && Stored(ranges, S2, a) == S2
  {
    StoredKeeps(ranges, S, a);
    AllStored(ranges, Stored(ranges, S, a), between);
  }
}
