/** The compacting arena: what is recorded is what is live, and the table is never much larger than that. */
module Arena {
  /** A place of the table: nothing, or a block of so many bytes at an address. */
  datatype Slot = Null | Entry(bytes: nat, ptr: nat)

  const ARENA_CAP: nat := 4
  const ZIP_RATE: real := 0.15

  /** The blocks still held, in the order of the table. */
  function Live(s: seq<Slot>): (r: seq<Slot>)
    ensures |r| <= |s|
    ensures forall i :: 0 <= i < |r| ==> r[i].Entry?
  {
    if s == [] then []
    else
      var n := |s| - 1;
      Live(s[..n]) + if s[n].Null? then [] else [s[n]]
  }

  function Bytes(s: seq<Slot>): nat
  {
    if s == [] then 0
    else
      var n := |s| - 1;
      Bytes(s[..n]) + if s[n].Null? then 0 else s[n].bytes
  }

  function Empty(s: seq<Slot>): nat
  {
    if s == [] then 0
    else
      var n := |s| - 1;
      Empty(s[..n]) + if s[n].Null? then 1 else 0
  }

  lemma {:induction false} JoinSlots(a: seq<Slot>, b: seq<Slot>)
    ensures Live(a + b) == Live(a) + Live(b)
    ensures Bytes(a + b) == Bytes(a) + Bytes(b) && Empty(a + b) == Empty(a) + Empty(b)
  {
    if b == [] {
      assert a + b == a;
    } else {
      var n := |b| - 1;
      assert (a + b)[..|a + b| - 1] == a + b[..n];
      JoinSlots(a, b[..n]);
      JoinTail(Live(a), Live(b[..n]), if b[n].Null? then [] else [b[n]]);
    }
  }

  lemma JoinTail(a: seq<Slot>, b: seq<Slot>, c: seq<Slot>)
    ensures a + b + c == a + (b + c)
  {
  }

  /** Without empty places nothing is dropped; the live and the empty places are all there are. */
  lemma {:induction false} LiveCounts(s: seq<Slot>)
    ensures |Live(s)| + Empty(s) == |s|
    ensures Empty(Live(s)) == 0 && Bytes(Live(s)) == Bytes(s) && Live(Live(s)) == Live(s)
  {
    if s != [] {
      var n := |s| - 1;
      LiveCounts(s[..n]);
      if s[n].Null? {
        assert Live(s) == Live(s[..n]);
      } else {
        PushSlot(Live(s[..n]), s[n]);
      }
    }
  }

  lemma PushSlot(s: seq<Slot>, e: Slot)
    requires e.Entry?
    ensures Live(s + [e]) == Live(s) + [e] && Bytes(s + [e]) == Bytes(s) + e.bytes && Empty(s + [e]) == Empty(s)
  {
    assert (s + [e])[..|s|] == s;
  }

  lemma OneMore(s: seq<Slot>, e: Slot)
    ensures Live(s + [e]) == Live(s) + if e.Null? then [] else [e]
  {
    assert (s + [e])[..|s|] == s;
  }

  lemma LiveNothing()
    ensures Live([]) == []
  {
  }

  /** Emptying one place. */
  lemma FlushSlot(s: seq<Slot>, i: nat)
    requires i < |s| && s[i].Entry?
    ensures var t := s[i := Null];
            && Live(s) == Live(s[..i]) + [s[i]] + Live(s[i + 1..]) && Live(t) == Live(s[..i]) + Live(s[i + 1..])
            && Bytes(s) == Bytes(t) + s[i].bytes && Empty(t) == Empty(s) + 1
  {
    var t := s[i := Null];
    assert s == s[..i] + [s[i]] + s[i + 1..] && t == s[..i] + [Null] + s[i + 1..];
    JoinSlots(s[..i] + [s[i]], s[i + 1..]);
    JoinSlots(s[..i] + [Null], s[i + 1..]);
    PushSlot(s[..i], s[i]);
    assert (s[..i] + [Null])[..i] == s[..i];
  }

  // ----- what the operations do to the table -----

  /** The first place holding this address, or the length. */
  function IndexOf(s: seq<Slot>, ptr: nat): (i: nat)
    ensures i <= |s| && (i < |s| ==> s[i].Entry? && s[i].ptr == ptr)
    ensures forall k :: 0 <= k < i ==> !(s[k].Entry? && s[k].ptr == ptr)
  {
    if s == [] then 0
    else if s[0].Entry? && s[0].ptr == ptr then 0
    else 1 + IndexOf(s[1..], ptr)
  }

  lemma FirstIndex(s: seq<Slot>, ptr: nat, i: nat)
    requires i <= |s| && (i < |s| ==> s[i].Entry? && s[i].ptr == ptr)
    requires forall k :: 0 <= k < i ==> !(s[k].Entry? && s[k].ptr == ptr)
    ensures IndexOf(s, ptr) == i
  {
  }

  predicate NeedZip(disposed: nat, cap: nat)
  {
    disposed != 0 && cap != 0 && disposed as real / cap as real >= ZIP_RATE
  }

  datatype Table = Table(slots: seq<Slot>, cap: nat)

  /** The table after room has been made. */
  function Room(t: Table): Table
  {
    if |t.slots| != t.cap then t
    else if NeedZip(Empty(t.slots), t.cap) then t.(slots := Live(t.slots))
    else t.(cap := 2 * t.cap)
  }

  function Pushed(t: Table, e: Slot): Table
  {
    Room(t).(slots := Room(t).slots + [e])
  }

  function Disposed(t: Table, ptr: nat): Table
  {
    var i := IndexOf(t.slots, ptr);
    if i < |t.slots| then t.(slots := t.slots[i := Null]) else t
  }

  /** Making room makes room, and keeps the live blocks in order. */
  lemma RoomFits(t: Table)
    requires |t.slots| <= t.cap && t.cap > 0
    ensures |Room(t).slots| < Room(t).cap && Live(Room(t).slots) == Live(t.slots)
    ensures Bytes(Room(t).slots) == Bytes(t.slots)
  {
    LiveCounts(t.slots);
  }

  class Heap {
    var allocBytes: nat
    var overallAllocBytes: nat
    var len: nat
    var cap: nat
    var disposed: nat
    var entries: array<Slot>

    /** The counters say what the table holds. */
    ghost predicate Valid()
      reads this, entries
    {
      && entries.Length == cap && len <= cap && cap > 0
      && disposed == Empty(entries[..len]) && allocBytes == Bytes(entries[..len])
    }

    function Now(): Table
      reads this, entries
      requires len <= entries.Length
    {
      Table(entries[..len], cap)
    }

    constructor ()
      ensures Valid() && fresh(entries) && Now() == Table([], 4) && overallAllocBytes == 0
    {
      allocBytes, overallAllocBytes, len, cap, disposed := 0, 0, 0, ARENA_CAP, 0;
      entries := new Slot[ARENA_CAP](_ => Null);
    }

    /** Moves the live entries to the front, in place. */
    method Zip()
      requires Valid()
      modifies this`len, this`disposed, entries
      ensures Valid() && Now() == old(Now()).(slots := Live(old(entries[..len]))) && disposed == 0
    {
      hide Live, Bytes, Empty;
      ghost var was := entries[..len];
      LiveCounts(was);
      LiveNothing();
      var initial := len;
      len := 0;
      disposed := 0;
      for addr := 0 to initial
        invariant len <= addr && entries.Length == cap && disposed == 0
        invariant entries[..len] == Live(was[..addr]) && entries[addr..initial] == was[addr..]
      {
        assert was[..addr + 1] == was[..addr] + [was[addr]] && entries[addr] == entries[addr..initial][0];
        OneMore(was[..addr], was[addr]);
        ghost var before := entries[..];
        if entries[addr] != Null {
          entries[len] := entries[addr];
          if len != addr {
            entries[addr] := Null;
          }
          len := len + 1;
          assert entries[..len] == before[..len - 1] + [before[addr]];
        }
        assert entries[addr + 1..initial] == before[addr..initial][1..];
      }
      assert was[..initial] == was;
    }

    method Grow()
      requires Valid()
      modifies this`cap, this`entries
      ensures Valid() && fresh(entries) && Now() == old(Now()).(cap := 2 * old(cap))
    {
      cap := cap * 2;
      var more := new Slot[cap](_ => Null);
      for i := 0 to len
        invariant len == old(len) && cap == 2 * old(cap) && entries == old(entries) && more.Length == cap
        invariant entries[..] == old(entries[..]) && more[..i] == entries[..i]
      {
        more[i] := entries[i];
      }
      entries := more;
    }

    method Push(entry: Slot)
      requires Valid() && entry.Entry?
      modifies this, entries
      ensures Valid() && (entries == old(entries) || fresh(entries)) && Now() == Pushed(old(Now()), entry)
      ensures allocBytes == old(allocBytes) + entry.bytes
      ensures overallAllocBytes == old(overallAllocBytes) + entry.bytes
    {
      MakeRoom();
      Add(entry);
    }

    method NeedsZip() returns (r: bool)
      requires Valid()
      ensures r == NeedZip(disposed, cap)
    {
      if disposed == 0 {
        return false;
      }
      var rate := disposed as real / cap as real;
      return rate >= ZIP_RATE;
    }

    /** The first half of a push: after it there is a free place. */
    method MakeRoom()
      requires Valid()
      modifies this, entries
      ensures Valid() && (entries == old(entries) || fresh(entries)) && Now() == Room(old(Now())) && len < cap
      ensures allocBytes == old(allocBytes) && overallAllocBytes == old(overallAllocBytes)
    {
      hide Live, Bytes, Empty, NeedZip;
      RoomFits(Now());
      if cap == len {
        var zip := NeedsZip();
        if zip {
          Zip();
        } else {
          Grow();
        }
      }
    }

    method Add(entry: Slot)
      requires Valid() && entry.Entry? && len < cap
      modifies this, entries
      ensures Valid() && entries == old(entries) && Now() == Table(old(entries[..len]) + [entry], old(cap))
      ensures allocBytes == old(allocBytes) + entry.bytes
      ensures overallAllocBytes == old(overallAllocBytes) + entry.bytes
    {
      hide Live, Bytes, Empty;
      PushSlot(entries[..len], entry);
      allocBytes := allocBytes + entry.bytes;
      overallAllocBytes := overallAllocBytes + entry.bytes;
      entries[len] := entry;
      len := len + 1;
      assert entries[..len] == old(entries[..len]) + [entry];
    }

    /** Empties one place; the caller counts it as disposed. */
    method Flush(index: nat)
      requires Valid() && index < len && entries[index].Entry?
      modifies this`allocBytes, entries
      ensures entries[..len] == old(entries[..len])[index := Null]
      ensures allocBytes == Bytes(entries[..len]) && disposed + 1 == Empty(entries[..len])
    {
      FlushSlot(entries[..len], index);
      allocBytes := allocBytes - entries[index].bytes;
      entries[index] := Null;
      assert entries[..len] == old(entries[..len])[index := Null];
    }

    method Alloc(size: nat, mem: nat)
      requires Valid()
      modifies this, entries
      ensures Valid() && (entries == old(entries) || fresh(entries)) && Now() == Pushed(old(Now()), Entry(size, mem))
      ensures allocBytes == old(allocBytes) + size && overallAllocBytes == old(overallAllocBytes) + size
    {
      Push(Entry(size, mem));
    }

    method Dispose(ptr: nat)
      requires Valid()
      modifies this`allocBytes, this`disposed, entries
      ensures Valid() && Now() == Disposed(old(Now()), ptr)
    {
      for i := 0 to len
        invariant Valid() && Now() == old(Now())
        invariant forall k :: 0 <= k < i ==> !(entries[k].Entry? && entries[k].ptr == ptr)
      {
        if entries[i] != Null && entries[i].ptr == ptr {
          FirstIndex(entries[..len], ptr, i);
          Flush(i);
          disposed := disposed + 1;
          return;
        }
      }
      FirstIndex(entries[..len], ptr, len);
    }

    /** Whatever is still held is given back, and no byte stays recorded. */
    method Fini()
      requires Valid()
      modifies this, entries
      ensures allocBytes == 0 && len == 0 && cap == 0 && disposed == 0
    {
      for i := 0 to len
        invariant len == old(len) && cap == old(cap) && entries == old(entries) && len <= entries.Length
        invariant entries.Length == cap && cap > 0 && allocBytes == Bytes(entries[..len])
        invariant Empty(entries[..i]) == i
      {
        assert entries[..i + 1][..i] == entries[..i];
        ghost var front := entries[..i];
        if entries[i] != Null {
          disposed := Empty(entries[..len]);
          Flush(i);
        }
        assert entries[..i] == front && entries[..i + 1][..i] == front;
      }
      AllEmpty(entries[..len]);
      entries := new Slot[0];
      cap := 0;
      len := 0;
      disposed := 0;
    }
  }

  lemma {:induction false} AllEmpty(s: seq<Slot>)
    requires Empty(s) == |s|
    ensures Bytes(s) == 0
  {
    if s != [] {
      LiveCounts(s[..|s| - 1]);
      AllEmpty(s[..|s| - 1]);
    }
  }

  // ----- histories -----

  datatype Request = Alloc(size: nat, mem: nat) | Dispose(mem: nat)

  function After(t: Table, r: Request): Table
  {
    match r
    case Alloc(size, mem) => Pushed(t, Entry(size, mem))
    case Dispose(mem) => Disposed(t, mem)
  }

  /** The table after a history that starts with an empty one. */
  function Run(h: seq<Request>): Table
  {
    if h == [] then Table([], ARENA_CAP) else After(Run(h[..|h| - 1]), h[|h| - 1])
  }

  /** The blocks held after a history, as a map from address to size. */
  function Held(h: seq<Request>): map<nat, nat>
  {
    if h == [] then map[]
    else
      var m := Held(h[..|h| - 1]);
      match h[|h| - 1]
      case Alloc(size, mem) => m[mem := size]
      case Dispose(mem) => m - {mem}
  }

  /** The system hands out no address that is still held. */
  ghost predicate Fresh(h: seq<Request>)
  {
    forall k :: 0 <= k < |h| && h[k].Alloc? ==> h[k].mem !in Held(h[..k])
  }

  lemma FreshPrefix(h: seq<Request>)
    requires Fresh(h) && h != []
    ensures Fresh(h[..|h| - 1])
  {
    var g := h[..|h| - 1];
    forall k | 0 <= k < |g| && g[k].Alloc?
      ensures g[k].mem !in Held(g[..k])
    {
      assert g[..k] == h[..k] && g[k] == h[k];
    }
  }

  /** The most blocks held at any time. */
  function Peak(h: seq<Request>): nat
  {
    if h == [] then 0
    else
      var before := Peak(h[..|h| - 1]);
      if |Held(h)| > before then |Held(h)| else before
  }

  /** The live entries are exactly these bindings, each once. */
  ghost predicate Represents(live: seq<Slot>, m: map<nat, nat>)
  {
    && (forall i :: 0 <= i < |live| ==> live[i].Entry? && live[i].ptr in m && m[live[i].ptr] == live[i].bytes)
    && (forall i, j :: 0 <= i < j < |live| ==> live[i].Entry? && live[j].Entry? && live[i].ptr != live[j].ptr)
    && (forall p :: p in m ==> exists i :: 0 <= i < |live| && live[i].Entry? && live[i].ptr == p)
  }

  lemma RepresentsPush(live: seq<Slot>, m: map<nat, nat>, size: nat, mem: nat)
    requires Represents(live, m) && mem !in m
    ensures Represents(live + [Entry(size, mem)], m[mem := size])
  {
    var live', m' := live + [Entry(size, mem)], m[mem := size];
    forall p | p in m'
      ensures exists i :: 0 <= i < |live'| && live'[i].Entry? && live'[i].ptr == p
    {
      if p == mem {
        assert live'[|live|].ptr == p;
      } else {
        var i :| 0 <= i < |live| && live[i].Entry? && live[i].ptr == p;
        assert live'[i] == live[i];
      }
    }
  }

  lemma RepresentsDrop(a: seq<Slot>, e: Slot, b: seq<Slot>, m: map<nat, nat>)
    requires e.Entry? && Represents(a + [e] + b, m)
    ensures Represents(a + b, m - {e.ptr})
  {
    var live, live' := a + [e] + b, a + b;
    assert forall i :: 0 <= i < |a| ==> live'[i] == live[i];
    assert forall i :: |a| <= i < |live'| ==> live'[i] == live[i + 1];
    assert live[|a|] == e;
    forall p | p in m - {e.ptr}
      ensures exists i :: 0 <= i < |live'| && live'[i].Entry? && live'[i].ptr == p
    {
      var i :| 0 <= i < |live| && live[i].Entry? && live[i].ptr == p;
      assert live'[if i < |a| then i else i - 1].ptr == p;
    }
  }

  lemma {:induction false} LiveFrom(s: seq<Slot>, k: nat)
    requires k < |Live(s)|
    ensures exists i :: 0 <= i < |s| && s[i] == Live(s)[k]
  {
    var n := |s| - 1;
    if k < |Live(s[..n])| {
      LiveFrom(s[..n], k);
      var i :| 0 <= i < n && s[..n][i] == Live(s[..n])[k];
      assert s[i] == Live(s)[k];
    } else {
      assert s[n] == Live(s)[k];
    }
  }

  lemma DisposeRepresents(t: Table, m: map<nat, nat>, mem: nat)
    requires Represents(Live(t.slots), m)
    ensures Represents(Live(Disposed(t, mem).slots), m - {mem})
  {
    hide Live, Represents;
    var s := t.slots;
    var i := IndexOf(s, mem);
    if i < |s| {
      FlushSlot(s, i);
      RepresentsDrop(Live(s[..i]), s[i], Live(s[i + 1..]), m);
    } else {
      NotHeld(s, m, mem);
      assert m - {mem} == m;
    }
  }

  lemma NotHeld(s: seq<Slot>, m: map<nat, nat>, mem: nat)
    requires Represents(Live(s), m) && IndexOf(s, mem) == |s|
    ensures mem !in m
  {
    if mem in m {
      var k :| 0 <= k < |Live(s)| && Live(s)[k].Entry? && Live(s)[k].ptr == mem;
      LiveFrom(s, k);
    }
  }

  /** After any history the live entries are the blocks held, the table has room for itself, and it is
      never much larger than what was held at the busiest moment. */
  lemma {:induction false} HistoryHeld(h: seq<Request>)
    requires Fresh(h)
    ensures var t := Run(h);
            && Represents(Live(t.slots), Held(h)) && |Live(t.slots)| == |Held(h)|
            && |t.slots| <= t.cap && ARENA_CAP <= t.cap
            && (t.cap > ARENA_CAP ==> 17 * t.cap < 40 * Peak(h))
  {
    hide Live, Represents, Disposed, IndexOf, Room;
    if h == [] {
      EmptyHistory();
    } else {
      var g, r := h[..|h| - 1], h[|h| - 1];
      FreshPrefix(h);
      HistoryHeld(g);
      var t := Run(g);
      match r
      case Alloc(size, mem) =>
        RoomFits(t);
        RoomSize(t);
        PushSlot(Room(t).slots, Entry(size, mem));
        assert h[..|g|] == g;
        RepresentsPush(Live(t.slots), Held(g), size, mem);
      case Dispose(mem) =>
        DisposeRepresents(t, Held(g), mem);
        DisposedSize(t, mem);
      SameSize(Live(Run(h).slots), Held(h));
    }
  }

  lemma EmptyHistory()
    ensures Represents(Live([]), map[]) && Live([]) == []
  {
  }

  lemma DisposedSize(t: Table, mem: nat)
    ensures |Disposed(t, mem).slots| == |t.slots| && Disposed(t, mem).cap == t.cap
  {
  }

  /** The table grows only while more than 85 in 100 of its places are live. */
  lemma RoomSize(t: Table)
    requires |t.slots| <= t.cap && t.cap > 0
    ensures Room(t).cap >= t.cap && (Room(t).cap > t.cap ==> 17 * Room(t).cap < 40 * |Live(t.slots)|)
  {
    LiveCounts(t.slots);
    RateInWords(Empty(t.slots), t.cap);
  }

  lemma RateInWords(disposed: nat, cap: nat)
    requires cap > 0
    ensures NeedZip(disposed, cap) <==> 20 * disposed >= 3 * cap
  {
    var d, c := disposed as real, cap as real;
    assert d / c >= 0.15 <==> d >= 0.15 * c by {
      assert (d / c) * c == d;
      if d / c >= 0.15 {
        Scale(d / c, 0.15, c);
      } else {
        ScaleStrict(0.15, d / c, c);
      }
    }
  }

  lemma Scale(a: real, b: real, c: real)
    requires a >= b && c > 0.0
    ensures a * c >= b * c
  {
  }

  lemma ScaleStrict(a: real, b: real, c: real)
    requires a > b && c > 0.0
    ensures a * c > b * c
  {
  }

  lemma {:induction false} SameSize(live: seq<Slot>, m: map<nat, nat>)
    requires Represents(live, m)
    ensures |live| == |m|
  {
    if live == [] {
      assert m == map[] by {
        assert forall p :: p !in m;
      }
    } else {
      var n := |live| - 1;
      var e := live[n];
      assert live == live[..n] + [e] + [] && live[..n] + [] == live[..n];
      RepresentsDrop(live[..n], e, [], m);
      SameSize(live[..n], m - {e.ptr});
      assert m.Keys == (m - {e.ptr}).Keys + {e.ptr};
    }
  }

  /** Several requests of a history carried out by an arena, ending with every byte given back. */
  method Serve(h: seq<Request>) returns (heap: Heap)
    ensures fresh(heap) && fresh(heap.entries) && heap.Valid() && heap.Now() == Run(h)
  {
    heap := new Heap();
    assert h[..0] == [];
    for k := 0 to |h|
      invariant fresh(heap) && fresh(heap.entries) && heap.Valid() && heap.Now() == Run(h[..k])
    {
      assert h[..k + 1][..k] == h[..k];
      match h[k]
      case Alloc(size, mem) => heap.Alloc(size, mem);
      case Dispose(mem) => heap.Dispose(mem);
    }
    assert h[..|h|] == h;
  }
}
