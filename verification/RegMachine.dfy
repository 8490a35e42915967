/** The machine allocated code runs on: registers and frame slots, arguments in registers, calls that clobber. */
module RegMachine {
  import opened Ast
  import opened Quads
  import opened Nests
  import opened RegAlloc

  /** A cell is a register, by its number, or a slot of the frame, by its offset. */
  function PlaceNo(loc: Option<Loc>): nat
  {
    if loc.None? || loc.value.InData? || loc.value.InCaller? then 0
    else if loc.value.InReg? then RegNumber(loc.value.reg)
    else |SAVE_ORDER| + loc.value.mem % 0x1_0000
  }

  predicate IsSlot(n: nat)
  {
    n >= |SAVE_ORDER|
  }

  function Param(j: nat): nat
    requires j < |PARAM_ORDER|
  {
    RegNumber(PARAM_ORDER[j])
  }

  function Numbers(regs: seq<Reg>): set<nat>
  {
    set r | r in regs :: RegNumber(r)
  }

  /** A call being prepared: what was saved for it, how many arguments are in registers, and those on the stack. */
  datatype RFrame = RFrame(saved: Temps, inRegs: nat, rest: seq<Val>)

  /** `time` counts the moments at which cells have been given contents the code does not choose. */
  datatype RState = RState(pc: nat, cells: Temps, store: Store, frames: seq<RFrame>, time: nat)

  datatype RStatus = RAt(s: RState) | RHalt(value: Val, store: Store) | RStuck

  /** The contents registers are left with by callees and by quads that use them as scratch. */
  type Junk = (nat, nat) -> Val

  /** Allocated code: the quads with cells for temporaries, the registers saved where a call is opened, and the
      registers a quad takes for itself, either over their contents or between a push and a pop. */
  datatype Asm = Asm(code: Code, saves: nat -> seq<Reg>, spoils: nat -> seq<Reg>, keeps: nat -> seq<Reg>)

  function Snapshot(cells: Temps, regs: seq<Reg>): (m: Temps)
    ensures m.Keys == Numbers(regs)
    ensures forall n :: n in Numbers(regs) ==> Get(m, n) == Get(cells, n)
  {
    map n | n in Numbers(regs) :: Get(cells, n)
  }

  function Spoil(cells: Temps, regs: seq<Reg>, junk: Junk, time: nat): (m: Temps)
    ensures forall n :: n in Numbers(regs) ==> Get(m, n) == junk(time, n)
    ensures forall n :: n !in Numbers(regs) ==> Get(m, n) == Get(cells, n)
  {
    cells + map n | n in Numbers(regs) :: junk(time, n)
  }

  function Restore(cells: Temps, saved: Temps): (m: Temps)
    ensures forall n :: Get(m, n) == if n in saved then Get(saved, n) else Get(cells, n)
  {
    cells + saved
  }

  /** The register a callee reads its argument number k from, by section 3.2.3 of the System V AMD64 psABI. */
  function CalleeReg(k: nat): Reg
    requires k < 6
  {
    match k
    case 0 => RDI
    case 1 => RSI
    case 2 => RDX
    case 3 => RCX
    case 4 => R8
    case _ => R9
  }

  /** What a callee that keeps the convention takes for its first n arguments. */
  function RegArgs(cells: Temps, n: nat): (a: seq<Val>)
    ensures |a| == n && forall j :: 0 <= j < n ==> a[j] == if j < 6 then Get(cells, RegNumber(CalleeReg(j))) else Void
  {
    seq(n, j requires 0 <= j < n => if j < 6 then Get(cells, RegNumber(CalleeReg(j))) else Void)
  }

  /** The generator passes arguments where a callee reads them. */
  lemma ConventionKept(j: nat)
    ensures |PARAM_ORDER| == 6
    ensures j < 6 ==> PARAM_ORDER[j] == CalleeReg(j) && Param(j) == RegNumber(CalleeReg(j))
  {
  }

  lemma ArgsFound(cells: Temps, n: nat, j: nat)
    requires j < n
    ensures RegArgs(cells, n)[j] == if j < |PARAM_ORDER| then Get(cells, Param(j)) else Void
  {
    ConventionKept(j);
  }

  function PassValue(v: Val, s: RState): RStatus
  {
    if s.frames == [] then RStuck
    else
      var n := |s.frames| - 1;
      var f := s.frames[n];
      if f.inRegs < |PARAM_ORDER| then
        RAt(s.(pc := s.pc + 1, cells := s.cells[Param(f.inRegs) := v], frames := s.frames[n := f.(inRegs := f.inRegs + 1)]))
      else RAt(s.(pc := s.pc + 1, frames := s.frames[n := f.(rest := f.rest + [v])]))
  }

  /** The callee finds its arguments in the argument registers and on the stack, and may leave anything in any
      register; then the result is stored and what was saved for the call is given back. */
  function RCall(env: Env, junk: Junk, res: Operand, g: Val, s: RState): RStatus
  {
    if !g.Fn? || s.frames == [] then RStuck
    else
      var f := s.frames[|s.frames| - 1];
      match env(g.name, RegArgs(s.cells, f.inRegs) + f.rest, s.store)
      case None => RStuck
      case Some((v, store)) =>
        var after := SetTemp(res, v, Spoil(s.cells, SAVE_ORDER, junk, s.time));
        RAt(RState(s.pc + 1, Restore(after, f.saved), SetName(res, v, store), Front(s.frames), s.time + 1))
  }

  /** The cells after a quad that takes registers for itself. */
  function Scratched(m: Asm, junk: Junk, s: RState, cells: Temps): Temps
  {
    Restore(Spoil(cells, m.spoils(s.pc), junk, s.time), Snapshot(s.cells, m.keeps(s.pc)))
  }

  function RStep(env: Env, junk: Junk, m: Asm, s: RState): RStatus
  {
    if s.pc >= |m.code| then RHalt(Void, s.store)
    else
      var q := m.code[s.pc];
      if q.Label? then RAt(s.(pc := s.pc + 1))
      else if IsHint(q) then
        RAt(s.(pc := s.pc + 1, frames := s.frames + [RFrame(Snapshot(s.cells, m.saves(s.pc)), 0, [])]))
      else if IsArg(q) then PassValue(Read(q.arg1, s.cells, s.store), s)
      else if IsCall(q) then
        RCall(env, junk, if q.op == PCall then ANone else q.res, Read(q.arg1, s.cells, s.store), s)
      else
        match Step(env, m.code, State(s.pc, s.cells, s.store, []))
        case At(t) => RAt(RState(t.pc, Scratched(m, junk, s, t.temps), t.store, s.frames, s.time + 1))
        case Halt(v, store) => RHalt(v, store)
        case Stuck => RStuck
  }

  function RRun(env: Env, junk: Junk, m: Asm, s: RState, n: nat): RStatus
    decreases n
  {
    if n == 0 then RAt(s)
    else match RStep(env, junk, m, s)
      case RAt(s1) => RRun(env, junk, m, s1, n - 1)
      case end => end
  }

  /** The same code that saves and takes the same registers. */
  ghost predicate SameAsm(m: Asm, m': Asm)
  {
    m.code == m'.code && forall i: nat :: i < |m.code| ==>
                                            m.saves(i) == m'.saves(i) && m.spoils(i) == m'.spoils(i) && m.keeps(i) == m'.keeps(i)
  }

  lemma {:induction false} SameRuns(env: Env, junk: Junk, m: Asm, m': Asm, s: RState, n: nat)
    requires SameAsm(m, m')
    ensures RRun(env, junk, m, s, n) == RRun(env, junk, m', s, n)
    decreases n
  {
    hide Step;
    if n > 0 {
      assert RStep(env, junk, m, s) == RStep(env, junk, m', s);
      match RStep(env, junk, m, s)
      case RAt(s1) => SameRuns(env, junk, m, m', s1, n - 1);
      case _ =>
    }
  }

  lemma NumberUnique(a: Reg, b: Reg)
    requires RegNumber(a) == RegNumber(b)
    ensures a == b
  {
    EveryRegister(a);
    EveryRegister(b);
  }

  lemma InNumbers(r: Reg, regs: seq<Reg>)
    ensures RegNumber(r) in Numbers(regs) <==> r in regs
  {
    if RegNumber(r) in Numbers(regs) {
      var q :| q in regs && RegNumber(q) == RegNumber(r);
      NumberUnique(r, q);
    }
  }

  lemma AllNumbers(n: nat)
    ensures n in Numbers(SAVE_ORDER) <==> !IsSlot(n)
  {
    if !IsSlot(n) {
      var r := SAVE_ORDER[n];
      assert RegNumber(r) == n by { NumberAt(n); }
    }
  }

  /** Different arguments are in different registers. */
  lemma ParamApart(i: nat, j: nat)
    requires i < |PARAM_ORDER| && j < |PARAM_ORDER| && i != j
    ensures Param(i) != Param(j)
  {
    OrdersDistinct();
    if Param(i) == Param(j) {
      NumberUnique(PARAM_ORDER[i], PARAM_ORDER[j]);
    }
  }
}
