/** Critical sections of the main thread: what the interrupt cannot change in them, and the one
    table it can. */
module SlotSections {
  import opened Types
  import opened Rings
  import opened Queue
  import opened Lookup
  import opened Rescheduling
  import opened SlotMachine
  import opened SlotInvariants
  import opened SlotRuns
  import NumberTheory

  // ---- What the lock protects ----

  /** What the main thread can see of the machine, the APT table and what it read of it left
      aside: everything but the interrupt's own state. */
  datatype View = View(pc: Pc, locked: bool, adding: Adding, removing: Option<Link>, resetting: Option<Addr>,
                       owed: Option<Owed>, sfs: seq<Slotframe>, nbrs: Table, packets: map<Pid, Packet>, held: set<Pid>,
                       dequeued: Ring, txStatus: nat, log: Log)

  function ViewOf(s: State): View {
    View(s.pc, s.locked, s.adding, s.removing, s.resetting, s.owed, s.sfs, s.nbrs, s.packets, s.held, s.dequeued,
         s.txStatus, s.log.(corrections := 0))
  }

  /** Under the lock the interrupt changes none of that. */
  lemma InterruptInvisibleUnderLock(m: Params, s: State, a: IrqAct)
    requires m.Valid() && Shape(s) && LockInv(s) && s.locked
    ensures ViewOf(Next(m, s, Irq(a))) == ViewOf(s)
  {
    if IrqEnabled(m, s, a) {
      match a
      case Skip(ps) => RescheduleInvisible(m, s, ps);
      case End(ps) => RescheduleInvisible(m, s, ps);
      case Enter(first, second) => assert OnlyEntry(s, DoEnter(s, first, second)) && TableAtEntry(s, first) == s.nbrs;
      case RxEnd(_) =>
      case TxEnd(_, _, _, _) =>
    }
  }

  lemma RescheduleInvisible(m: Params, s: State, ps: seq<Pass>)
    requires m.Valid() && TableOk(s.nbrs) && s.locked
    ensures ViewOf(DoReschedule(m, s, ps)) == ViewOf(s)
  {
    RefreshKeepsRings(s.nbrs, s.locked, m.tm, s.clk, ps);
  }

  predicate NoUnlock(acts: seq<Act>) {
    forall i | 0 <= i < |acts| :: acts[i] != Main(Lock(Unlock))
  }

  function OnlyMain(acts: seq<Act>): seq<Act> {
    if acts == [] then []
    else if acts[0].Main? then [acts[0]] + OnlyMain(acts[1..])
    else OnlyMain(acts[1..])
  }

  lemma SectionActsOnView(c: Config, s: State, u: State, a: SectionAct)
    requires c.Valid() && ViewOf(s) == ViewOf(u) && SectionEnabled(s, a)
    ensures SectionEnabled(u, a) && ViewOf(SectionStep(c, s, a)) == ViewOf(SectionStep(c, u, a))
  {
  }

  lemma PacketsActOnView(s: State, u: State, a: PacketAct)
    requires Shape(s) && Shape(u) && s.pc == Inside && ViewOf(s) == ViewOf(u) && PacketEnabled(s, a)
    ensures PacketEnabled(u, a) && ViewOf(PacketStep(s, a)) == ViewOf(PacketStep(u, a))
  {
  }

  lemma EnabledOnView(s: State, u: State, a: MainAct)
    requires Shape(s) && Shape(u) && s.pc == Inside && ViewOf(s) == ViewOf(u)
    ensures MainEnabled(s, a) <==> MainEnabled(u, a)
  {
  }

  lemma MainStepOnView(m: Params, s: State, u: State, a: MainAct)
    requires m.Valid() && Shape(s) && Shape(u) && s.pc == Inside && a != Lock(Unlock) && ViewOf(s) == ViewOf(u)
    requires MainEnabled(s, a) && MainEnabled(u, a)
    ensures ViewOf(MainStep(m, s, a)) == ViewOf(MainStep(m, u, a))
  {
    InSection(s, a);
    if a.Section? {
      SectionActsOnView(m.q, s, u, a.e);
      assert MainStep(m, s, a) == SectionStep(m.q, s, a.e) && MainStep(m, u, a) == SectionStep(m.q, u, a.e);
    } else {
      PacketsActOnView(s, u, a.v);
      assert MainStep(m, s, a) == PacketStep(s, a.v) && MainStep(m, u, a) == PacketStep(u, a.v);
    }
  }

  lemma InSection(s: State, a: MainAct)
    requires Shape(s) && s.pc == Inside && a != Lock(Unlock) && MainEnabled(s, a)
    ensures a.Section? || a.Move?
  {
  }

  lemma MainActsOnView(m: Params, s: State, u: State, a: MainAct)
    requires m.Valid() && Shape(s) && Shape(u) && s.pc == Inside && a != Lock(Unlock) && ViewOf(s) == ViewOf(u)
    ensures ViewOf(Next(m, s, Main(a))) == ViewOf(Next(m, u, Main(a)))
  {
    EnabledOnView(s, u, a);
    if MainEnabled(s, a) {
      MainStepOnView(m, s, u, a);
    }
  }

  lemma SameShape(s: State, u: State)
    requires Shape(s) && ViewOf(s) == ViewOf(u)
    ensures Shape(u) && u.pc == s.pc
  {
  }

  /** Dropping all interrupt actions from a critical section gives the main thread the same view. */
  lemma {:induction false} CriticalSectionIsAtomic(m: Params, s: State, u: State, acts: seq<Act>)
    requires m.Valid() && Sound(m, s) && s.pc == Inside && NoUnlock(acts) && ViewOf(s) == ViewOf(u)
    ensures ViewOf(Exec(m, s, acts)) == ViewOf(Exec(m, u, OnlyMain(acts)))
    decreases |acts|
  {
    if acts != [] {
      var a, rest := acts[0], acts[1..];
      assert forall i | 0 <= i < |rest| :: rest[i] == acts[i + 1];
      StepKeepsSound(m, s, a);
      match a
      case Main(x) =>
        SameShape(s, u);
        MainActsOnView(m, s, u, x);
        StaysInside(m, s, a);
        assert OnlyMain(acts)[0] == a && OnlyMain(acts)[1..] == OnlyMain(rest);
        CriticalSectionIsAtomic(m, Next(m, s, a), Next(m, u, a), rest);
      case Irq(x) =>
        InterruptInvisibleUnderLock(m, s, x);
        CriticalSectionIsAtomic(m, Next(m, s, a), u, rest);
    }
  }

  // ---- The APT table ----

  predicate Counts(link: Option<Link>, i: nat) {
    link.Some? && link.value.sfHandle == 1 && link.value.timeslot == i
  }

  /** A frame received on timeslot i of slotframe 1 ends its Rx slot. */
  ghost predicate Receives(m: Params, s: State, a: Act, i: nat)
    requires m.Valid() && Shape(s)
  {
    a.Irq? && a.i.RxEnd? && IrqEnabled(m, s, a.i) && a.i.frame.Some? && Counts(s.clk.current, i)
  }

  ghost function Receptions(m: Params, s: State, acts: seq<Act>, i: nat): nat
    requires m.Valid()
    decreases |acts|
  {
    if acts == [] then 0
    else (if Shape(s) && Receives(m, s, acts[0], i) then 1 else 0) + Receptions(m, Next(m, s, acts[0]), acts[1..], i)
  }

  lemma HeardStep(s: State, frame: Option<Frame>, i: nat)
    requires Apt(s.apt, i) < 0x100
    ensures Apt(DoRxEnd(s, frame).apt, i) < 0x100
    ensures Apt(DoRxEnd(s, frame).apt, i) ==
      Add8(Apt(s.apt, i), if frame.Some? && Counts(s.clk.current, i) then 1 else 0)
  {
    Add8Same(Apt(s.apt, i));
  }

  lemma Add8Same(a: nat)
    requires a < 0x100
    ensures Add8(a, 0) == a
  {
  }

  lemma MainKeepsAptInside(m: Params, s: State, a: MainAct)
    requires m.Valid() && TableOk(s.nbrs) && s.dequeued.Valid() && s.pc == Inside && MainEnabled(s, a)
    ensures MainStep(m, s, a).apt == s.apt
  {
  }

  /** Inside a critical section only receptions change the APT table. */
  lemma AptStep(m: Params, s: State, a: Act, i: nat)
    requires m.Valid() && Shape(s) && s.pc == Inside && Apt(s.apt, i) < 0x100
    ensures Apt(Next(m, s, a).apt, i) < 0x100
    ensures Apt(Next(m, s, a).apt, i) == Add8(Apt(s.apt, i), if Receives(m, s, a, i) then 1 else 0)
  {
    Add8Same(Apt(s.apt, i));
    match a
    case Main(x) =>
      if MainEnabled(s, x) {
        MainKeepsAptInside(m, s, x);
      }
    case Irq(x) =>
      if IrqEnabled(m, s, x) && x.RxEnd? {
        HeardStep(s, x.frame, i);
      }
  }

  lemma InsideStep(m: Params, s: State, a: Act, i: nat) returns (n: nat)
    requires m.Valid() && Sound(m, s) && s.pc == Inside && a != Main(Lock(Unlock)) && Apt(s.apt, i) < 0x100
    ensures var t := Next(m, s, a);
      Sound(m, t) && t.pc == Inside && Apt(t.apt, i) < 0x100 && Apt(t.apt, i) == Add8(Apt(s.apt, i), n)
    ensures n == if Receives(m, s, a, i) then 1 else 0
  {
    n := if Receives(m, s, a, i) then 1 else 0;
    StepKeepsSound(m, s, a);
    AptStep(m, s, a, i);
    StaysInside(m, s, a);
  }

  lemma {:induction false} AptCountsReceptions(m: Params, s: State, acts: seq<Act>, i: nat)
    requires m.Valid() && Sound(m, s) && s.pc == Inside && NoUnlock(acts) && Apt(s.apt, i) < 0x100
    ensures Apt(Exec(m, s, acts).apt, i) == Add8(Apt(s.apt, i), Receptions(m, s, acts, i))
    decreases |acts|
  {
    if acts != [] {
      var t, rest := Next(m, s, acts[0]), acts[1..];
      NoUnlockAfter(acts);
      var n := InsideStep(m, s, acts[0], i);
      AptCountsReceptions(m, t, rest, i);
      Add8Chain(Apt(s.apt, i), n, Apt(t.apt, i), Receptions(m, t, rest, i));
    } else {
      Add8Same(Apt(s.apt, i));
    }
  }

  lemma Add8Chain(a: nat, n: nat, b: nat, k: nat)
    requires b == Add8(a, n)
    ensures Add8(b, k) == Add8(a, n + k)
  {
    NumberTheory.ModAdd(a + n, k, 0x100);
  }

  lemma NoUnlockAfter(acts: seq<Act>)
    requires NoUnlock(acts) && acts != []
    ensures NoUnlock(acts[1..]) && acts[0] != Main(Lock(Unlock))
  {
    assert forall j | 0 <= j < |acts[1..]| :: acts[1..][j] == acts[j + 1];
  }

  lemma StaysInside(m: Params, s: State, a: Act)
    requires m.Valid() && Shape(s) && s.pc == Inside && a != Main(Lock(Unlock))
    ensures Next(m, s, a).pc == Inside
  {
    if a.Main? && MainEnabled(s, a.m) {
      InSection(s, a.m);
    }
  }

  lemma {:induction false} NoReceptionsByMain(m: Params, s: State, acts: seq<Act>, i: nat)
    requires m.Valid() && forall k | 0 <= k < |acts| :: acts[k].Main?
    ensures Receptions(m, s, acts, i) == 0
    decreases |acts|
  {
    if acts != [] {
      NoReceptionsByMain(m, Next(m, s, acts[0]), acts[1..], i);
    }
  }

  lemma {:induction false} OnlyMainIsMain(acts: seq<Act>)
    requires NoUnlock(acts)
    ensures NoUnlock(OnlyMain(acts)) && forall k | 0 <= k < |OnlyMain(acts)| :: OnlyMain(acts)[k].Main?
  {
    if acts != [] {
      assert forall j | 0 <= j < |acts[1..]| :: acts[1..][j] == acts[j + 1];
      OnlyMainIsMain(acts[1..]);
    }
  }

  /** What a critical section reads of the APT table: the entry is the one it would read without
      the interrupt exactly when the number of frames received on that timeslot of slotframe 1
      since the section began is a multiple of 256. */
  lemma ReadIsUndisturbedIff(m: Params, s: State, acts: seq<Act>, i: nat)
    requires m.Valid() && Sound(m, s) && s.pc == Inside && NoUnlock(acts) && Apt(s.apt, i) < 0x100
    requires var t := Exec(m, s, acts); t.removing == None && t.owed == None
    ensures var t, u := Exec(m, s, acts), Exec(m, s, OnlyMain(acts));
      && Shape(t) && Shape(u) && CanRead(t, i) && CanRead(u, i)
      && (Next(m, t, Read(i)).seen == Next(m, u, Read(i)).seen <==> Receptions(m, s, acts, i) % 0x100 == 0)
  {
    var t, u := Exec(m, s, acts), Exec(m, s, OnlyMain(acts));
    OnlyMainIsMain(acts);
    CriticalSectionIsAtomic(m, s, s, acts);
    CanReadInside(m, s, acts, i);
    CanReadInside(m, s, OnlyMain(acts), i);
    SeenIsApt(m, t, i);
    SeenIsApt(m, u, i);
    AptWithoutInterrupt(m, s, acts, i);
    AptCountsReceptions(m, s, acts, i);
    Add8SameIff(Apt(s.apt, i), Receptions(m, s, acts, i));
  }

  lemma AptWithoutInterrupt(m: Params, s: State, acts: seq<Act>, i: nat)
    requires m.Valid() && Sound(m, s) && s.pc == Inside && NoUnlock(acts) && Apt(s.apt, i) < 0x100
    ensures Apt(Exec(m, s, OnlyMain(acts)).apt, i) == Add8(Apt(s.apt, i), 0)
  {
    OnlyMainIsMain(acts);
    AptCountsReceptions(m, s, OnlyMain(acts), i);
    NoReceptionsByMain(m, s, OnlyMain(acts), i);
  }

  function Read(i: nat): Act {
    Main(Section(ReadApt(i)))
  }

  ghost predicate CanRead(s: State, i: nat)
    requires Shape(s)
  {
    MainEnabled(s, Section(ReadApt(i)))
  }

  lemma CanReadInside(m: Params, s: State, acts: seq<Act>, i: nat)
    requires m.Valid() && Sound(m, s) && s.pc == Inside && NoUnlock(acts)
    requires var t := Exec(m, s, acts); t.removing == None && t.owed == None
    ensures Shape(Exec(m, s, acts)) && CanRead(Exec(m, s, acts), i)
  {
    RunKeepsSound(m, s, acts);
    SectionStays(m, s, acts);
  }

  lemma SeenIsApt(m: Params, s: State, i: nat)
    requires m.Valid() && Shape(s) && CanRead(s, i)
    ensures Next(m, s, Read(i)).seen == Apt(s.apt, i)
  {
  }

  lemma Add8SameIff(a: nat, n: nat)
    ensures Add8(a, n) == Add8(a, 0) <==> n % 0x100 == 0
  {
  }

  lemma {:induction false} SectionStays(m: Params, s: State, acts: seq<Act>)
    requires m.Valid() && Sound(m, s) && s.pc == Inside && NoUnlock(acts)
    ensures Exec(m, s, acts).pc == Inside
    decreases |acts|
  {
    if acts != [] {
      assert forall j | 0 <= j < |acts[1..]| :: acts[1..][j] == acts[j + 1];
      StepKeepsSound(m, s, acts[0]);
      StaysInside(m, s, acts[0]);
      SectionStays(m, Next(m, s, acts[0]), acts[1..]);
    }
  }

  /** Entries of the APT table have 8 bits. */
  ghost predicate AptOk(s: State) {
    forall i :: Apt(s.apt, i) < 0x100
  }

  lemma UpkeepKeepsApt(c: Config, s: State, a: UpkeepAct, i: nat)
    requires TableOk(s.nbrs) && UpkeepEnabled(s, a) && Apt(s.apt, i) < 0x100
    ensures Apt(UpkeepStep(c, s, a).apt, i) < 0x100
  {
  }

  lemma MainKeepsApt(m: Params, s: State, a: MainAct, i: nat)
    requires m.Valid() && TableOk(s.nbrs) && s.dequeued.Valid() && MainEnabled(s, a) && Apt(s.apt, i) < 0x100
    ensures Apt(MainStep(m, s, a).apt, i) < 0x100
  {
    if a.Upkeep? {
      UpkeepKeepsApt(m.q, s, a.u, i);
    }
  }

  lemma StepKeepsApt(m: Params, s: State, a: Act, i: nat)
    requires m.Valid() && Shape(s) && Apt(s.apt, i) < 0x100
    ensures Apt(Next(m, s, a).apt, i) < 0x100
  {
    match a
    case Main(x) =>
      if MainEnabled(s, x) {
        MainKeepsApt(m, s, x, i);
      }
    case Irq(x) =>
      if IrqEnabled(m, s, x) && x.RxEnd? {
        HeardStep(s, x.frame, i);
      }
  }

  lemma {:induction false} EveryRunKeepsApt(m: Params, s: State, acts: seq<Act>)
    requires m.Valid() && Sound(m, s) && AptOk(s)
    ensures AptOk(Exec(m, s, acts))
    decreases |acts|
  {
    if acts != [] {
      forall i ensures Apt(Next(m, s, acts[0]).apt, i) < 0x100 {
        StepKeepsApt(m, s, acts[0], i);
      }
      StepKeepsSound(m, s, acts[0]);
      EveryRunKeepsApt(m, Next(m, s, acts[0]), acts[1..]);
    }
  }

  // ---- The interrupt's half ----

  lemma {:induction false} PassesIgnoreSchedule(sfs: seq<Slotframe>, other: seq<Slotframe>, t: Table, tm: Timer,
      k: Clock, ps: seq<Pass>)
    requires TableOk(t) && tm.modulus > 0
    ensures PassesOk(sfs, t, true, tm, k, ps) <==> PassesOk(other, t, true, tm, k, ps)
    decreases |ps|
  {
    if ps != [] {
      PassesIgnoreSchedule(sfs, other, Refresh(t, true, k), tm, Advance(tm, k, ps[0]), ps[1..]);
    }
  }

  lemma EnabledIgnoresSchedule(m: Params, s: State, sfs: seq<Slotframe>, a: IrqAct)
    requires m.Valid() && TableOk(s.nbrs) && s.locked
    ensures IrqEnabled(m, s, a) <==> IrqEnabled(m, s.(sfs := sfs), a)
  {
    match a
    case Skip(ps) => PassesIgnoreSchedule(s.sfs, sfs, s.nbrs, m.tm, s.clk, ps);
    case End(ps) => PassesIgnoreSchedule(s.sfs, sfs, s.nbrs, m.tm, s.clk, ps);
    case Enter(first, second) => assert TableAtEntry(s.(sfs := sfs), first) == TableAtEntry(s, first);
    case TxEnd(_, _, _, _) =>
    case RxEnd(_) =>
  }

  lemma EnterIgnoresSchedule(s: State, sfs: seq<Slotframe>, first: Option<Addr>, second: Option<Addr>)
    requires TableOk(s.nbrs) && s.dequeued.Valid() && s.clk.current.Some?
    ensures DoEnter(s.(sfs := sfs), first, second) == DoEnter(s, first, second).(sfs := sfs)
  {
    var u := s.(sfs := sfs);
    assert TableAtEntry(u, first) == TableAtEntry(s, first);
    assert OnlyEntry(u, DoEnter(u, first, second)) && OnlyEntry(s, DoEnter(s, first, second));
  }

  /** Under the lock the schedule decides neither which interrupt steps are possible nor what they
      do, the fault flag aside: so it does not matter in how many steps the main thread edits it. */
  lemma InterruptIgnoresScheduleUnderLock(m: Params, s: State, sfs: seq<Slotframe>, a: IrqAct)
    requires m.Valid() && Shape(s) && LockInv(s) && s.locked && WellFormed(sfs)
    ensures var u := s.(sfs := sfs);
      && (IrqEnabled(m, s, a) <==> IrqEnabled(m, u, a))
      && (IrqEnabled(m, s, a) ==> IrqEffect(m, u, a) == IrqEffect(m, s, a).(sfs := sfs))
  {
    EnabledIgnoresSchedule(m, s, sfs, a);
    if IrqEnabled(m, s, a) {
      EffectIgnoresSchedule(m, s, sfs, a);
    }
  }

  lemma EffectIgnoresSchedule(m: Params, s: State, sfs: seq<Slotframe>, a: IrqAct)
    requires m.Valid() && Shape(s) && WellFormed(sfs) && !s.phase.TxSlot?
    requires IrqEnabled(m, s, a) && IrqEnabled(m, s.(sfs := sfs), a)
    ensures IrqEffect(m, s.(sfs := sfs), a) == IrqEffect(m, s, a).(sfs := sfs)
  {
    match a
    case Skip(ps) => RescheduleIgnoresSchedule(m, s, sfs, ps);
    case End(ps) => RescheduleIgnoresSchedule(m, s, sfs, ps);
    case Enter(first, second) => EnterIgnoresSchedule(s, sfs, first, second);
    case RxEnd(frame) => RxEndIgnoresSchedule(s, sfs, frame);
  }

  lemma RxEndIgnoresSchedule(s: State, sfs: seq<Slotframe>, frame: Option<Frame>)
    ensures DoRxEnd(s.(sfs := sfs), frame) == DoRxEnd(s, frame).(sfs := sfs)
  {
  }

  lemma RescheduleIgnoresSchedule(m: Params, s: State, sfs: seq<Slotframe>, ps: seq<Pass>)
    requires m.Valid() && TableOk(s.nbrs)
    ensures DoReschedule(m, s.(sfs := sfs), ps) == DoReschedule(m, s, ps).(sfs := sfs)
  {
  }
}
