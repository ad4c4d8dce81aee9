/** Null and freed link pointers: which steps use them, and which removals let that happen. */
module SlotFaults {
  import opened Types
  import opened Queue
  import opened Lookup
  import opened Store
  import opened Rescheduling
  import opened SlotMachine
  import opened SlotInvariants
  import opened SlotClock
  import opened SlotRuns

  /** A slot step outside Tx slots that uses a null or freed link. */
  ghost predicate UsesStale(m: Params, s: State, a: Act)
    requires m.Valid() && Shape(s)
  {
    a.Irq? && IrqEnabled(m, s, a.i) && !a.i.TxEnd? && Faults(s, a.i)
  }

  ghost predicate RunUsesStale(m: Params, s: State, acts: seq<Act>)
    requires m.Valid()
    decreases |acts|
  {
    acts != [] &&
    ((Shape(s) && UsesStale(m, s, acts[0])) || RunUsesStale(m, Next(m, s, acts[0]), acts[1..]))
  }

  /** Until something has gone wrong, the link of a Tx slot is an installed one. */
  ghost predicate TxLinkLive(s: State) {
    s.phase.TxSlot? && !s.faulted ==> !Stale(s, s.clk.current)
  }

  lemma EnterTxLink(m: Params, s: State, first: Option<Addr>, second: Option<Addr>)
    requires m.Valid() && Shape(s) && IrqEnabled(m, s, Enter(first, second))
    ensures TxLinkLive(IrqStep(m, s, Enter(first, second)))
  {
  }

  lemma StepKeepsTxLink(m: Params, s: State, a: Act)
    requires m.Valid() && Sound(m, s) && TxLinkLive(s)
    ensures TxLinkLive(Next(m, s, a))
  {
    match a
    case Main(x) =>
      if MainEnabled(s, x) {
        MainTxLink(m, s, x);
      }
    case Irq(x) =>
      if IrqEnabled(m, s, x) && x.Enter? {
        EnterTxLink(m, s, x.first, x.second);
      }
  }

  lemma MainTxLink(m: Params, s: State, a: MainAct)
    requires m.Valid() && Sound(m, s) && MainEnabled(s, a)
    ensures var t := MainStep(m, s, a);
      && t.phase == s.phase && t.faulted == s.faulted && (s.phase.TxSlot? ==> t.sfs == s.sfs && t.clk == s.clk)
  {
    MainKeepsQueues(m, s, a);
  }

  /** One step raises the fault flag exactly when it uses a stale link outside a Tx slot. */
  lemma StepFaultsIff(m: Params, s: State, a: Act)
    requires m.Valid() && Sound(m, s) && TxLinkLive(s)
    ensures Next(m, s, a).faulted <==> s.faulted || UsesStale(m, s, a)
  {
    match a
    case Main(x) =>
      if MainEnabled(s, x) {
        MainKeepsQueues(m, s, x);
      }
    case Irq(x) =>
      if IrqEnabled(m, s, x) {
        IrqKeepsQueues(m, s, x);
      }
  }

  lemma {:induction false} RunFaultsIff(m: Params, s: State, acts: seq<Act>)
    requires m.Valid() && Sound(m, s) && TxLinkLive(s)
    ensures Exec(m, s, acts).faulted <==> s.faulted || RunUsesStale(m, s, acts)
    decreases |acts|
  {
    if acts != [] {
      StepFaultsIff(m, s, acts[0]);
      StepKeepsTxLink(m, s, acts[0]);
      StepKeepsSound(m, s, acts[0]);
      RunFaultsIff(m, Next(m, s, acts[0]), acts[1..]);
    }
  }

  // ---- Which removals are to blame ----

  /** No slot step can use a stale link now: the current link is installed or null, and not null
      while the slot listens; the backup link is installed while the slot that may need it is
      pending. */
  ghost predicate LinksLive(s: State) {
    && (s.clk.current.Some? ==> !Stale(s, s.clk.current))
    && (s.phase == Idle && s.clk.current.Some? && s.clk.backup.Some? ==> !Stale(s, s.clk.backup))
    && (s.phase == RxSlot ==> s.clk.current.Some?)
    && (s.removing.Some? ==> !Stale(s, s.removing))
  }

  /** A removal begins while the slot listens on the link; or it ends when the link has become
      current again through the backup; or it ends while the link is the backup of a pending slot. */
  predicate Careless(s: State, a: SectionAct) {
    match a
    case BeginRemove(l) => s.phase == RxSlot && s.clk.current == Some(l)
    case EndRemove =>
      && s.removing.Some?
      && (s.removing == s.clk.current || (s.phase == Idle && s.clk.current.Some? && s.removing == s.clk.backup))
    case _ => false
  }

  lemma RemovedLinks(sfs: seq<Slotframe>, l: Link)
    requires WellFormed(sfs)
    ensures Links(Cut(sfs, l.sfHandle, {l})) == Links(sfs) - {l}
  {
    LinksAfterCut(sfs, l.sfHandle, {l});
  }

  /** Only a careless removal leaves a stale link behind. */
  lemma CarefulSectionKeepsLive(m: Params, s: State, a: SectionAct)
    requires m.Valid() && Shape(s) && LinksLive(s) && SectionEnabled(s, a) && !Careless(s, a)
    ensures LinksLive(SectionStep(m.q, s, a))
  {
    if a.EndRemove? {
      RemovedLinks(s.sfs, s.removing.value);
    }
  }

  lemma CarefulMainKeepsLive(m: Params, s: State, a: MainAct)
    requires m.Valid() && Shape(s) && LinksLive(s) && MainEnabled(s, a) && !(a.Section? && Careless(s, a.e))
    ensures LinksLive(MainStep(m, s, a))
  {
    match a
    case Section(e) => CarefulSectionKeepsLive(m, s, e);
    case Lock(_) =>
    case Upkeep(_) =>
    case Move(v) => assert OnlyPackets(s, PacketStep(s, v));
  }

  lemma {:induction false} PassesLive(sfs: seq<Slotframe>, t: Table, locked: bool, tm: Timer, k: Clock, ps: seq<Pass>)
    requires TableOk(t) && tm.modulus > 0 && PassesOk(sfs, t, locked, tm, k, ps) && ps != []
    requires k.current.Some? ==> k.current.value in Links(sfs)
    ensures var k' := AdvanceAll(tm, k, ps);
      && (k'.current.Some? ==> k'.current.value in Links(sfs))
      && (k'.backup.Some? ==> k'.backup.value in Links(sfs))
    decreases |ps|
  {
    var k1 := Advance(tm, k, ps[0]);
    if |ps| > 1 {
      PassesLive(sfs, Refresh(t, locked, k), locked, tm, k1, ps[1..]);
    } else {
      assert AdvanceAll(tm, k1, ps[1..]) == k1;
    }
  }

  lemma RescheduleKeepsLive(m: Params, s: State, ps: seq<Pass>)
    requires m.Valid() && Shape(s) && LinksLive(s) && ps != []
    requires PassesOk(s.sfs, s.nbrs, s.locked, m.tm, s.clk, ps)
    ensures LinksLive(DoReschedule(m, s, ps))
  {
    PassesLive(s.sfs, s.nbrs, s.locked, m.tm, s.clk, ps);
  }

  lemma EnterKeepsLive(m: Params, s: State, first: Option<Addr>, second: Option<Addr>)
    requires m.Valid() && Shape(s) && LinksLive(s) && IrqEnabled(m, s, Enter(first, second))
    ensures LinksLive(DoEnter(s, first, second))
  {
  }

  lemma TxEndKeepsLive(m: Params, s: State, ok: bool, acked: bool, drift: int, random: nat)
    requires m.Valid() && Shape(s) && LinksLive(s) && s.phase.TxSlot? && TxPointersLive(s)
    ensures LinksLive(DoTxEnd(m, s, ok, acked, drift, random))
  {
    var t := DoTxEnd(m, s, ok, acked, drift, random);
    assert t.phase.SlotEnd? || t.phase.TxSlot?;
  }

  lemma IrqKeepsLive(m: Params, s: State, a: IrqAct)
    requires m.Valid() && Shape(s) && LinksLive(s) && IrqEnabled(m, s, a)
    ensures LinksLive(IrqStep(m, s, a))
  {
    match a
    case Skip(ps) => RescheduleKeepsLive(m, s, ps);
    case End(ps) => RescheduleKeepsLive(m, s, ps);
    case Enter(first, second) => EnterKeepsLive(m, s, first, second);
    case TxEnd(ok, acked, drift, random) =>
      if TxPointersLive(s) {
        TxEndKeepsLive(m, s, ok, acked, drift, random);
      }
    case RxEnd(_) =>
  }

  lemma LiveNeverFaults(m: Params, s: State, a: IrqAct)
    requires m.Valid() && Shape(s) && LinksLive(s) && IrqEnabled(m, s, a) && !a.TxEnd?
    ensures !Faults(s, a)
  {
  }

  lemma LiveStep(m: Params, s: State, a: IrqAct)
    requires m.Valid() && Shape(s) && LinksLive(s) && IrqEnabled(m, s, a)
    ensures LinksLive(IrqStep(m, s, a)) && !UsesStale(m, s, Irq(a))
  {
    IrqKeepsLive(m, s, a);
    if !a.TxEnd? {
      LiveNeverFaults(m, s, a);
    }
  }

  ghost predicate RemovesCarelessly(s: State, a: Act)
    requires Shape(s)
  {
    a.Main? && MainEnabled(s, a.m) && a.m.Section? && Careless(s, a.m.e)
  }

  /** No removal of the run is careless. */
  ghost predicate Careful(m: Params, s: State, acts: seq<Act>)
    requires m.Valid()
    decreases |acts|
  {
    acts == [] ||
    (!(Shape(s) && RemovesCarelessly(s, acts[0])) && Careful(m, Next(m, s, acts[0]), acts[1..]))
  }

  lemma {:induction false} CarefulRunIsLive(m: Params, s: State, acts: seq<Act>)
    requires m.Valid() && Sound(m, s) && LinksLive(s) && Careful(m, s, acts)
    ensures LinksLive(Exec(m, s, acts)) && !RunUsesStale(m, s, acts)
    decreases |acts|
  {
    if acts != [] {
      match acts[0] {
        case Main(x) =>
          if MainEnabled(s, x) {
            CarefulMainKeepsLive(m, s, x);
          }
        case Irq(x) =>
          if IrqEnabled(m, s, x) {
            LiveStep(m, s, x);
          }
      }
      StepKeepsSound(m, s, acts[0]);
      CarefulRunIsLive(m, Next(m, s, acts[0]), acts[1..]);
    }
  }

  /** Without a careless removal no run uses a null or freed pointer. */
  lemma CarefulRunsNeverFault(m: Params, asn0: nat, start0: nat, ps: seq<Pass>, s: State, acts: seq<Act>)
    requires Init(m, asn0, start0, ps, s) && Careful(m, s, acts)
    ensures !Exec(m, s, acts).faulted
  {
    InitInv(m, asn0, start0, ps, s);
    if ps != [] {
      StartLooksUp(s.sfs, s.nbrs, m.tm, Clock(asn0, start0, 0, false, 0, None, None), ps);
    }
    CarefulRunIsLive(m, s, acts);
    RunFaultsIff(m, s, acts);
  }

  // ---- One receiving slot ----

  /** The removal of the current link begins. */
  ghost predicate ClearsLink(m: Params, s: State, a: Act)
    requires m.Valid() && Shape(s)
  {
    && a.Main? && MainEnabled(s, a.m) && a.m.Section? && a.m.e.BeginRemove?
    && s.clk.current == Some(a.m.e.link)
  }

  ghost predicate ClearsSometime(m: Params, s: State, acts: seq<Act>)
    requires m.Valid()
    decreases |acts|
  {
    acts != [] && ((Shape(s) && ClearsLink(m, s, acts[0])) || ClearsSometime(m, Next(m, s, acts[0]), acts[1..]))
  }

  predicate NoRxEnd(acts: seq<Act>) {
    forall i | 0 <= i < |acts| :: !(acts[i].Irq? && acts[i].i.RxEnd?)
  }

  lemma ListeningStep(m: Params, s: State, a: Act)
    requires m.Valid() && Sound(m, s) && s.phase == RxSlot && !(a.Irq? && a.i.RxEnd?)
    ensures var t := Next(m, s, a);
      && t.phase == RxSlot
      && (t.clk.current == None <==> s.clk.current == None || ClearsLink(m, s, a))
  {
    match a
    case Main(x) =>
      if MainEnabled(s, x) {
        MainClock(m, s, x);
      }
    case Irq(_) =>
  }

  /** Until its Rx slot ends, the slot's link pointer becomes null exactly if the removal of that
      link begins meanwhile. So a frame received then is counted through a null pointer exactly if
      such a removal begins between the start of the slot and its end. */
  lemma {:induction false} LinkNullIffCleared(m: Params, s: State, acts: seq<Act>)
    requires m.Valid() && Sound(m, s) && s.phase == RxSlot && NoRxEnd(acts)
    ensures var t := Exec(m, s, acts);
      && t.phase == RxSlot
      && (t.clk.current == None <==> s.clk.current == None || ClearsSometime(m, s, acts))
    decreases |acts|
  {
    if acts != [] {
      assert forall j | 0 <= j < |acts[1..]| :: acts[1..][j] == acts[j + 1];
      ListeningStep(m, s, acts[0]);
      StepKeepsSound(m, s, acts[0]);
      LinkNullIffCleared(m, Next(m, s, acts[0]), acts[1..]);
    }
  }

  /** An interrupt step that uses a stale link right after a careless removal. */
  function Victim(s: State): IrqAct {
    match s.phase
    case Idle => Enter(None, None)
    case RxSlot => RxEnd(Some(Frame(None, 0)))
    case _ => End([Pass(None, 0, None, 0)])
  }

  /** And each careless one does: right after it some interrupt step can use a stale link, while
      after a careful action none can. */
  lemma CarelessIffFaultPossible(m: Params, s: State, a: MainAct)
    requires m.Valid() && Sound(m, s) && LinksLive(s) && MainEnabled(s, a)
    ensures var t := MainStep(m, s, a);
      Shape(t) && (RemovesCarelessly(s, Main(a)) <==> exists b :: UsesStale(m, t, Irq(b)))
  {
    var t := MainStep(m, s, a);
    StepKeepsSound(m, s, Main(a));
    if RemovesCarelessly(s, Main(a)) {
      CarelessFaults(m, s, a.e);
      assert UsesStale(m, t, Irq(Victim(t)));
    } else {
      CarefulMainKeepsLive(m, s, a);
      forall b ensures !UsesStale(m, t, Irq(b)) {
        if IrqEnabled(m, t, b) {
          LiveStep(m, t, b);
        }
      }
    }
  }

  /** Under the lock every interrupt step of the phase is possible without a packet or a link. */
  lemma VictimEnabled(m: Params, t: State)
    requires m.Valid() && Shape(t) && LockInv(t) && t.pc == Inside && (t.clk.current.Some? || t.phase == RxSlot)
    ensures IrqEnabled(m, t, Victim(t))
  {
    var p := Pass(None, 0, None, 0);
    assert PassesOk(t.sfs, Refresh(t.nbrs, t.locked, t.clk), t.locked, m.tm, Advance(m.tm, t.clk, p), []);
    assert [p][1..] == [];
  }

  lemma CarelessFaults(m: Params, s: State, a: SectionAct)
    requires m.Valid() && Shape(s) && LockInv(s) && LinksLive(s) && SectionEnabled(s, a) && Careless(s, a)
    requires Shape(SectionStep(m.q, s, a)) && LockInv(SectionStep(m.q, s, a))
    ensures var t := SectionStep(m.q, s, a); UsesStale(m, t, Irq(Victim(t)))
  {
    var t := SectionStep(m.q, s, a);
    if a.EndRemove? {
      RemovedLinks(s.sfs, s.removing.value);
    }
    VictimEnabled(m, t);
  }
}
