/** Runs from boot on which the machine does what one might not expect of the code: it uses a
    link that was removed, counts a reception inside a critical section, tears a backoff reset. */
module SlotExamples {
  import opened Types
  import opened Rings
  import opened Queue
  import opened Lookup
  import opened Store
  import opened Rescheduling
  import opened SlotMachine
  import opened SlotSections
  import opened SlotBackoff
  import opened SlotFaults
  import opened SlotInvariants
  import opened SlotRuns

  const SMALL := Params(Config(1, 5, 4, 4), Timer(10, 1000))

  /** The neighbours after boot: the virtual ones, `tx` shared links to broadcast counted. */
  function BootTable(tx: nat): Table {
    map[EbAddress := NewNbr(SMALL.q, EbAddress), Broadcast := NewNbr(SMALL.q, Broadcast).(txLinks := tx)]
  }

  /** The state after boot on schedule `sfs`, the first lookup having found these two links. */
  function Booted(sfs: seq<Slotframe>, tx: nat, current: Link, backup: Option<Link>): State {
    State(Outside, false, false, false, Idle, NotAdding, None, None, None,
          sfs, Clock(1, 10, 0, false, 0, Some(current), backup), None, None,
          BootTable(tx), map[], {}, EmptyRing(4, 4), 0, map[], 0, Log(map[], map[], [], [], map[], 0), false)
  }

  lemma BootedInit(sfs: seq<Slotframe>, tx: nat, current: Link, backup: Option<Link>)
    requires WellFormed(sfs) && Mirrors(Links(sfs), BootTable(tx))
    requires NextLink(map[EbAddress := 0, Broadcast := 0], Links(sfs), 0, Some(current), 1, backup)
    ensures Init(SMALL, 0, 0, [Pass(Some(current), 1, backup, 0)], Booted(sfs, tx, current, backup))
  {
    FirstRound(sfs, tx, current, backup);
    BootTableFresh(sfs, tx);
  }

  lemma BootTableFresh(sfs: seq<Slotframe>, tx: nat)
    requires Mirrors(Links(sfs), BootTable(tx))
    ensures FreshTable(SMALL.q, sfs, BootTable(tx))
  {
    NewTable(tx);
    var t := BootTable(tx);
    assert t[EbAddress].backoff == BackoffReset(SMALL.q) && t[Broadcast].backoff == BackoffReset(SMALL.q);
  }

  lemma OneRound(sfs: seq<Slotframe>, t: Table, k: Clock, p: Pass)
    requires TableOk(t)
    requires NextLink(PacketCounts(t), Links(sfs), k.asn, p.best, p.offset, p.backup)
    ensures StartOk(sfs, t, SMALL.tm, k, [p]) && Started(SMALL.tm, k, [p]) == StartRound(SMALL.tm, k, p)
    ensures Compensations([p]) == p.compensation
  {
    assert [p][1..] == [];
  }

  lemma FirstRound(sfs: seq<Slotframe>, tx: nat, current: Link, backup: Option<Link>)
    requires NextLink(map[EbAddress := 0, Broadcast := 0], Links(sfs), 0, Some(current), 1, backup)
    ensures TableOk(BootTable(tx))
    ensures var k0, ps := Clock(0, 0, 0, false, 0, None, None), [Pass(Some(current), 1, backup, 0)];
      && StartOk(sfs, BootTable(tx), SMALL.tm, k0, ps) && Compensations(ps) == 0
      && Started(SMALL.tm, k0, ps) == Clock(1, 10, 0, false, 0, Some(current), backup)
  {
    var p, k0 := Pass(Some(current), 1, backup, 0), Clock(0, 0, 0, false, 0, None, None);
    NewTable(tx);
    OneRound(sfs, BootTable(tx), k0, p);
    RoundAtBoot(current, backup);
  }

  lemma RoundAtBoot(current: Link, backup: Option<Link>)
    ensures StartRound(SMALL.tm, Clock(0, 0, 0, false, 0, None, None), Pass(Some(current), 1, backup, 0))
      == Clock(1, 10, 0, false, 0, Some(current), backup)
  {
  }

  lemma NewTable(tx: nat)
    ensures TableOk(BootTable(tx)) && PacketCounts(BootTable(tx)) == map[EbAddress := 0, Broadcast := 0]
  {
    var t := BootTable(tx);
    NothingQueued(EbAddress);
    NothingQueued(Broadcast);
    assert t.Keys == {EbAddress, Broadcast};
    EmptyCounts(t);
  }

  lemma NothingQueued(a: Addr)
    ensures var n := NewNbr(SMALL.q, a); n.ring.put == 0 && n.ring.get == 0
  {
  }

  lemma EmptyCounts(t: Table)
    requires TableOk(t) && t.Keys == {EbAddress, Broadcast}
    requires t[EbAddress].ring.put == t[EbAddress].ring.get && t[Broadcast].ring.put == t[Broadcast].ring.get
    ensures PacketCounts(t) == map[EbAddress := 0, Broadcast := 0]
  {
  }

  // ---- Running step by step ----

  lemma {:induction false} ExecThen(m: Params, s: State, acts: seq<Act>, a: Act)
    requires m.Valid()
    ensures Exec(m, s, acts + [a]) == Next(m, Exec(m, s, acts), a)
    decreases |acts|
  {
    if acts == [] {
      assert ([] + [a])[1..] == [];
    } else {
      assert (acts + [a])[0] == acts[0] && (acts + [a])[1..] == acts[1..] + [a];
      ExecThen(m, Next(m, s, acts[0]), acts[1..], a);
    }
  }

  /** One more action at the end of a run. */
  lemma Then(s: State, acts: seq<Act>, t: State, a: Act, u: State)
    requires Exec(SMALL, s, acts) == t && Next(SMALL, t, a) == u
    ensures Exec(SMALL, s, acts + [a]) == u
  {
    ExecThen(SMALL, s, acts, a);
  }

  /** Three actions, the states between them known. */
  lemma Then3(s: State, acts: seq<Act>, t: State, a: Act, u: State, b: Act, v: State, c: Act, w: State)
    requires Exec(SMALL, s, acts) == t && Next(SMALL, t, a) == u && Next(SMALL, u, b) == v && Next(SMALL, v, c) == w
    ensures Exec(SMALL, s, acts + [a] + [b] + [c]) == w
  {
    Then(s, acts, t, a, u);
    Then(s, acts + [a], u, b, v);
    Then(s, acts + [a] + [b], v, c, w);
  }

  /** Taking the lock with no slot running. */
  function Locking(): seq<Act> {
    [] + [Main(Lock(Ask))] + [Main(Lock(Request))] + [Main(Lock(Wait))] + [Main(Lock(Recheck))]
      + [Main(Lock(Take))] + [Main(Lock(Clear))]
  }

  predicate AtRest(s: State) {
    && s.pc == Outside && !s.locked && !s.requested && !s.inSlot
    && s.adding == NotAdding && s.removing == None && s.resetting == None && s.owed == None
  }

  lemma LockNext(s: State, a: LockAct, t: State)
    requires Shape(s) && s.removing == None && s.resetting == None && LockEnabled(s, a) && t == LockStep(s, a)
    ensures Next(SMALL, s, Main(Lock(a))) == t && Shape(t)
  {
  }

  /** One more action of the lock protocol. */
  lemma ThenLock(s: State, acts: seq<Act>, t: State, a: LockAct, u: State)
    requires Exec(SMALL, s, acts) == t && Shape(t) && t.removing == None && t.resetting == None
    requires LockEnabled(t, a) && u == LockStep(t, a)
    ensures Exec(SMALL, s, acts + [Main(Lock(a))]) == u && Shape(u)
  {
    LockNext(t, a, u);
    Then(s, acts, t, Main(Lock(a)), u);
  }

  lemma LockTaken(s: State)
    requires Shape(s) && AtRest(s)
    ensures Exec(SMALL, s, Locking()) == s.(pc := Inside, locked := true)
  {
    var s2 := s.(pc := Waiting, requested := true);
    ThenLock(s, [], s, Ask, s.(pc := Requesting));
    var a1 := [] + [Main(Lock(Ask))];
    ThenLock(s, a1, s.(pc := Requesting), Request, s2);
    var a2 := a1 + [Main(Lock(Request))];
    ThenLock(s, a2, s2, Wait, s2.(pc := Rechecking));
    var a3 := a2 + [Main(Lock(Wait))];
    ThenLock(s, a3, s2.(pc := Rechecking), Recheck, s2.(pc := Taking));
    var a4 := a3 + [Main(Lock(Recheck))];
    ThenLock(s, a4, s2.(pc := Taking), Take, s2.(pc := Clearing, locked := true));
    var a5 := a4 + [Main(Lock(Take))];
    ThenLock(s, a5, s2.(pc := Clearing, locked := true), Clear, s.(pc := Inside, locked := true));
  }

  // ---- Links that were removed ----

  const RX := Link(0, 0, false, true, false, Normal, Broadcast, 1, 1, 0, 0)
  const RX_ONLY := [Slotframe(0, 1, 1, [RX])]

  lemma RxOnlyLookup()
    ensures WellFormed(RX_ONLY) && Links(RX_ONLY) == {RX}
    ensures NextLink(map[EbAddress := 0, Broadcast := 0], Links(RX_ONLY), 0, Some(RX), 1, None)
    ensures Mirrors(Links(RX_ONLY), BootTable(0))
  {
    assert RX_ONLY[1..] == [];
    RxMirrors(RX);
  }

  lemma RxMirrors(l: Link)
    requires !l.tx
    ensures Mirrors({l}, BootTable(0))
  {
    forall a ensures MirrorsAt({l}, BootTable(0), a) {
      assert TxTo({l}, a) == {} && DedicatedTo({l}, a) == {};
    }
  }

  /** One shared link to broadcast, and one that only receives. */
  lemma OneTxMirrors(l: Link, rx: Link)
    requires l.tx && l.shared && l.addr == Broadcast && !rx.tx
    ensures Mirrors({l, rx}, BootTable(1))
  {
    forall a ensures MirrorsAt({l, rx}, BootTable(1), a) {
      assert TxTo({l, rx}, a) == (if a == Broadcast then {l} else {}) && DedicatedTo({l, rx}, a) == {};
    }
  }

  /** The machine inside a critical section, the slot scheduled before it still to come. */
  function LockedBefore(): State {
    Booted(RX_ONLY, 0, RX, None).(pc := Inside, locked := true)
  }

  lemma BootLocked(sfs: seq<Slotframe>, tx: nat, current: Link, backup: Option<Link>)
    requires WellFormed(sfs) && Mirrors(Links(sfs), BootTable(tx))
    requires NextLink(map[EbAddress := 0, Broadcast := 0], Links(sfs), 0, Some(current), 1, backup)
    ensures Init(SMALL, 0, 0, [Pass(Some(current), 1, backup, 0)], Booted(sfs, tx, current, backup))
    ensures var s := Booted(sfs, tx, current, backup); Exec(SMALL, s, Locking()) == s.(pc := Inside, locked := true)
  {
    BootedInit(sfs, tx, current, backup);
    NewTable(tx);
    LockTaken(Booted(sfs, tx, current, backup));
  }

  lemma BootRxOnly() returns (ps: seq<Pass>, s: State)
    ensures Init(SMALL, 0, 0, ps, s) && Exec(SMALL, s, Locking()) == LockedBefore()
  {
    RxOnlyLookup();
    BootLocked(RX_ONLY, 0, RX, None);
    ps, s := [Pass(Some(RX), 1, None, 0)], Booted(RX_ONLY, 0, RX, None);
  }

  function Listening(): State {
    LockedBefore().(inSlot := true, phase := RxSlot)
  }

  /** A slot on an installed link that only receives, without a backup. */
  lemma Listens(s: State, l: Link)
    requires Shape(s) && s.phase == Idle && !s.requested && s.clk.current == Some(l) && s.clk.backup == None
    requires l in Links(s.sfs) && l.rx && !l.tx
    ensures Next(SMALL, s, Irq(Enter(None, None))) == s.(inSlot := true, packet := None, nbr := None,
      clk := s.clk.(drift := 0, burst := false), phase := RxSlot)
  {
    assert IrqEnabled(SMALL, s, Enter(None, None)) && !Faults(s, Enter(None, None));
  }

  /** It receives a frame. */
  lemma Hears(s: State, l: Link, f: Frame)
    requires Shape(s) && s.phase == RxSlot && s.clk.current == Some(l) && l in Links(s.sfs) && l.sfHandle == 1
    requires l.timeslot !in s.apt && f.drift == s.clk.drift
    ensures Next(SMALL, s, Irq(RxEnd(Some(f)))) == s.(phase := SlotEnd, apt := s.apt[l.timeslot := 1],
      clk := s.clk.(burst := if f.pending.Some? then f.pending.value else s.clk.burst))
  {
    assert IrqEnabled(SMALL, s, RxEnd(Some(f))) && !Faults(s, RxEnd(Some(f)));
  }

  lemma ListensLocked()
    ensures Shape(LockedBefore()) && Next(SMALL, LockedBefore(), Irq(Enter(None, None))) == Listening()
  {
    RxOnlyLookup();
    NewTable(0);
    Listens(LockedBefore(), RX);
  }

  lemma Begins(s: State, l: Link)
    requires Shape(s) && s.pc == Inside && s.removing == None && s.resetting == None && s.owed == None
    requires l in Links(s.sfs)
    ensures Next(SMALL, s, Main(Section(BeginRemove(l)))) ==
      s.(removing := Some(l), clk := if s.clk.current == Some(l) then s.clk.(current := None) else s.clk)
  {
    assert SectionEnabled(s, BeginRemove(l));
  }

  lemma Ends(s: State, l: Link)
    requires Shape(s) && s.pc == Inside && s.removing == Some(l) && s.resetting == None && s.owed == None
    ensures Next(SMALL, s, Main(Section(EndRemove))) ==
      s.(removing := None, owed := Some(Lost(l)), sfs := Cut(s.sfs, l.sfHandle, {l}))
  {
    assert SectionEnabled(s, EndRemove);
  }

  lemma RemovesWhileListening()
    ensures Next(SMALL, Listening(), Main(Section(BeginRemove(RX)))) == Cleared()
  {
    RxOnlyLookup();
    NewTable(0);
    Begins(Listening(), RX);
  }

  lemma ReceivesThroughNull()
    ensures Next(SMALL, Cleared(), Irq(RxEnd(Some(Frame(None, 0))))).faulted
  {
    RxOnlyLookup();
    NewTable(0);
    assert IrqEnabled(SMALL, Cleared(), RxEnd(Some(Frame(None, 0)))) && Faults(Cleared(), RxEnd(Some(Frame(None, 0))));
  }

  function Cleared(): State {
    Listening().(removing := Some(RX), clk := Listening().clk.(current := None))
  }

  function NullLinkActs(): seq<Act> {
    Locking() + [Irq(Enter(None, None))] + [Main(Section(BeginRemove(RX)))] + [Irq(RxEnd(Some(Frame(None, 0))))]
  }

  /** A slot listens under the lock; the removal of its link clears the current link; the frame
      it then receives is counted through the null pointer. */
  lemma NullLinkRun() returns (ps: seq<Pass>, s: State)
    ensures Init(SMALL, 0, 0, ps, s) && Exec(SMALL, s, NullLinkActs()).faulted
  {
    ps, s := BootRxOnly();
    ListensLocked();
    RemovesWhileListening();
    ReceivesThroughNull();
    Then3(s, Locking(), LockedBefore(), Irq(Enter(None, None)), Listening(), Main(Section(BeginRemove(RX))), Cleared(),
      Irq(RxEnd(Some(Frame(None, 0)))), Next(SMALL, Cleared(), Irq(RxEnd(Some(Frame(None, 0))))));
  }

  const TX := Link(1, 1, true, false, true, Normal, Broadcast, 0, 1, 0, 0)
  const BOTH := [Slotframe(1, 0, 1, [TX]), Slotframe(0, 1, 1, [RX])]

  lemma BothLookup()
    ensures WellFormed(BOTH) && Links(BOTH) == {TX, RX}
    ensures NextLink(map[EbAddress := 0, Broadcast := 0], Links(BOTH), 0, Some(TX), 1, Some(RX))
    ensures Mirrors(Links(BOTH), BootTable(1))
  {
    OneTxMirrors(TX, RX);
    assert BOTH[1..] == RX_ONLY && RX_ONLY[1..] == [];
    assert Links(RX_ONLY) == {RX};
    assert Links(BOTH) == Listed(BOTH[0].links) + Links(BOTH[1..]);
  }

  /** A critical section with two links due: TX, and RX as its backup. */
  function LockedBoth(): State {
    Booted(BOTH, 1, TX, Some(RX)).(pc := Inside, locked := true)
  }

  lemma BootBoth() returns (ps: seq<Pass>, s: State)
    ensures Init(SMALL, 0, 0, ps, s) && Exec(SMALL, s, Locking()) == LockedBoth()
  {
    BothLookup();
    BootLocked(BOTH, 1, TX, Some(RX));
    ps, s := [Pass(Some(TX), 1, Some(RX), 0)], Booted(BOTH, 1, TX, Some(RX));
  }

  function Unlinking(): State {
    LockedBoth().(removing := Some(RX))
  }

  function Unlinked(): State {
    LockedBoth().(owed := Some(Lost(RX)), sfs := Cut(BOTH, 1, {RX}))
  }

  lemma BackupFreed()
    ensures Next(SMALL, LockedBoth(), Main(Section(BeginRemove(RX)))) == Unlinking()
    ensures Next(SMALL, Unlinking(), Main(Section(EndRemove))) == Unlinked()
  {
    BothLookup();
    NewTable(1);
    Begins(LockedBoth(), RX);
    Ends(Unlinking(), RX);
  }

  lemma FallsBackOnStale(s: State)
    requires Shape(s) && s.locked && s.phase == Idle && s.clk.current.Some? && !s.requested
    requires s.clk.backup.Some? && Stale(s, s.clk.backup)
    ensures Next(SMALL, s, Irq(Enter(None, None))).faulted
  {
    assert IrqEnabled(SMALL, s, Enter(None, None)) && Faults(s, Enter(None, None));
  }

  lemma ListensOnFreed()
    ensures Next(SMALL, Unlinked(), Irq(Enter(None, None))).faulted
  {
    BothLookup();
    NewTable(1);
    CutWellFormed(BOTH, RX);
    RemovedLinks(BOTH, RX);
    FallsBackOnStale(Unlinked());
  }

  function FreedBackupActs(): seq<Act> {
    Locking() + [Main(Section(BeginRemove(RX)))] + [Main(Section(EndRemove))] + [Irq(Enter(None, None))]
  }

  /** The backup link is removed; the slot scheduled before falls back to it all the same. */
  lemma FreedBackupRun() returns (ps: seq<Pass>, s: State)
    ensures Init(SMALL, 0, 0, ps, s) && Exec(SMALL, s, FreedBackupActs()).faulted
  {
    ps, s := BootBoth();
    BackupFreed();
    ListensOnFreed();
    Then3(s, Locking(), LockedBoth(), Main(Section(BeginRemove(RX))), Unlinking(), Main(Section(EndRemove)), Unlinked(),
      Irq(Enter(None, None)), Next(SMALL, Unlinked(), Irq(Enter(None, None))));
  }

  // ---- A reception inside a critical section ----

  function Received(): State {
    Listening().(phase := SlotEnd, apt := map[0 := 1])
  }

  lemma CountsReception()
    ensures Next(SMALL, Listening(), Irq(RxEnd(Some(Frame(None, 0))))) == Received()
  {
    RxOnlyLookup();
    NewTable(0);
    Hears(Listening(), RX, Frame(None, 0));
  }

  lemma Reads(s: State, i: nat)
    requires Shape(s) && s.pc == Inside && s.removing == None && s.resetting == None && s.owed == None
    ensures Next(SMALL, s, Read(i)).seen == Apt(s.apt, i)
  {
    assert SectionEnabled(s, ReadApt(i));
  }

  function ReceptionActs(): seq<Act> {
    [] + [Irq(Enter(None, None))] + [Irq(RxEnd(Some(Frame(None, 0))))]
  }

  lemma SeenWithReception()
    ensures Exec(SMALL, LockedBefore(), ReceptionActs() + [Read(0)]).seen == 1
  {
    var t := LockedBefore();
    ListensLocked();
    CountsReception();
    NewTable(0);
    Then(t, [], t, Irq(Enter(None, None)), Listening());
    Then(t, [] + [Irq(Enter(None, None))], Listening(), Irq(RxEnd(Some(Frame(None, 0)))), Received());
    ExecThen(SMALL, t, ReceptionActs(), Read(0));
    RxOnlyLookup();
    Reads(Received(), 0);
  }

  lemma NoMainActs()
    ensures OnlyMain(ReceptionActs()) == []
  {
    var a, b := Irq(Enter(None, None)), Irq(RxEnd(Some(Frame(None, 0))));
    assert ReceptionActs() == [a, b] && [a, b][1..] == [b] && [b][1..] == [];
    assert OnlyMain([b]) == [];
  }

  lemma SeenWithoutReception()
    ensures Exec(SMALL, LockedBefore(), OnlyMain(ReceptionActs()) + [Read(0)]).seen == 0
  {
    NoMainActs();
    ExecThen(SMALL, LockedBefore(), [], Read(0));
    ListensLocked();
    Reads(LockedBefore(), 0);
  }

  /** Inside one critical section, reached from boot, a slot receives a frame: the main thread
      reads 1 where it would read 0 without the interrupt. */
  lemma ReceptionSeenRun() returns (ps: seq<Pass>, s: State)
    ensures Init(SMALL, 0, 0, ps, s)
    ensures var t := Exec(SMALL, s, Locking());
      && Exec(SMALL, t, ReceptionActs() + [Read(0)]).seen == 1
      && Exec(SMALL, t, OnlyMain(ReceptionActs()) + [Read(0)]).seen == 0
  {
    ps, s := BootRxOnly();
    SeenWithReception();
    SeenWithoutReception();
  }

  // ---- A torn reset ----

  /** The exponent a failure leaves. */
  function NextExponent(c: Config, b: Backoff): nat {
    BackoffInc(c, b, 0).exponent
  }

  lemma FailedBackoff(c: Config, n: Nbr, locked: bool, leaves: bool)
    requires c.Valid() && n.ring.Valid() && !n.isBroadcast
    ensures var e := NextExponent(c, n.backoff);
      AfterSent(c, n, locked, leaves, true, false, 64 * (Pow2(e) - 1)).backoff == Backoff(e, Pow2(e))
  {
    var e := NextExponent(c, n.backoff);
    DrawTakesAll(e, Pow2(e) - 1, 0);
  }

  lemma FailureFillsWindow(m: Params, s: State, n: Addr)
    requires m.Valid() && TableOk(s.nbrs) && s.dequeued.Valid() && s.phase.TxSlot? && TxPointersLive(s)
    requires s.nbr == Some(n) && !s.nbrs[n].isBroadcast && s.clk.current.value.shared
    requires s.phase.index < |s.dequeued.slots|
    ensures var e := NextExponent(m.q, s.nbrs[n].backoff);
      var t := DoTxEnd(m, s, false, false, 0, 64 * (Pow2(e) - 1));
      n in t.nbrs && t.nbrs[n].backoff == Backoff(e, Pow2(e))
  {
    var e := NextExponent(m.q, s.nbrs[n].backoff);
    var leaves := TxEndTable(m, s, false, false, 0, 64 * (Pow2(e) - 1));
    FailedBackoff(m.q, s.nbrs[n], s.locked, leaves);
  }

  /** The first store, the end of the slot, the second store. */
  function TearActs(n: Addr, end: IrqAct): seq<Act> {
    [] + [Main(Upkeep(ResetWindow(n)))] + [Irq(end)] + [Main(Upkeep(ResetExponent))]
  }

  lemma WindowStored(m: Params, s: State, n: Addr)
    requires m.Valid() && Sound(m, s) && UpkeepEnabled(s, ResetWindow(n))
    requires s.removing == None && s.resetting == None && s.owed == None
    ensures var t := Next(m, s, Main(Upkeep(ResetWindow(n))));
      && Sound(m, t) && t == s.(resetting := Some(n), nbrs := t.nbrs)
      && n in t.nbrs && t.nbrs[n].isBroadcast == s.nbrs[n].isBroadcast
      && t.nbrs[n].backoff == s.nbrs[n].backoff.(window := 0) && BackoffFits(m.q, t.nbrs[n], false)
  {
    StepKeepsSound(m, s, Main(Upkeep(ResetWindow(n))));
  }

  lemma FailureEnds(m: Params, s: State, n: Addr) returns (end: IrqAct)
    requires m.Valid() && Sound(m, s) && m.q.minBe < m.q.maxBe && s.phase.TxSlot? && s.nbr == Some(n)
    requires n in s.nbrs && !s.nbrs[n].isBroadcast && s.clk.current.Some? && s.clk.current.value.shared
    requires BackoffFits(m.q, s.nbrs[n], false)
    ensures end.TxEnd? && !end.ok
    ensures var t := Next(m, s, Irq(end));
      n in t.nbrs && t.nbrs[n].backoff.window > Pow2(m.q.minBe) && t.resetting == s.resetting && t.owed == s.owed
  {
    var e := NextExponent(m.q, s.nbrs[n].backoff);
    end := TxEnd(false, false, 0, 64 * (Pow2(e) - 1));
    NextGrows(m.q, s.nbrs[n]);
    FailureFillsWindow(m, s, n);
    EndStep(m, s, end.random);
  }

  lemma EndStep(m: Params, s: State, random: nat)
    requires m.Valid() && Shape(s) && s.phase.TxSlot? && TxPointersLive(s)
    ensures var t := Next(m, s, Irq(TxEnd(false, false, 0, random)));
      t.nbrs == DoTxEnd(m, s, false, false, 0, random).nbrs && t.resetting == s.resetting && t.owed == s.owed
  {
    assert IrqEnabled(m, s, TxEnd(false, false, 0, random));
  }

  lemma ExponentStored(m: Params, s: State, n: Addr)
    requires m.Valid() && Sound(m, s) && s.resetting == Some(n) && s.owed == None && n in s.nbrs
    requires s.nbrs[n].backoff.window > Pow2(m.q.minBe)
    ensures !TableFits(m.q, Next(m, s, Main(Upkeep(ResetExponent))).nbrs, true)
  {
    var t := Next(m, s, Main(Upkeep(ResetExponent)));
    assert UpkeepEnabled(s, ResetExponent);
    assert !BackoffFits(m.q, t.nbrs[n], true);
  }

  lemma NextGrows(c: Config, n: Nbr)
    requires c.Valid() && c.minBe < c.maxBe && BackoffFits(c, n, false)
    ensures Pow2(NextExponent(c, n.backoff)) > Pow2(c.minBe)
  {
    Pow2Mono(c.minBe + 1, NextExponent(c, n.backoff));
  }

  /** During any Tx slot on a shared link, a reset of the neighbour served is torn if the slot
      fails between its two stores with the largest draw, provided the exponent can grow. The
      functions that reset a known neighbour without the lock are tsch_queue_reset and
      custom_reset_all_backoff_exponents; the node's own call of the second is commented out. */
  lemma AnyFailureCanTear(m: Params, s: State, n: Addr) returns (end: IrqAct)
    requires m.Valid() && Sound(m, s) && m.q.minBe < m.q.maxBe && s.phase.TxSlot? && s.nbr == Some(n)
    requires n in s.nbrs && !s.nbrs[n].isBroadcast && s.clk.current.Some? && s.clk.current.value.shared
    requires s.pc == Outside && s.removing == None && s.resetting == None && s.owed == None
    ensures end.TxEnd? && !end.ok && !TableFits(m.q, Exec(m, s, TearActs(n, end)).nbrs, true)
  {
    WindowStored(m, s, n);
    end := FailureTears(m, Next(m, s, Main(Upkeep(ResetWindow(n)))), n);
    Exec3(m, s, Main(Upkeep(ResetWindow(n))), Irq(end), Main(Upkeep(ResetExponent)));
  }

  lemma FailureTears(m: Params, s: State, n: Addr) returns (end: IrqAct)
    requires m.Valid() && Sound(m, s) && m.q.minBe < m.q.maxBe && s.phase.TxSlot? && s.nbr == Some(n)
    requires n in s.nbrs && !s.nbrs[n].isBroadcast && s.clk.current.Some? && s.clk.current.value.shared
    requires s.resetting == Some(n) && s.owed == None && BackoffFits(m.q, s.nbrs[n], false)
    ensures end.TxEnd? && !end.ok
    ensures var t := Next(m, s, Irq(end)); !TableFits(m.q, Next(m, t, Main(Upkeep(ResetExponent))).nbrs, true)
  {
    end := FailureEnds(m, s, n);
    StepKeepsSound(m, s, Irq(end));
    ExponentStored(m, Next(m, s, Irq(end)), n);
  }

  lemma Exec3(m: Params, s: State, a: Act, b: Act, c: Act)
    requires m.Valid()
    ensures Exec(m, s, [] + [a] + [b] + [c]) == Next(m, Next(m, Next(m, s, a), b), c)
  {
    ExecThen(m, s, [], a);
    ExecThen(m, s, [] + [a], b);
    ExecThen(m, s, [] + [a] + [b], c);
  }

  // ---- A burst count left over ----

  const ODD := Link(0, 0, false, true, false, Normal, Broadcast, 1, 2, 1, 0)
  const ODD_ONLY := [Slotframe(0, 1, 2, [ODD])]

  lemma OddLookup(asn: nat)
    requires asn % 2 == 0
    ensures WellFormed(ODD_ONLY) && Links(ODD_ONLY) == {ODD}
    ensures NextLink(map[EbAddress := 0, Broadcast := 0], Links(ODD_ONLY), asn, Some(ODD), 1, None)
  {
    assert ODD_ONLY[1..] == [];
  }

  function OddBooted(): State {
    Booted(ODD_ONLY, 0, ODD, None)
  }

  function OddListening(): State {
    OddBooted().(inSlot := true, phase := RxSlot)
  }

  /** A frame with its pending bit set has asked for a burst. */
  function OddBurst(): State {
    OddListening().(phase := SlotEnd, apt := map[1 := 1], clk := OddBooted().clk.(burst := true))
  }

  lemma OddListens()
    ensures Next(SMALL, OddBooted(), Irq(Enter(None, None))) == OddListening()
  {
    OddLookup(0);
    NewTable(0);
    Listens(OddBooted(), ODD);
  }

  lemma OddReceives()
    ensures Next(SMALL, OddListening(), Irq(RxEnd(Some(Frame(Some(true), 0))))) == OddBurst()
  {
    OddLookup(0);
    NewTable(0);
    Hears(OddListening(), ODD, Frame(Some(true), 0));
  }

  lemma OddReplays()
    ensures Next(SMALL, OddBurst(), Irq(End([Pass(None, 0, None, 0)]))).clk.burstCount == 1
  {
    var s, p := OddBurst(), Pass(None, 0, None, 0);
    NewTable(0);
    OddLookup(0);
    assert [p][1..] == [];
    assert Bursting(s.clk) && PassesOk(s.sfs, s.nbrs, s.locked, SMALL.tm, s.clk, [p]);
    assert IrqEnabled(SMALL, s, End([p]));
    assert AdvanceAll(SMALL.tm, s.clk, [p]) == Advance(SMALL.tm, s.clk, p);
  }

  function BurstActs(): seq<Act> {
    [] + [Irq(Enter(None, None))] + [Irq(RxEnd(Some(Frame(Some(true), 0))))] + [Irq(End([Pass(None, 0, None, 0)]))]
  }

  /** A run from boot, on one Rx link of period 2, that ends with a burst count of 1. */
  lemma BurstRun() returns (ps: seq<Pass>, s: State)
    ensures Init(SMALL, 0, 0, ps, s) && Exec(SMALL, s, BurstActs()).clk.burstCount == 1
  {
    OddLookup(0);
    RxMirrors(ODD);
    BootedInit(ODD_ONLY, 0, ODD, None);
    ps, s := [Pass(Some(ODD), 1, None, 0)], OddBooted();
    OddListens();
    OddReceives();
    OddReplays();
    var a, b, c := Irq(Enter(None, None)), Irq(RxEnd(Some(Frame(Some(true), 0)))), Irq(End([Pass(None, 0, None, 0)]));
    Then3(s, [], s, a, OddListening(), b, OddBurst(), c, Next(SMALL, OddBurst(), c));
  }

  /** Start-up on the same schedule with that count left over: the link it finds is not due. */
  lemma RestartOutOfStep()
    ensures TableOk(BootTable(0))
    ensures var k, ps := Clock(2, 20, 0, false, 1, None, None), [Pass(Some(ODD), 1, None, 0)];
      var s := Started(SMALL.tm, k, ps);
      StartOk(ODD_ONLY, BootTable(0), SMALL.tm, k, ps) && s.current == Some(ODD) && !Due(s, ODD)
  {
    var k, p := Clock(2, 20, 0, false, 1, None, None), Pass(Some(ODD), 1, None, 0);
    NewTable(0);
    OddLookup(2);
    OneRound(ODD_ONLY, BootTable(0), k, p);
    RestartDueIff(ODD_ONLY, BootTable(0), SMALL.tm, k, [p]);
  }
}
