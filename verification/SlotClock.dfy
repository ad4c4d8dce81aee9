/** The clock of the slot machine: alignment and the time account, action by action. */
module SlotClock {
  import opened Types
  import opened Rings
  import opened Queue
  import opened Lookup
  import opened Rescheduling
  import opened SlotMachine
  import NumberTheory

  /** The time account: whole timeslots since the start, plus every correction. */
  predicate OnTime(tm: Timer, asn0: nat, start0: nat, corrections: int, k: Clock)
    requires tm.modulus > 0
  {
    k.slotStart == SlotStartAt(tm, start0, k.asn - asn0, corrections)
  }

  ghost predicate ClockInv(m: Params, asn0: nat, start0: nat, s: State)
    requires m.Valid()
  {
    && Aligned(s.clk) && s.clk.asn >= asn0
    && 0 <= s.clk.slotStart < m.tm.modulus
    && OnTime(m.tm, asn0, start0, s.log.corrections, s.clk)
    && (s.phase == Idle ==> s.clk.drift == 0)
  }

  lemma RescheduleKeepsTime(tm: Timer, asn0: nat, start0: nat, corrections: int, k: Clock, ps: seq<Pass>)
    requires tm.modulus > 0 && 0 <= k.slotStart < tm.modulus && ps != []
    requires OnTime(tm, asn0, start0, corrections, k)
    ensures var k' := AdvanceAll(tm, k, ps);
      && k'.drift == 0 && 0 <= k'.slotStart < tm.modulus
      && OnTime(tm, asn0, start0, corrections + k.drift + Compensations(ps), k')
  {
    var k' := AdvanceAll(tm, k, ps);
    PassesKeepTime(tm, k, ps);
    SlotStartTwice(tm, start0, k.asn - asn0, corrections, k'.asn - k.asn, k.drift + Compensations(ps));
  }

  lemma RescheduleKeepsClock(m: Params, asn0: nat, start0: nat, s: State, ps: seq<Pass>)
    requires m.Valid() && Shape(s) && ClockInv(m, asn0, start0, s) && ps != []
    requires PassesOk(s.sfs, s.nbrs, s.locked, m.tm, s.clk, ps)
    ensures ClockInv(m, asn0, start0, DoReschedule(m, s, ps))
  {
    PassesAlign(s.sfs, s.nbrs, s.locked, m.tm, s.clk, ps);
    RescheduleKeepsTime(m.tm, asn0, start0, s.log.corrections, s.clk, ps);
  }

  // ---- Every action ----

  lemma MainClock(m: Params, s: State, a: MainAct)
    requires m.Valid() && TableOk(s.nbrs) && s.dequeued.Valid() && MainEnabled(s, a)
    ensures var t := MainStep(m, s, a);
      && t.phase == s.phase && t.log.corrections == s.log.corrections
      && t.clk == if a.Section? && Clears(s, a.e) then s.clk.(current := None) else s.clk
  {
  }

  lemma MainKeepsClock(m: Params, asn0: nat, start0: nat, s: State, a: MainAct)
    requires m.Valid() && Shape(s) && ClockInv(m, asn0, start0, s) && MainEnabled(s, a)
    ensures ClockInv(m, asn0, start0, MainStep(m, s, a))
  {
    MainClock(m, s, a);
    ClockKept(m, asn0, start0, s, MainStep(m, s, a));
  }

  lemma ClockKept(m: Params, asn0: nat, start0: nat, s: State, t: State)
    requires m.Valid() && ClockInv(m, asn0, start0, s)
    requires t.clk == s.clk || t.clk == s.clk.(current := None)
    requires t.phase == s.phase && t.log.corrections == s.log.corrections
    ensures ClockInv(m, asn0, start0, t)
  {
  }

  /** Within a slot the clock stands; at most the backup has become the current link. */
  ghost predicate ClockStands(s: State, t: State) {
    && t.clk.asn == s.clk.asn && t.clk.slotStart == s.clk.slotStart && t.log.corrections == s.log.corrections
    && t.clk.backup == s.clk.backup && t.clk.burstCount == s.clk.burstCount
    && (t.clk.current == s.clk.current || t.clk.current == s.clk.backup)
    && (t.phase == Idle ==> t.clk.drift == 0)
  }

  lemma StandingClockKept(m: Params, asn0: nat, start0: nat, s: State, t: State)
    requires m.Valid() && ClockInv(m, asn0, start0, s) && ClockStands(s, t)
    ensures ClockInv(m, asn0, start0, t)
  {
  }

  lemma SlotClockStands(m: Params, s: State, a: IrqAct)
    requires m.Valid() && Shape(s) && IrqEnabled(m, s, a) && !a.Skip? && !a.End?
    ensures ClockStands(s, IrqStep(m, s, a))
  {
    match a
    case Enter(first, second) => assert OnlyEntry(s, DoEnter(s, first, second));
    case TxEnd(ok, acked, drift, random) =>
      if TxPointersLive(s) {
        assert OnlyTx(s, DoTxEnd(m, s, ok, acked, drift, random));
      }
    case RxEnd(_) =>
  }

  lemma IrqKeepsClock(m: Params, asn0: nat, start0: nat, s: State, a: IrqAct)
    requires m.Valid() && Shape(s) && ClockInv(m, asn0, start0, s) && IrqEnabled(m, s, a)
    ensures ClockInv(m, asn0, start0, IrqStep(m, s, a))
  {
    match a
    case Skip(ps) => RescheduleKeepsClock(m, asn0, start0, s, ps);
    case End(ps) => RescheduleKeepsClock(m, asn0, start0, s, ps);
    case _ =>
      SlotClockStands(m, s, a);
      StandingClockKept(m, asn0, start0, s, IrqStep(m, s, a));
  }

  lemma InitAligned(sfs: seq<Slotframe>, t: Table, tm: Timer, k: Clock, ps: seq<Pass>)
    requires TableOk(t) && tm.modulus > 0 && StartOk(sfs, t, tm, k, ps)
    requires k.burstCount == 0 && k.current == None && k.backup == None
    ensures Aligned(Started(tm, k, ps))
  {
    if ps != [] {
      StartLooksUp(sfs, t, tm, k, ps);
    }
  }

  lemma InitClock(m: Params, asn0: nat, start0: nat, ps: seq<Pass>, s: State)
    requires Init(m, asn0, start0, ps, s)
    ensures ClockInv(m, asn0, start0, s)
  {
    var k0 := Clock(asn0, start0, 0, false, 0, None, None);
    InitAligned(s.sfs, s.nbrs, m.tm, k0, ps);
    StartedOnTime(m.tm, asn0, start0, ps);
  }

  lemma StartedOnTime(tm: Timer, asn0: nat, start0: nat, ps: seq<Pass>)
    requires start0 < tm.modulus
    ensures var k := Started(tm, Clock(asn0, start0, 0, false, 0, None, None), ps);
      OnTime(tm, asn0, start0, Compensations(ps), k) && k.asn >= asn0 && k.drift == 0
  {
    var k0 := Clock(asn0, start0, 0, false, 0, None, None);
    StartedAtBoot(tm, k0, ps);
    PassesKeepTime(tm, k0, ps);
    AsnGrows(tm, k0, ps);
  }

  lemma {:induction false} AsnGrows(tm: Timer, k: Clock, ps: seq<Pass>)
    requires tm.modulus > 0 && k.drift == 0
    ensures AdvanceAll(tm, k, ps).asn >= k.asn && AdvanceAll(tm, k, ps).drift == 0
    decreases |ps|
  {
    if ps != [] {
      AsnGrows(tm, Advance(tm, k, ps[0]), ps[1..]);
    }
  }
}
