/** What the slot machine holds, told from the actions of a run: drift, burst flag and Tx status,
    the time corrections, each neighbour's backoff, each packet's attempts, and the APT table. */
module SlotHistory {
  import opened Types
  import opened Rings
  import opened Queue
  import opened Lookup
  import opened Store
  import opened Rescheduling
  import opened SlotMachine
  import opened SlotInvariants
  import opened SlotClock
  import opened SlotBackoff
  import opened SlotRuns
  import opened SlotSections

  ghost predicate Happens(m: Params, s: State, a: Act)
    requires m.Valid() && Shape(s)
  {
    match a
    case Main(x) => MainEnabled(s, x)
    case Irq(x) => IrqEnabled(m, s, x)
  }

  // ---- What slots report ----

  /** The drift correction not yet applied, the wish for a burst, the last Tx status not yet read. */
  datatype Told = Told(drift: int, burst: bool, status: nat)

  /** An ACK, or a frame received unlocked, brings a drift; an ACK or a frame's pending bit asks for
      a burst; a Tx slot of slotframe 1 reports success or failure. A slot start and a rescheduling
      take the drift back, a slot start the wish as well, and the scheduler the status. */
  ghost function Tell(m: Params, s: State, a: Act, was: Told): Told
    requires m.Valid() && Shape(s)
  {
    if !Happens(m, s, a) then was
    else
      match a
      case Main(x) => if x == Section(TakeStatus) then was.(status := 0) else was
      case Irq(Skip(_)) => was.(drift := 0)
      case Irq(End(_)) => was.(drift := 0)
      case Irq(Enter(_, _)) => was.(drift := 0, burst := false)
      case Irq(TxEnd(ok, acked, drift, _)) =>
        Told(drift, was.burst || acked, if !OnUnicast(s) then was.status else if ok then 1 else 2)
      case Irq(RxEnd(None)) => was
      case Irq(RxEnd(Some(f))) =>
        Told(if s.locked then was.drift else f.drift,
             if f.pending.Some? then f.pending.value else was.burst, was.status)
  }

  predicate OnUnicast(s: State) {
    s.clk.current.Some? && s.clk.current.value.sfHandle == 1
  }

  ghost function TellAll(m: Params, s: State, acts: seq<Act>, was: Told): Told
    requires m.Valid()
    decreases |acts|
  {
    if acts == [] then was
    else TellAll(m, Next(m, s, acts[0]), acts[1..], if Shape(s) then Tell(m, s, acts[0], was) else was)
  }

  /** The time corrections of a run: each drift told before its slot is rescheduled, and every
      round's compensation. */
  ghost function Corrected(m: Params, s: State, acts: seq<Act>, was: Told): int
    requires m.Valid()
    decreases |acts|
  {
    if acts == [] then 0
    else
      var told := if Shape(s) then Tell(m, s, acts[0], was) else was;
      (if Shape(s) then Correction(m, s, acts[0], was) else 0) + Corrected(m, Next(m, s, acts[0]), acts[1..], told)
  }

  ghost function Correction(m: Params, s: State, a: Act, was: Told): int
    requires m.Valid() && Shape(s)
  {
    if !Happens(m, s, a) then 0
    else
      match a
      case Irq(Skip(ps)) => was.drift + Compensations(ps)
      case Irq(End(ps)) => was.drift + Compensations(ps)
      case _ => 0
  }

  function ToldBy(s: State): Told {
    Told(s.clk.drift, s.clk.burst, s.txStatus)
  }

  lemma {:induction false} AdvanceKeepsBurst(tm: Timer, k: Clock, ps: seq<Pass>)
    requires tm.modulus > 0
    ensures AdvanceAll(tm, k, ps).burst == k.burst && (ps != [] ==> AdvanceAll(tm, k, ps).drift == 0)
    decreases |ps|
  {
    if ps != [] {
      AdvanceKeepsBurst(tm, Advance(tm, k, ps[0]), ps[1..]);
    }
  }

  lemma RescheduleTells(m: Params, s: State, ps: seq<Pass>)
    requires m.Valid() && TableOk(s.nbrs) && ps != []
    ensures var t := DoReschedule(m, s, ps);
      && ToldBy(t) == ToldBy(s).(drift := 0)
      && t.log.corrections == s.log.corrections + s.clk.drift + Compensations(ps)
  {
    AdvanceKeepsBurst(m.tm, s.clk, ps);
  }

  lemma TxEndTells(m: Params, s: State, ok: bool, acked: bool, drift: int, random: nat)
    requires m.Valid() && Shape(s) && LockInv(s) && TxInv(s) && s.phase.TxSlot?
    ensures var t := DoTxEnd(m, s, ok, acked, drift, random);
      && ToldBy(t) == Told(drift, s.clk.burst || acked, if !OnUnicast(s) then s.txStatus else if ok then 1 else 2)
      && t.log.corrections == s.log.corrections
  {
  }

  lemma IrqTells(m: Params, s: State, a: IrqAct)
    requires m.Valid() && Shape(s) && LockInv(s) && TxInv(s) && IrqEnabled(m, s, a)
    ensures var t := IrqEffect(m, s, a);
      && ToldBy(t) == Tell(m, s, Irq(a), ToldBy(s))
      && t.log.corrections == s.log.corrections + Correction(m, s, Irq(a), ToldBy(s))
  {
    match a
    case Skip(ps) => RescheduleTells(m, s, ps);
    case End(ps) => RescheduleTells(m, s, ps);
    case TxEnd(ok, acked, drift, random) => TxEndTells(m, s, ok, acked, drift, random);
    case Enter(first, second) => assert OnlyEntry(s, DoEnter(s, first, second));
    case RxEnd(_) =>
  }

  lemma MainTells(m: Params, s: State, a: MainAct)
    requires m.Valid() && Shape(s) && MainEnabled(s, a)
    ensures var t := MainStep(m, s, a);
      && ToldBy(t) == Tell(m, s, Main(a), ToldBy(s)) && t.log.corrections == s.log.corrections
  {
    MainClock(m, s, a);
    match a
    case Lock(_) =>
    case Section(e) => SectionTells(m.q, s, e);
    case Upkeep(_) =>
    case Move(v) => assert OnlyPackets(s, PacketStep(s, v));
  }

  lemma SectionTells(c: Config, s: State, a: SectionAct)
    requires c.Valid() && SectionEnabled(s, a)
    ensures SectionStep(c, s, a).txStatus == if a.TakeStatus? then 0 else s.txStatus
  {
  }

  lemma StepTells(m: Params, s: State, a: Act)
    requires m.Valid() && Sound(m, s)
    ensures var t := Next(m, s, a);
      && ToldBy(t) == Tell(m, s, a, ToldBy(s))
      && t.log.corrections == s.log.corrections + Correction(m, s, a, ToldBy(s))
  {
    match a
    case Main(x) =>
      if MainEnabled(s, x) {
        MainTells(m, s, x);
      }
    case Irq(x) =>
      if IrqEnabled(m, s, x) {
        IrqTells(m, s, x);
      }
  }

  lemma {:induction false} RunTells(m: Params, s: State, acts: seq<Act>)
    requires m.Valid() && Sound(m, s)
    ensures var t := Exec(m, s, acts);
      && ToldBy(t) == TellAll(m, s, acts, ToldBy(s))
      && t.log.corrections == s.log.corrections + Corrected(m, s, acts, ToldBy(s))
    decreases |acts|
  {
    if acts != [] {
      StepTells(m, s, acts[0]);
      StepKeepsSound(m, s, acts[0]);
      RunTells(m, Next(m, s, acts[0]), acts[1..]);
    }
  }

  /** On every run drift, burst flag and Tx status are what its slots last reported. */
  lemma EveryRunTells(m: Params, asn0: nat, start0: nat, ps: seq<Pass>, s: State, acts: seq<Act>)
    requires Init(m, asn0, start0, ps, s)
    ensures var t, told := Exec(m, s, acts), TellAll(m, s, acts, Told(0, false, s.txStatus));
      && t.clk.drift == told.drift && t.clk.burst == told.burst && t.txStatus == told.status
      && t.log.corrections == Compensations(ps) + Corrected(m, s, acts, Told(0, false, s.txStatus))
  {
    InitInv(m, asn0, start0, ps, s);
    StartedAtBoot(m.tm, Clock(asn0, start0, 0, false, 0, None, None), ps);
    AdvanceKeepsBurst(m.tm, Clock(asn0, start0, 0, false, 0, None, None), ps);
    RunTells(m, s, acts);
  }

  // ---- A neighbour's life ----

  /** Is the neighbour in the table, how often has it failed in a row, and what is left to wait? */
  datatype Life = Life(known: bool, failures: nat, window: nat)

  /** The exponent after so many failures in a row. */
  function Capped(c: Config, failures: nat): nat
    requires c.Valid()
  {
    if c.minBe + failures <= c.maxBe then c.minBe + failures else c.maxBe
  }

  /** A failure on a shared link counts and draws a wait within the new exponent; a success on one,
      or with the last packet, and the two stores of a reset, start afresh; refreshes wait. */
  ghost function Live(m: Params, s: State, a: Act, n: Addr, was: Life): Life
    requires m.Valid() && Shape(s)
  {
    if !Happens(m, s, a) then was
    else if a == Main(Section(InstallNbr(n))) then Life(true, 0, 0)
    else if a == Main(Upkeep(DropNbr(n))) then was.(known := false)
    else if a == Main(Upkeep(ResetWindow(n))) then was.(window := 0)
    else if a == Main(Upkeep(ResetExponent)) && s.resetting == Some(n) then was.(failures := 0)
    else if FailsFor(m, s, a, n) then
      var k := was.failures + 1;
      Life(was.known, k, (a.i.random / 64) % Pow2(Capped(m.q, k)) + 1)
    else if ClearsFor(m, s, a, n) then Life(was.known, 0, 0)
    else was.(window := Minus(was.window, Refreshes(m, s, a, n)))
  }

  ghost function LiveAll(m: Params, s: State, acts: seq<Act>, n: Addr, was: Life): Life
    requires m.Valid()
    decreases |acts|
  {
    if acts == [] then was
    else LiveAll(m, Next(m, s, acts[0]), acts[1..], n, if Shape(s) then Live(m, s, acts[0], n, was) else was)
  }

  ghost predicate Lives(m: Params, s: State, n: Addr, l: Life)
    requires m.Valid()
  {
    && (n in s.nbrs <==> l.known)
    && (n in s.nbrs && !s.nbrs[n].isBroadcast ==> s.nbrs[n].backoff == Backoff(Capped(m.q, l.failures), l.window))
  }

  lemma {:induction false} RefreshKeepsExponent(t: Table, locked: bool, tm: Timer, k: Clock, ps: seq<Pass>, n: Addr)
    requires TableOk(t) && tm.modulus > 0 && n in t
    ensures var u := RefreshThrough(t, locked, tm, k, ps);
      n in u && u[n].backoff.exponent == t[n].backoff.exponent && u[n].isBroadcast == t[n].isBroadcast
    decreases |ps|
  {
    if ps != [] {
      RefreshKeepsExponent(Refresh(t, locked, k), locked, tm, Advance(tm, k, ps[0]), ps[1..], n);
    }
  }

  lemma TxEndExponent(m: Params, s: State, ok: bool, acked: bool, drift: int, random: nat, n: Addr)
    requires m.Valid() && Shape(s) && LockInv(s) && TxInv(s) && s.phase.TxSlot? && n in s.nbrs
    ensures var t, b := DoTxEnd(m, s, ok, acked, drift, random), s.nbrs[n].backoff;
      var shared := s.clk.current.value.shared;
      && n in t.nbrs && t.nbrs[n].isBroadcast == s.nbrs[n].isBroadcast
      && t.nbrs[n].backoff.exponent ==
        if s.nbr != Some(n) || s.nbrs[n].isBroadcast then b.exponent
        else if !ok then if shared then BackoffInc(m.q, b, random).exponent else b.exponent
        else if shared || s.nbrs[n].ring.put == s.nbrs[n].ring.get + 1 then m.q.minBe
        else b.exponent
  {
    var leaves := TxEndTable(m, s, ok, acked, drift, random);
  }

  /** The exponent a slot step leaves. */
  ghost function ExponentAfter(m: Params, s: State, a: IrqAct, n: Addr): nat
    requires m.Valid() && Shape(s) && n in s.nbrs
  {
    if FailsFor(m, s, Irq(a), n) then BackoffInc(m.q, s.nbrs[n].backoff, a.random).exponent
    else if ClearsFor(m, s, Irq(a), n) then m.q.minBe
    else s.nbrs[n].backoff.exponent
  }

  lemma IrqExponent(m: Params, s: State, a: IrqAct, n: Addr)
    requires m.Valid() && Shape(s) && LockInv(s) && TxInv(s) && IrqEnabled(m, s, a) && n in s.nbrs
    ensures var t := IrqStep(m, s, a);
      n in t.nbrs && t.nbrs[n].isBroadcast == s.nbrs[n].isBroadcast
      && t.nbrs[n].backoff.exponent == ExponentAfter(m, s, a, n)
  {
    match a
    case Skip(ps) => RefreshKeepsExponent(s.nbrs, s.locked, m.tm, s.clk, ps, n);
    case End(ps) => RefreshKeepsExponent(s.nbrs, s.locked, m.tm, s.clk, ps, n);
    case TxEnd(ok, acked, drift, random) => OutcomeExponent(m, s, ok, acked, drift, random, n);
    case Enter(first, second) => EntryExponent(s, first, second, n);
    case RxEnd(_) =>
  }

  lemma OutcomeExponent(m: Params, s: State, ok: bool, acked: bool, drift: int, random: nat, n: Addr)
    requires m.Valid() && Shape(s) && LockInv(s) && TxInv(s) && n in s.nbrs
    requires IrqEnabled(m, s, TxEnd(ok, acked, drift, random))
    ensures var t := DoTxEnd(m, s, ok, acked, drift, random);
      n in t.nbrs && t.nbrs[n].isBroadcast == s.nbrs[n].isBroadcast
      && t.nbrs[n].backoff.exponent == ExponentAfter(m, s, TxEnd(ok, acked, drift, random), n)
  {
    TxEndExponent(m, s, ok, acked, drift, random, n);
  }

  lemma EntryExponent(s: State, first: Option<Addr>, second: Option<Addr>, n: Addr)
    requires TableOk(s.nbrs) && s.dequeued.Valid() && s.clk.current.Some? && n in s.nbrs
    ensures var t := DoEnter(s, first, second);
      n in t.nbrs && t.nbrs[n].isBroadcast == s.nbrs[n].isBroadcast
      && t.nbrs[n].backoff.exponent == s.nbrs[n].backoff.exponent
  {
    assert DoEnter(s, first, second).nbrs == TableAtEntry(s, first);
  }

  lemma IrqLives(m: Params, s: State, a: IrqAct, n: Addr, l: Life)
    requires m.Valid() && Shape(s) && LockInv(s) && TxInv(s) && IrqEnabled(m, s, a) && Lives(m, s, n, l)
    ensures Lives(m, IrqStep(m, s, a), n, Live(m, s, Irq(a), n, l))
  {
    IrqKeys(m, s, a);
    if n in s.nbrs {
      var t := IrqStep(m, s, a);
      IrqExponent(m, s, a, n);
      IrqWindow(m, s, a, n);
      LivesOn(m, s, a, n, l, t);
    }
  }

  lemma LivesOn(m: Params, s: State, a: IrqAct, n: Addr, l: Life, t: State)
    requires m.Valid() && Shape(s) && IrqEnabled(m, s, a) && Lives(m, s, n, l) && n in s.nbrs && n in t.nbrs
    requires t.nbrs[n].isBroadcast == s.nbrs[n].isBroadcast
    requires t.nbrs[n].backoff == Backoff(ExponentAfter(m, s, a, n), WindowAfter(m, s, Irq(a), n))
    ensures Lives(m, t, n, Live(m, s, Irq(a), n, l))
  {
  }

  /** What a main-thread action does to n's entry, its ring and counters aside. */
  ghost predicate Untouched(t: Table, u: Table, n: Addr) {
    (n in u <==> n in t) && (n in t ==> u[n].backoff == t[n].backoff && u[n].isBroadcast == t[n].isBroadcast)
  }

  lemma PacketsLeaveBackoff(s: State, a: PacketAct, n: Addr)
    requires Shape(s) && PacketEnabled(s, a)
    ensures Untouched(s.nbrs, PacketStep(s, a).nbrs, n)
  {
    match a
    case AddAlloc(_, _, _) =>
    case AddWrite => OneEntry(s.nbrs, DoAddWrite(s).nbrs, s.adding.a, n);
    case AddCommit => OneEntry(s.nbrs, DoAddCommit(s).nbrs, s.adding.a, n);
    case FlushHead(b) => OneEntry(s.nbrs, DoFlushHead(s, b).nbrs, b, n);
    case TakeDequeued => assert DoTakeDequeued(s).nbrs == s.nbrs;
    case FreePacket(_) =>
  }

  lemma OneEntry(t: Table, u: Table, b: Addr, n: Addr)
    requires u == t || (b in t && b in u && u == t[b := u[b]]
                        && u[b].backoff == t[b].backoff && u[b].isBroadcast == t[b].isBroadcast)
    ensures Untouched(t, u, n)
  {
  }

  lemma SettledUntouched(t: Table, o: Owed, n: Addr)
    ensures Untouched(t, Settled(t, o), n)
  {
  }

  lemma UpkeepLives(m: Params, s: State, a: UpkeepAct, n: Addr, l: Life)
    requires m.Valid() && Shape(s) && MainEnabled(s, Upkeep(a)) && Lives(m, s, n, l)
    ensures Lives(m, UpkeepStep(m.q, s, a), n, Live(m, s, Main(Upkeep(a)), n, l))
  {
    match a
    case Settle => SettledUntouched(s.nbrs, s.owed.value, n);
    case DropNbr(_) =>
    case ResetWindow(_) =>
    case ResetExponent =>
    case ClearApt(_) =>
  }

  lemma SectionLives(m: Params, s: State, a: SectionAct, n: Addr, l: Life)
    requires m.Valid() && Shape(s) && MainEnabled(s, Section(a)) && Lives(m, s, n, l)
    ensures Lives(m, SectionStep(m.q, s, a), n, Live(m, s, Main(Section(a)), n, l))
  {
  }

  lemma MainLives(m: Params, s: State, a: MainAct, n: Addr, l: Life)
    requires m.Valid() && Shape(s) && MainEnabled(s, a) && Lives(m, s, n, l)
    ensures Lives(m, MainStep(m, s, a), n, Live(m, s, Main(a), n, l))
  {
    match a
    case Lock(_) =>
    case Section(e) => SectionLives(m, s, e, n, l);
    case Upkeep(u) => UpkeepLives(m, s, u, n, l);
    case Move(v) => PacketsLeaveBackoff(s, v, n);
  }

  lemma StepLives(m: Params, s: State, a: Act, n: Addr, l: Life)
    requires m.Valid() && Sound(m, s) && Lives(m, s, n, l)
    ensures Lives(m, Next(m, s, a), n, Live(m, s, a, n, l))
  {
    match a
    case Main(x) =>
      if MainEnabled(s, x) {
        MainLives(m, s, x, n, l);
      }
    case Irq(x) =>
      if IrqEnabled(m, s, x) {
        IrqLives(m, s, x, n, l);
      }
  }

  lemma {:induction false} RunLives(m: Params, s: State, acts: seq<Act>, n: Addr, l: Life)
    requires m.Valid() && Sound(m, s) && Lives(m, s, n, l)
    ensures Lives(m, Exec(m, s, acts), n, LiveAll(m, s, acts, n, l))
    decreases |acts|
  {
    if acts != [] {
      StepLives(m, s, acts[0], n, l);
      StepKeepsSound(m, s, acts[0]);
      RunLives(m, Next(m, s, acts[0]), acts[1..], n, Live(m, s, acts[0], n, l));
    }
  }

  /** On every run a neighbour is in the table just when it was last added, not dropped; after k
      failures on shared links in a row its exponent is min(minBe + k, maxBe); and its window is
      the last draw plus one, less the refreshes since. */
  lemma EveryRunCountsFailures(m: Params, asn0: nat, start0: nat, ps: seq<Pass>, s: State, acts: seq<Act>, n: Addr)
    requires Init(m, asn0, start0, ps, s)
    ensures var t, l := Exec(m, s, acts), LiveAll(m, s, acts, n, Life(n in s.nbrs, 0, 0));
      && (n in t.nbrs <==> l.known)
      && (n in t.nbrs && !t.nbrs[n].isBroadcast ==>
            && t.nbrs[n].backoff.exponent ==
              (if m.q.minBe + l.failures <= m.q.maxBe then m.q.minBe + l.failures else m.q.maxBe)
            && t.nbrs[n].backoff.window == l.window)
  {
    InitInv(m, asn0, start0, ps, s);
    RunLives(m, s, acts, n, Life(n in s.nbrs, 0, 0));
  }

  // ---- A packet's attempts ----

  /** Allocated with a limit, a packet is attempted once by each Tx slot that serves it, till freed. */
  ghost function Attempt(m: Params, s: State, a: Act, p: Pid, was: Option<Packet>): Option<Packet>
    requires m.Valid() && Shape(s)
  {
    if !Happens(m, s, a) then was
    else
      match a
      case Main(Move(AddAlloc(_, q, limit))) => if q == p then Some(Packet(0, limit)) else was
      case Main(Move(FreePacket(q))) => if q == p then None else was
      case Irq(TxEnd(_, _, _, _)) =>
        if s.packet == Some(p) && was.Some? then Some(was.value.(transmissions := was.value.transmissions + 1)) else was
      case _ => was
  }

  ghost function AttemptAll(m: Params, s: State, acts: seq<Act>, p: Pid, was: Option<Packet>): Option<Packet>
    requires m.Valid()
    decreases |acts|
  {
    if acts == [] then was
    else AttemptAll(m, Next(m, s, acts[0]), acts[1..], p, if Shape(s) then Attempt(m, s, acts[0], p, was) else was)
  }

  function Recorded(s: State, p: Pid): Option<Packet> {
    if p in s.packets then Some(s.packets[p]) else None
  }

  lemma TxEndAttempts(m: Params, s: State, ok: bool, acked: bool, drift: int, random: nat, p: Pid)
    requires m.Valid() && Shape(s) && LockInv(s) && TxInv(s) && IrqEnabled(m, s, TxEnd(ok, acked, drift, random))
    ensures Recorded(DoTxEnd(m, s, ok, acked, drift, random), p)
      == Attempt(m, s, Irq(TxEnd(ok, acked, drift, random)), p, Recorded(s, p))
  {
  }

  lemma PacketsAttempt(m: Params, s: State, a: PacketAct, p: Pid)
    requires m.Valid() && Shape(s) && MainEnabled(s, Move(a))
    ensures Recorded(PacketStep(s, a), p) == Attempt(m, s, Main(Move(a)), p, Recorded(s, p))
  {
  }

  lemma StepAttempts(m: Params, s: State, a: Act, p: Pid)
    requires m.Valid() && Sound(m, s)
    ensures Recorded(Next(m, s, a), p) == Attempt(m, s, a, p, Recorded(s, p))
  {
    match a
    case Main(x) =>
      if MainEnabled(s, x) && x.Move? {
        PacketsAttempt(m, s, x.v, p);
      }
    case Irq(x) =>
      if IrqEnabled(m, s, x) {
        IrqAttempts(m, s, x, p);
      }
  }

  lemma IrqAttempts(m: Params, s: State, a: IrqAct, p: Pid)
    requires m.Valid() && Shape(s) && LockInv(s) && TxInv(s) && IrqEnabled(m, s, a)
    ensures Recorded(IrqEffect(m, s, a), p) == Attempt(m, s, Irq(a), p, Recorded(s, p))
  {
    match a
    case TxEnd(ok, acked, drift, random) => TxEndAttempts(m, s, ok, acked, drift, random, p);
    case Enter(first, second) => assert OnlyEntry(s, DoEnter(s, first, second));
    case Skip(ps) => assert DoReschedule(m, s, ps).packets == s.packets;
    case End(ps) => assert DoReschedule(m, s, ps).packets == s.packets;
    case RxEnd(frame) => assert DoRxEnd(s, frame).packets == s.packets;
  }

  lemma {:induction false} RunAttempts(m: Params, s: State, acts: seq<Act>, p: Pid)
    requires m.Valid() && Sound(m, s)
    ensures Recorded(Exec(m, s, acts), p) == AttemptAll(m, s, acts, p, Recorded(s, p))
    decreases |acts|
  {
    if acts != [] {
      StepAttempts(m, s, acts[0], p);
      StepKeepsSound(m, s, acts[0]);
      RunAttempts(m, Next(m, s, acts[0]), acts[1..], p);
    }
  }

  /** On every run a packet is allocated just when it was last added, not freed; it keeps its limit,
      and its count is the number of Tx slots that have ended with it. */
  lemma EveryRunCountsAttempts(m: Params, asn0: nat, start0: nat, ps: seq<Pass>, s: State, acts: seq<Act>, p: Pid)
    requires Init(m, asn0, start0, ps, s)
    ensures var t, r := Exec(m, s, acts), AttemptAll(m, s, acts, p, None);
      (p in t.packets <==> r.Some?) && (p in t.packets ==> t.packets[p] == r.value)
  {
    InitInv(m, asn0, start0, ps, s);
    RunAttempts(m, s, acts, p);
  }

  // ---- The APT table ----

  /** Frames received on timeslot i of slotframe 1 since the entry was cleared. */
  ghost function HeardSince(m: Params, s: State, acts: seq<Act>, i: nat, was: nat): nat
    requires m.Valid()
    decreases |acts|
  {
    if acts == [] then was
    else
      HeardSince(m, Next(m, s, acts[0]), acts[1..], i,
        if !Shape(s) then was
        else if Receives(m, s, acts[0], i) then was + 1
        else if acts[0] == Main(Upkeep(ClearApt(i))) && Happens(m, s, acts[0]) then 0
        else was)
  }

  lemma MainAptOf(m: Params, s: State, a: MainAct, i: nat)
    requires m.Valid() && Shape(s) && MainEnabled(s, a)
    ensures Apt(MainStep(m, s, a).apt, i) == if a == Upkeep(ClearApt(i)) then 0 else Apt(s.apt, i)
  {
    if a.Upkeep? {
      UpkeepApt(m.q, s, a.u, i);
    }
  }

  lemma UpkeepApt(c: Config, s: State, a: UpkeepAct, i: nat)
    requires TableOk(s.nbrs) && UpkeepEnabled(s, a)
    ensures Apt(UpkeepStep(c, s, a).apt, i) == if a == ClearApt(i) then 0 else Apt(s.apt, i)
  {
  }

  lemma StepApt(m: Params, s: State, a: Act, i: nat, was: nat)
    requires m.Valid() && Shape(s) && Apt(s.apt, i) == Add8(0, was)
    ensures Apt(Next(m, s, a).apt, i) == Add8(0,
      if Receives(m, s, a, i) then was + 1
      else if a == Main(Upkeep(ClearApt(i))) && Happens(m, s, a) then 0
      else was)
  {
    match a
    case Main(x) =>
      if MainEnabled(s, x) {
        MainAptOf(m, s, x, i);
      }
    case Irq(x) =>
      if IrqEnabled(m, s, x) && x.RxEnd? {
        HeardStep(s, x.frame, i);
        Add8Chain(0, was, Apt(s.apt, i), 1);
        Add8Chain(0, was, Apt(s.apt, i), 0);
      }
  }

  lemma {:induction false} RunApt(m: Params, s: State, acts: seq<Act>, i: nat, was: nat)
    requires m.Valid() && Sound(m, s) && Apt(s.apt, i) == Add8(0, was)
    ensures Apt(Exec(m, s, acts).apt, i) == Add8(0, HeardSince(m, s, acts, i, was))
    decreases |acts|
  {
    if acts != [] {
      var now := if Receives(m, s, acts[0], i) then was + 1
        else if acts[0] == Main(Upkeep(ClearApt(i))) && Happens(m, s, acts[0]) then 0
        else was;
      StepApt(m, s, acts[0], i, was);
      StepKeepsSound(m, s, acts[0]);
      RunApt(m, Next(m, s, acts[0]), acts[1..], i, now);
    }
  }

  /** On every run an APT entry is the number of frames received there since it was last cleared,
      modulo 256. */
  lemma EveryRunCountsReceptions(m: Params, asn0: nat, start0: nat, ps: seq<Pass>, s: State, acts: seq<Act>, i: nat)
    requires Init(m, asn0, start0, ps, s)
    ensures Apt(Exec(m, s, acts).apt, i) == HeardSince(m, s, acts, i, 0) % 0x100
  {
    InitInv(m, asn0, start0, ps, s);
    RunApt(m, s, acts, i, 0);
  }
}
