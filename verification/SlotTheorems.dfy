/** Main results about the slot machine: what holds on every run from start-up. */
module SlotTheorems {
  import opened Types
  import opened Rings
  import opened Queue
  import opened Lookup
  import opened Rescheduling
  import opened SlotMachine
  import opened SlotInvariants
  import opened SlotClock
  import opened SlotBackoff
  import opened SlotRuns
  import opened SlotFaults
  import opened SlotHistory

  lemma Reached(m: Params, asn0: nat, start0: nat, ps: seq<Pass>, s: State, acts: seq<Act>)
    requires Init(m, asn0, start0, ps, s)
    ensures Inv(m, asn0, start0, Exec(m, s, acts))
  {
    InitInv(m, asn0, start0, ps, s);
    RunKeepsInv(m, asn0, start0, s, acts);
  }

  /** On every run, however the two agents interleave: a null or freed pointer is used exactly
      by the slot steps that `RunUsesStale` names, all of them uses of a link the main thread has
      removed; no Tx slot runs under the lock; the request flag is up only inside tsch_get_lock;
      and in a Tx slot packet, neighbour and peeked index are good. */
  lemma EveryRunIsSafe(m: Params, asn0: nat, start0: nat, ps: seq<Pass>, s: State, acts: seq<Act>)
    requires Init(m, asn0, start0, ps, s)
    ensures var t := Exec(m, s, acts);
      && (t.faulted <==> RunUsesStale(m, s, acts))
      && !(t.locked && t.phase.TxSlot?)
      && (t.requested ==> t.pc == Waiting || t.pc == Rechecking || t.pc == Taking || t.pc == Clearing)
      && (t.phase.TxSlot? ==> TxPointersLive(t) && t.dequeued.Valid() && t.dequeued.PeekPut() == Some(t.phase.index))
  {
    InitInv(m, asn0, start0, ps, s);
    RunFaultsIff(m, s, acts);
    Reached(m, asn0, start0, ps, s, acts);
  }

  /** Packet conservation: each allocated packet is in exactly one place of exactly one queue,
      of the dequeued ring, or with the main thread; nothing else is in any of them. */
  lemma EveryRunConservesPackets(m: Params, asn0: nat, start0: nat, ps: seq<Pass>, s: State, acts: seq<Act>)
    requires Init(m, asn0, start0, ps, s)
    ensures var t := Exec(m, s, acts);
      && TableOk(t.nbrs) && t.dequeued.Valid()
      && (forall p | p in t.packets :: exists x :: Holds(t, x, p))
      && (forall p, x, y | Holds(t, x, p) && Holds(t, y, p) :: x == y && p in t.packets)
  {
    Reached(m, asn0, start0, ps, s, acts);
    var t := Exec(m, s, acts);
    forall p | p in t.packets ensures exists x :: Holds(t, x, p) {
      assert Holds(t, t.log.place[p], p);
    }
    forall p, x, y | Holds(t, x, p) && Holds(t, y, p) ensures x == y && p in t.packets {}
  }

  /** Retry bound and order: a queued packet has an attempt left, none exceeds its attempts,
      and packets leave each queue and the dequeued ring in the order they entered. */
  lemma EveryRunBoundsAttemptsInOrder(m: Params, asn0: nat, start0: nat, ps: seq<Pass>, s: State, acts: seq<Act>)
    requires Init(m, asn0, start0, ps, s)
    ensures var t := Exec(m, s, acts);
      && TableOk(t.nbrs) && t.dequeued.Valid()
      && (forall p | p in t.packets :: t.packets[p].transmissions <= Attempts(t.packets[p]))
      && (forall a, k, p | p in t.packets && Holds(t, InQueue(a, k), p) ::
            t.packets[p].transmissions < Attempts(t.packets[p]))
      && (forall a :: Of(t.log.added, a) == Of(t.log.removed, a) + QueueOf(t, a))
      && t.log.dequeued == t.log.taken + t.dequeued.Contents()
  {
    Reached(m, asn0, start0, ps, s, acts);
    var t := Exec(m, s, acts);
    forall a ensures Of(t.log.added, a) == Of(t.log.removed, a) + QueueOf(t, a) {
      assert InOrder(t, a);
    }
  }

  /** Backoff on every run: the exponent within its limits, the window at most 2^maxBe, and
      virtual neighbours never back off. */
  lemma EveryRunBoundsBackoff(m: Params, asn0: nat, start0: nat, ps: seq<Pass>, s: State, acts: seq<Act>, a: Addr)
    requires Init(m, asn0, start0, ps, s) && a in Exec(m, s, acts).nbrs
    ensures var n := Exec(m, s, acts).nbrs[a];
      && m.q.minBe <= n.backoff.exponent <= m.q.maxBe
      && n.backoff.window <= Pow2(m.q.maxBe)
      && (a == Broadcast || a == EbAddress ==> n.backoff.window == 0)
  {
    Reached(m, asn0, start0, ps, s, acts);
    assert BackoffFits(m.q, Exec(m, s, acts).nbrs[a], false);
  }

  /** The window is at most 2^exponent in every state of the run. */
  ghost predicate AlwaysFits(m: Params, s: State, acts: seq<Act>)
    requires m.Valid()
    decreases |acts|
  {
    TableFits(m.q, s.nbrs, true) && (acts == [] || AlwaysFits(m, Next(m, s, acts[0]), acts[1..]))
  }

  /** No reset in the run is torn: each second store finds a window of at most 2^minBe. */
  ghost predicate NeverTears(m: Params, s: State, acts: seq<Act>)
    requires m.Valid()
    decreases |acts|
  {
    acts == [] || (!(Shape(s) && Tears(m, s, acts[0])) && NeverTears(m, Next(m, s, acts[0]), acts[1..]))
  }

  lemma {:induction false} RunFitsIff(m: Params, asn0: nat, start0: nat, s: State, acts: seq<Act>)
    requires m.Valid() && Inv(m, asn0, start0, s) && TableFits(m.q, s.nbrs, true)
    ensures AlwaysFits(m, s, acts) <==> NeverTears(m, s, acts)
    decreases |acts|
  {
    if acts != [] {
      var t := Next(m, s, acts[0]);
      StepFits(m, s, acts[0], true);
      StepKeepsInv(m, asn0, start0, s, acts[0]);
      if TableFits(m.q, t.nbrs, true) {
        RunFitsIff(m, asn0, start0, t, acts[1..]);
      }
    }
  }

  /** Windows stay within 2^exponent throughout a run exactly when no reset in it is torn. */
  lemma EveryRunKeepsBackoff(m: Params, asn0: nat, start0: nat, ps: seq<Pass>, s: State, acts: seq<Act>)
    requires Init(m, asn0, start0, ps, s)
    ensures AlwaysFits(m, s, acts) <==> NeverTears(m, s, acts)
  {
    InitInv(m, asn0, start0, ps, s);
    InitQueues(m, asn0, start0, ps, s);
    RunFitsIff(m, asn0, start0, s, acts);
  }

  /** No transmission to n that decides its window ends. */
  ghost predicate Undecided(m: Params, s: State, acts: seq<Act>, n: Addr)
    requires m.Valid()
    decreases |acts|
  {
    acts == [] ||
    (!(Shape(s) && (FailsFor(m, s, acts[0], n) || ClearsFor(m, s, acts[0], n)))
     && Undecided(m, Next(m, s, acts[0]), acts[1..], n))
  }

  ghost function AllRefreshes(m: Params, s: State, acts: seq<Act>, n: Addr): nat
    requires m.Valid()
    decreases |acts|
  {
    if acts == [] then 0
    else
      (if Shape(s) then Refreshes(m, s, acts[0], n) else 0) + AllRefreshes(m, Next(m, s, acts[0]), acts[1..], n)
  }

  /** A transmission to n fails on a shared link, with draw r, and none that ends after it decides
      the window; and r + 1, less the refreshes that follow, is more than `limit`. */
  ghost predicate FailsLate(m: Params, s: State, acts: seq<Act>, n: Addr, limit: nat)
    requires m.Valid()
    decreases |acts|
  {
    acts != [] &&
    var t := Next(m, s, acts[0]);
    || FailsLate(m, t, acts[1..], n, limit)
    || (Shape(s) && FailsFor(m, s, acts[0], n) && Undecided(m, t, acts[1..], n)
        && DrawnBy(m.q, s.nbrs[n].backoff, acts[0].i.random) + 1 > limit + AllRefreshes(m, t, acts[1..], n))
  }

  /** The second store of the reset under way is not among the actions. */
  predicate NoSecondStore(acts: seq<Act>) {
    forall i | 0 <= i < |acts| :: acts[i] != Main(Upkeep(ResetExponent))
  }

  lemma {:induction false} WindowAboveIff(m: Params, s: State, acts: seq<Act>, n: Addr, limit: nat)
    requires m.Valid() && Sound(m, s) && s.resetting == Some(n) && n in s.nbrs && NoSecondStore(acts)
    ensures var t := Exec(m, s, acts);
      && Sound(m, t) && t.resetting == Some(n) && n in t.nbrs
      && (t.nbrs[n].backoff.window > limit <==>
            || FailsLate(m, s, acts, n, limit)
            || (Undecided(m, s, acts, n) && s.nbrs[n].backoff.window > limit + AllRefreshes(m, s, acts, n)))
    decreases |acts|
  {
    if acts != [] {
      assert forall j | 0 <= j < |acts[1..]| :: acts[1..][j] == acts[j + 1];
      WindowStep(m, s, acts[0], n);
      StepKeepsSound(m, s, acts[0]);
      WindowAboveIff(m, Next(m, s, acts[0]), acts[1..], n, limit);
    }
  }

  /** A reset is torn exactly when, between its two stores, a transmission to its neighbour fails
      on a shared link with draw r, no later one decides the window, and the refreshes that follow
      leave more than 2^minBe of r + 1. */
  lemma ResetTornIff(m: Params, s: State, acts: seq<Act>, n: Addr)
    requires m.Valid() && Sound(m, s) && NoSecondStore(acts)
    requires s.resetting == Some(n) && n in s.nbrs && s.nbrs[n].backoff.window == 0
    ensures var t := Exec(m, s, acts);
      Shape(t) && (Tears(m, t, Main(Upkeep(ResetExponent))) <==> FailsLate(m, s, acts, n, Pow2(m.q.minBe)))
  {
    WindowAboveIff(m, s, acts, n, Pow2(m.q.minBe));
    CanStore(Exec(m, s, acts), n);
  }

  lemma CanStore(s: State, n: Addr)
    requires Shape(s) && LockInv(s) && s.resetting == Some(n) && n in s.nbrs
    ensures MainEnabled(s, Upkeep(ResetExponent))
  {
  }

  /** Slot alignment and the time account, through bursts, skipped slots, fallbacks and
      missed deadlines: the current link is due, counted from where its burst began, and the
      slot start is whole timeslots away from the first, plus the corrections of start-up and
      all those the run's slots told before they were rescheduled. */
  lemma EveryRunIsAligned(m: Params, asn0: nat, start0: nat, ps: seq<Pass>, s: State, acts: seq<Act>)
    requires Init(m, asn0, start0, ps, s)
    ensures var t := Exec(m, s, acts);
      && (t.clk.current.Some? ==> Due(t.clk, t.clk.current.value))
      && t.clk.asn >= asn0
      && (var corrections := Compensations(ps) + Corrected(m, s, acts, Told(0, false, s.txStatus));
          t.clk.slotStart == (start0 + (t.clk.asn - asn0) * m.tm.slotLength + corrections) % m.tm.modulus)
  {
    Reached(m, asn0, start0, ps, s, acts);
    EveryRunTells(m, asn0, start0, ps, s, acts);
  }

  /** Between two rounds of the rescheduling loop no link of the schedule is due. */
  lemma EveryRunJumpsNothing(m: Params, asn0: nat, start0: nat, ps: seq<Pass>, s: State,
      acts: seq<Act>, next: seq<Pass>)
    requires Init(m, asn0, start0, ps, s)
    requires var t := Exec(m, s, acts); TableOk(t.nbrs) && PassesOk(t.sfs, t.nbrs, t.locked, m.tm, t.clk, next)
    ensures var t := Exec(m, s, acts); JumpsNothing(t.sfs, m.tm, t.clk, next)
  {
    Reached(m, asn0, start0, ps, s, acts);
    var t := Exec(m, s, acts);
    PassesAlign(t.sfs, t.nbrs, t.locked, m.tm, t.clk, next);
  }

  // ---- One slot ----

  /** During a Tx slot the main thread changes neither the schedule nor the current link, and
      the packet being sent stays the head of its queue. */
  lemma TxSlotUndisturbed(m: Params, asn0: nat, start0: nat, s: State, a: MainAct)
    requires m.Valid() && Inv(m, asn0, start0, s) && s.phase.TxSlot?
    ensures var t := Next(m, s, Main(a));
      && t.sfs == s.sfs && t.clk == s.clk && t.phase == s.phase && t.packet == s.packet && t.nbr == s.nbr
      && t.nbr.value in t.nbrs && t.nbrs[t.nbr.value].ring.Valid() && t.nbrs[t.nbr.value].ring.Head() == s.packet
  {
    StepKeepsInv(m, asn0, start0, s, Main(a));
  }

  /** What a Tx slot sends is the head of its neighbour's queue, on a Tx link, while TSCH is
      not locked; on a shared link the neighbour's window is 0. */
  lemma SlotSendsHead(m: Params, asn0: nat, start0: nat, s: State, first: Option<Addr>, second: Option<Addr>)
    requires m.Valid() && Inv(m, asn0, start0, s) && IrqEnabled(m, s, Enter(first, second))
    ensures var t := Next(m, s, Irq(Enter(first, second)));
      t.phase.TxSlot? ==>
        && t.clk.current.Some? && t.clk.current.value.tx && !t.locked
        && t.nbr.Some? && t.nbr.value in t.nbrs && QueueOf(s, t.nbr.value) != []
        && t.packet == Some(QueueOf(s, t.nbr.value)[0])
        && (t.clk.current.value.shared ==> t.nbrs[t.nbr.value].backoff.window == 0)
  {
    var t := Next(m, s, Irq(Enter(first, second)));
    if t.phase.TxSlot? {
      var u := TableAtEntry(s, first);
      SharedSendsOnlyAfterBackoff(u, s.locked, t.clk.current.value, t.nbr.value);
      assert u[t.nbr.value].ring == s.nbrs[t.nbr.value].ring;
    }
  }

  /** What a slot does: with room in the dequeued ring it transmits just when a packet is chosen, the
      head of an eligible queue, and it listens just when none is and its link receives. On a link
      that advertises, an eligible beacon comes first; then the link's own neighbour. */
  lemma SlotServesInOrder(m: Params, s: State, first: Option<Addr>, second: Option<Addr>)
    requires m.Valid() && Shape(s) && IrqEnabled(m, s, Enter(first, second))
    ensures var t := Next(m, s, Irq(Enter(first, second)));
      && TableOk(t.nbrs) && t.clk.current.Some?
      && (var l := t.clk.current.value;
          && (t.phase.TxSlot? <==> t.packet.Some? && |s.dequeued.Contents()| < s.dequeued.room)
          && (t.phase == RxSlot <==> t.packet == None && l.rx)
          && (t.packet.Some? <==> t.nbr.Some?)
          && (t.packet.Some? ==> Eligible(t.nbrs, t.nbr.value, l) && t.packet.value == QueueOf(t, t.nbr.value)[0])
          && (!s.locked && l.tx && l.kind != Normal && Eligible(t.nbrs, EbAddress, l) ==> t.nbr == Some(EbAddress))
          && (!s.locked && l.tx && l.addr != EbAddress ==>
                (t.nbr == Some(l.addr) <==>
                  && l.kind != AdvertisingOnly && Eligible(t.nbrs, l.addr, l)
                  && !(l.kind != Normal && Eligible(t.nbrs, EbAddress, l)))))
  {
    var t := Next(m, s, Irq(Enter(first, second)));
    var l := t.clk.current.value;
    ChoiceAtEntry(m, s, first, second);
    ServedInOrder(t.nbrs, s.locked, l, t.nbr);
    if t.nbr.Some? {
      OffersEligible(t.nbrs, t.nbr.value, l);
    }
  }

  lemma ChoiceAtEntry(m: Params, s: State, first: Option<Addr>, second: Option<Addr>)
    requires m.Valid() && Shape(s) && IrqEnabled(m, s, Enter(first, second))
    ensures var t := Next(m, s, Irq(Enter(first, second)));
      && TableOk(t.nbrs) && t.clk.current.Some?
      && Selects(t.nbrs, s.locked, t.clk.current.value, t.nbr)
      && (t.nbr == None ==> t.packet == None)
      && (t.nbr.Some? && t.nbr.value in t.nbrs ==> t.packet == Ready(t.nbrs[t.nbr.value], t.clk.current.value))
      && (t.phase.TxSlot? <==> t.packet.Some? && s.dequeued.PeekPut().Some?)
      && (t.phase == RxSlot <==> t.packet == None && t.clk.current.value.rx)
  {
    assert DoEnter(s, first, second).nbrs == TableAtEntry(s, first);
  }

  /** A transmission that succeeds on a shared link, or with the last packet, leaves its neighbour
      without a wait and with the least exponent. */
  lemma SuccessStartsAfresh(m: Params, s: State, acked: bool, drift: int, random: nat)
    requires m.Valid() && Sound(m, s) && IrqEnabled(m, s, TxEnd(true, acked, drift, random))
    ensures var t := Next(m, s, Irq(TxEnd(true, acked, drift, random)));
      && TxPointersLive(s) && s.nbr.value in t.nbrs
      && (var n := s.nbr.value;
          !s.nbrs[n].isBroadcast && (s.clk.current.value.shared || |QueueOf(s, n)| == 1) ==>
            t.nbrs[n].backoff.exponent == m.q.minBe && t.nbrs[n].backoff.window == 0)
  {
    var n := s.nbr.value;
    IrqExponent(m, s, TxEnd(true, acked, drift, random), n);
    IrqWindow(m, s, TxEnd(true, acked, drift, random), n);
  }

  /** The end of a Tx slot: either the packet moves from the head of its queue to the end of
      the dequeued ring, or all queues stand and it has one attempt more. */
  ghost predicate PacketMoved(s: State, t: State, ok: bool)
    requires Shape(s) && TableOk(t.nbrs) && t.dequeued.Valid() && TxPointersLive(s)
  {
    var n, p := s.nbr.value, s.packet.value;
    && p in t.packets && t.packets[p].transmissions == s.packets[p].transmissions + 1
    && QueueOf(s, n) != [] && QueueOf(s, n)[0] == p
    && (forall a | a != n :: QueueOf(t, a) == QueueOf(s, a))
    && if ok || t.packets[p].transmissions >= t.packets[p].maxTransmissions then
         QueueOf(t, n) == QueueOf(s, n)[1..] && t.dequeued.Contents() == s.dequeued.Contents() + [p]
       else
         QueueOf(t, n) == QueueOf(s, n) && t.dequeued.Contents() == s.dequeued.Contents()
  }

  lemma TxEndMovesThePacketSent(m: Params, asn0: nat, start0: nat, s: State,
      ok: bool, acked: bool, drift: int, random: nat)
    requires m.Valid() && Inv(m, asn0, start0, s) && IrqEnabled(m, s, TxEnd(ok, acked, drift, random))
    ensures var t := Next(m, s, Irq(TxEnd(ok, acked, drift, random)));
      && TxPointersLive(s) && TableOk(t.nbrs) && t.dequeued.Valid() && PacketMoved(s, t, ok)
      && t.txStatus == if s.clk.current.value.sfHandle != 1 then s.txStatus else if ok then 1 else 2
  {
    var e := DoTxEnd(m, s, ok, acked, drift, random);
    TxEndKeepsQueues(m, s, ok, acked, drift, random);
    EffectMoves(m, s, ok, acked, drift, random);
    StatusSet(m, s, ok, acked, drift, random);
    MovedFlagged(s, e, ok);
  }

  lemma MovedFlagged(s: State, t: State, ok: bool)
    requires Shape(s) && TableOk(t.nbrs) && t.dequeued.Valid() && TxPointersLive(s) && PacketMoved(s, t, ok)
    ensures PacketMoved(s, t.(faulted := true), ok)
  {
    forall a ensures QueueOf(t.(faulted := true), a) == QueueOf(t, a) {}
  }

  lemma StatusSet(m: Params, s: State, ok: bool, acked: bool, drift: int, random: nat)
    requires m.Valid() && TableOk(s.nbrs) && s.dequeued.Valid() && s.phase.TxSlot? && TxPointersLive(s) && TxInv(s)
    ensures DoTxEnd(m, s, ok, acked, drift, random).txStatus ==
      if s.clk.current.value.sfHandle != 1 then s.txStatus else if ok then 1 else 2
  {
  }

  lemma EffectMoves(m: Params, s: State, ok: bool, acked: bool, drift: int, random: nat)
    requires m.Valid() && Shape(s) && LockInv(s) && QueueInv(s) && s.phase.TxSlot?
    ensures var t := DoTxEnd(m, s, ok, acked, drift, random);
      TxPointersLive(s) && TableOk(t.nbrs) && t.dequeued.Valid() && PacketMoved(s, t, ok)
  {
    var t := DoTxEnd(m, s, ok, acked, drift, random);
    var p := s.packet.value;
    var sent := s.packets[p].(transmissions := s.packets[p].transmissions + 1);
    TxEndKeepsQueues(m, s, ok, acked, drift, random);
    TxEndOutcome(m, s, ok, acked, drift, random);
    OutcomeMoves(s, t, s.nbr.value, p, sent, Leaves(sent, ok));
  }

  lemma OutcomeMoves(s: State, t: State, n: Addr, p: Pid, sent: Packet, leaves: bool)
    requires Shape(s) && TxOutcome(s, t, n, p, sent, leaves) && s.nbrs[n].ring.Head() == Some(p)
    requires TableOk(t.nbrs) && t.dequeued.Valid()
    ensures QueueOf(s, n) != [] && QueueOf(s, n)[0] == p
    ensures forall a | a != n :: QueueOf(t, a) == QueueOf(s, a)
    ensures QueueOf(t, n) == if leaves then QueueOf(s, n)[1..] else QueueOf(s, n)
    ensures t.dequeued.Contents() == s.dequeued.Contents() + if leaves then [p] else []
  {
    GetDropsHead(s.nbrs[n].ring);
    if leaves {
      WriteInvisible(s.dequeued, p);
      CommitAppends(s.dequeued.Write(s.dequeued.PeekPut().value, p));
    }
  }

  /** At t, the slot of clock k has started on a link of the schedule due then; if any link can
      receive in that slot, this one can, and none that can has a lower handle. */
  ghost predicate Listens(sfs: seq<Slotframe>, k: Clock, t: State) {
    && t.clk.current.Some? && t.clk.current.value in Links(sfs) && ActiveAt(t.clk.current.value, k.asn)
    && forall l | l in Links(sfs) && l.rx && ActiveAt(l, k.asn) ::
         t.clk.current.value.rx && t.clk.current.value.sfHandle <= l.sfHandle
  }

  lemma ListensOn(m: Params, u: State, second: Option<Addr>)
    requires m.Valid() && Shape(u) && LookedUp(Links(u.sfs), u.clk) && IrqEnabled(m, u, Enter(None, second))
    ensures Listens(u.sfs, u.clk, Next(m, u, Irq(Enter(None, second))))
  {
  }

  function PassesOf(a: IrqAct): seq<Pass>
    requires a.Skip? || a.End?
  {
    match a
    case Skip(ps) => ps
    case End(ps) => ps
  }

  /** An action of the main thread that changes neither the schedule nor the current link. */
  predicate LeavesSchedule(s: State, a: Act) {
    && a.Main?
    && (a.m.Section? ==> !a.m.e.Extend? && !a.m.e.EndRemove? && !(a.m.e.BeginRemove? && Clears(s, a.m.e)))
  }

  ghost predicate ScheduleStands(m: Params, s: State, acts: seq<Act>)
    requires m.Valid()
    decreases |acts|
  {
    acts == [] || (LeavesSchedule(s, acts[0]) && ScheduleStands(m, Next(m, s, acts[0]), acts[1..]))
  }

  lemma StandsStep(m: Params, s: State, a: Act)
    requires m.Valid() && Shape(s) && LeavesSchedule(s, a)
    ensures Next(m, s, a).clk == s.clk && Next(m, s, a).sfs == s.sfs
  {
    if MainEnabled(s, a.m) {
      MainClock(m, s, a.m);
      match a.m
      case Lock(_) =>
      case Section(e) => StandsSection(m.q, s, e);
      case Upkeep(_) =>
      case Move(v) => assert OnlyPackets(s, PacketStep(s, v));
    }
  }

  lemma StandsSection(c: Config, s: State, a: SectionAct)
    requires c.Valid() && SectionEnabled(s, a) && !a.Extend? && !a.EndRemove?
    ensures SectionStep(c, s, a).sfs == s.sfs
  {
  }

  lemma {:induction false} StandingRun(m: Params, s: State, acts: seq<Act>)
    requires m.Valid() && Sound(m, s) && ScheduleStands(m, s, acts)
    ensures var t := Exec(m, s, acts); Shape(t) && t.clk == s.clk && t.sfs == s.sfs
    decreases |acts|
  {
    if acts != [] {
      StandsStep(m, s, acts[0]);
      StepKeepsSound(m, s, acts[0]);
      StandingRun(m, Next(m, s, acts[0]), acts[1..]);
    }
  }

  lemma LookedUpAfter(m: Params, s: State, a: IrqAct)
    requires m.Valid() && Shape(s) && !s.locked && (a.Skip? || a.End?) && IrqEnabled(m, s, a)
    requires LooksUpLast(m.tm, s.clk, PassesOf(a))
    ensures var t := Next(m, s, Irq(a)); t.sfs == s.sfs && LookedUp(Links(t.sfs), t.clk)
  {
    PassesLookUp(s.sfs, s.nbrs, m.tm, s.clk, PassesOf(a));
  }

  /** Listen-link theorem. A slot ends, or is skipped, unlocked, and the last round of its
      rescheduling is a lookup; then the main thread runs, leaving the schedule as it is. If the
      next slot's best link has nothing to send, the node listens on the lowest-handle link that
      can receive. */
  lemma NextSlotListensOnLowestHandle(m: Params, s: State, a: IrqAct, acts: seq<Act>, second: Option<Addr>)
    requires m.Valid() && Sound(m, s) && !s.locked && (a.Skip? || a.End?) && IrqEnabled(m, s, a)
    requires LooksUpLast(m.tm, s.clk, PassesOf(a)) && ScheduleStands(m, Next(m, s, Irq(a)), acts)
    requires var u := Exec(m, Next(m, s, Irq(a)), acts); Shape(u) && IrqEnabled(m, u, Enter(None, second))
    ensures var u := Exec(m, Next(m, s, Irq(a)), acts); Listens(s.sfs, u.clk, Next(m, u, Irq(Enter(None, second))))
  {
    StepKeepsSound(m, s, Irq(a));
    LookedUpAfter(m, s, a);
    StandingRun(m, Next(m, s, Irq(a)), acts);
    ListensOn(m, Exec(m, Next(m, s, Irq(a)), acts), second);
  }

  /** What the next slot is for: of the links due in it, the one chosen transmits if any does, has
      the lowest slotframe handle, and, between Tx links of one slotframe, the longest queue. */
  lemma NextSlotHasPriority(m: Params, s: State, a: IrqAct)
    requires m.Valid() && Sound(m, s) && !s.locked && (a.Skip? || a.End?) && IrqEnabled(m, s, a)
    requires LooksUpLast(m.tm, s.clk, PassesOf(a))
    ensures var t := Next(m, s, Irq(a));
      t.clk.current.Some? ==> forall l | l in Links(s.sfs) && ActiveAt(l, t.clk.asn) ::
        && (l.tx ==> t.clk.current.value.tx)
        && (l.tx == t.clk.current.value.tx ==> t.clk.current.value.sfHandle <= l.sfHandle)
        && (l.tx && t.clk.current.value.tx && l.sfHandle == t.clk.current.value.sfHandle ==>
              |QueueOf(s, l.addr)| <= |QueueOf(s, t.clk.current.value.addr)|)
  {
    PassesPrior(s.sfs, s.nbrs, m.tm, s.clk, PassesOf(a));
    forall b ensures Length(s.nbrs, b) == |QueueOf(s, b)| {}
  }

  /** The same for the slot that start-up schedules. */
  lemma FirstSlotListensOnLowestHandle(m: Params, asn0: nat, start0: nat, ps: seq<Pass>, s: State,
      acts: seq<Act>, second: Option<Addr>)
    requires Init(m, asn0, start0, ps, s) && ps != [] && ScheduleStands(m, s, acts)
    requires var u := Exec(m, s, acts); Shape(u) && IrqEnabled(m, u, Enter(None, second))
    ensures var u := Exec(m, s, acts); Listens(s.sfs, u.clk, Next(m, u, Irq(Enter(None, second))))
  {
    InitInv(m, asn0, start0, ps, s);
    StartLooksUp(s.sfs, s.nbrs, m.tm, Clock(asn0, start0, 0, false, 0, None, None), ps);
    StandingRun(m, s, acts);
    ListensOn(m, Exec(m, s, acts), second);
  }
}
