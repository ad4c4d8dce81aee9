/** The lock and the queues: what every action of the slot machine keeps. */
module SlotInvariants {
  import opened Types
  import opened Rings
  import opened Queue
  import opened Lookup
  import opened Store
  import opened Rescheduling
  import opened SlotMachine

  // ---- The lock ----

  /** The request flag is up only inside tsch_get_lock, no Tx slot runs under the lock, and
      from the end of the wait until the flag falls no slot runs at all. */
  ghost predicate LockInv(s: State) {
    && (s.requested <==> s.pc.Waiting? || s.pc.Rechecking? || s.pc.Taking? || s.pc.Clearing?)
    && (s.locked <==> s.pc.Clearing? || s.pc.Inside?)
    && (s.inSlot <==> !s.phase.Idle?)
    && (s.requested && !s.pc.Waiting? ==> s.phase.Idle?)
    && (s.locked ==> !s.phase.TxSlot?)
    && (s.removing.Some? ==> s.pc.Inside? && s.owed == None)
    && (s.adding != NotAdding ==> s.pc.Outside? && s.owed == None)
    && (s.resetting.Some? ==> s.pc.Outside? && s.owed == None)
  }

  lemma LockKeptByMain(m: Params, s: State, a: MainAct)
    requires m.Valid() && Shape(s) && LockInv(s) && MainEnabled(s, a)
    ensures LockInv(MainStep(m, s, a))
  {
    match a
    case Lock(l) => LockStepKeepsLock(s, l);
    case Section(e) => assert SectionStep(m.q, s, e).resetting == s.resetting;
    case Upkeep(u) => assert UpkeepStep(m.q, s, u).removing == s.removing;
    case Move(v) => assert OnlyPackets(s, PacketStep(s, v));
  }

  lemma LockStepKeepsLock(s: State, a: LockAct)
    requires LockInv(s) && LockEnabled(s, a) && s.removing == None && s.resetting == None
    ensures LockInv(LockStep(s, a))
  {
  }

  /** A slot entered under the lock finds no packet. */
  lemma EnterKeepsLock(m: Params, s: State, first: Option<Addr>, second: Option<Addr>)
    requires m.Valid() && Shape(s) && LockInv(s) && IrqEnabled(m, s, Enter(first, second))
    ensures LockInv(DoEnter(s, first, second))
  {
    if s.locked {
      assert first == None;
    }
  }

  lemma TxEndKeepsLock(m: Params, s: State, ok: bool, acked: bool, drift: int, random: nat)
    requires m.Valid() && Shape(s) && LockInv(s) && s.phase.TxSlot? && TxPointersLive(s)
    ensures LockInv(DoTxEnd(m, s, ok, acked, drift, random))
  {
  }

  lemma EffectKeepsLock(m: Params, s: State, a: IrqAct)
    requires m.Valid() && Shape(s) && LockInv(s) && IrqEnabled(m, s, a)
    ensures LockInv(IrqEffect(m, s, a))
  {
    match a
    case Enter(first, second) => EnterKeepsLock(m, s, first, second);
    case TxEnd(ok, acked, drift, random) =>
      if TxPointersLive(s) {
        TxEndKeepsLock(m, s, ok, acked, drift, random);
      }
    case Skip(_) =>
    case RxEnd(_) =>
    case End(_) =>
  }

  lemma LockKeptByIrq(m: Params, s: State, a: IrqAct)
    requires m.Valid() && Shape(s) && LockInv(s) && IrqEnabled(m, s, a)
    ensures LockInv(IrqStep(m, s, a))
  {
    EffectKeepsLock(m, s, a);
  }

  // ---- Pointers that cross a yield or a statement ----

  /** The producer's index stays the free one until it commits, whatever the interrupt does. */
  ghost predicate AddInv(s: State)
    requires TableOk(s.nbrs)
  {
    s.adding != NotAdding ==>
      var n, p, i := s.adding.a, s.adding.p, s.adding.index;
      && s.pc == Outside && n in s.nbrs && s.nbrs[n].ring.PeekPut() == Some(i)
      && p in s.held && p in s.packets && s.packets[p].transmissions == 0
      && (s.adding.Written? ==> s.nbrs[n].ring.slots[i] == p)
  }

  /** During a Tx slot the pointers taken at its start stay good: the packet is still its
      neighbour's head, and the peeked index is still the free one of the dequeued ring. */
  ghost predicate TxInv(s: State)
    requires TableOk(s.nbrs) && s.dequeued.Valid()
  {
    s.phase.TxSlot? ==>
      && TxPointersLive(s)
      && s.nbrs[s.nbr.value].ring.Head() == s.packet
      && s.dequeued.PeekPut() == Some(s.phase.index)
  }

  // ---- Where packets are ----

  predicate Holds(s: State, x: Place, p: Pid)
    requires TableOk(s.nbrs) && s.dequeued.Valid()
  {
    match x
    case InQueue(a, k) => a in s.nbrs && s.nbrs[a].ring.get <= k < s.nbrs[a].ring.put
      && s.nbrs[a].ring.slots[k % |s.nbrs[a].ring.slots|] == p
    case InDequeued(k) => s.dequeued.get <= k < s.dequeued.put && s.dequeued.slots[k % |s.dequeued.slots|] == p
    case HeldByMain => p in s.held
  }

  /** A packet is in a place just when it is allocated and that is the place on record: so
      each allocated packet is in exactly one place, and every place holds allocated ones. */
  ghost predicate Conserved(s: State)
    requires TableOk(s.nbrs) && s.dequeued.Valid()
  {
    && s.log.place.Keys == s.packets.Keys
    && forall x, p :: Holds(s, x, p) <==> p in s.log.place && s.log.place[p] == x
  }

  // ---- Attempts and order ----

  function Attempts(p: Packet): nat {
    if p.maxTransmissions == 0 then 1 else p.maxTransmissions
  }

  /** Nothing is attempted more often than allowed, and what is queued has an attempt left. */
  ghost predicate RetryInv(s: State) {
    forall p | p in s.packets ::
      && s.packets[p].transmissions <= Attempts(s.packets[p])
      && (p in s.log.place && s.log.place[p].InQueue? ==> s.packets[p].transmissions < Attempts(s.packets[p]))
  }

  function QueueOf(s: State, a: Addr): seq<Pid>
    requires TableOk(s.nbrs)
  {
    if a in s.nbrs then s.nbrs[a].ring.Contents() else []
  }

  ghost predicate InOrder(s: State, a: Addr)
    requires TableOk(s.nbrs)
  {
    Of(s.log.added, a) == Of(s.log.removed, a) + QueueOf(s, a)
  }

  /** Packets leave each queue, and the dequeued ring, in the order they entered. */
  ghost predicate FifoInv(s: State)
    requires TableOk(s.nbrs) && s.dequeued.Valid()
  {
    && (forall a :: InOrder(s, a))
    && s.log.dequeued == s.log.taken + s.dequeued.Contents()
  }

  ghost predicate QueueInv(s: State)
    requires TableOk(s.nbrs) && s.dequeued.Valid()
  {
    AddInv(s) && TxInv(s) && Conserved(s) && RetryInv(s) && FifoInv(s)
  }

  ghost predicate SameRings(t: Table, u: Table) {
    t.Keys == u.Keys && forall a | a in t :: u[a].ring == t[a].ring
  }

  ghost predicate Kept(s: State, t: State) {
    Shape(t) && QueueInv(t) && t.faulted == s.faulted
  }

  /** Whatever leaves rings, packets and their history alone. */
  lemma QueueFrame(s: State, t: State)
    requires TableOk(s.nbrs) && s.dequeued.Valid() && TableOk(t.nbrs)
    requires QueueInv(s) && SameRings(s.nbrs, t.nbrs)
    requires t.packets == s.packets && t.held == s.held && t.dequeued == s.dequeued && t.adding == s.adding
    requires t.log.(corrections := 0) == s.log.(corrections := 0)
    requires t.adding != NotAdding ==> t.pc == s.pc
    requires TxInv(t)
    ensures QueueInv(t)
  {
    forall x, p ensures Holds(t, x, p) <==> Holds(s, x, p) {}
    forall a ensures InOrder(t, a) {
      assert InOrder(s, a) && QueueOf(t, a) == QueueOf(s, a);
    }
  }

  lemma InstallKeepsQueues(m: Params, s: State, n: Addr)
    requires m.Valid() && Shape(s) && LockInv(s) && QueueInv(s) && SectionEnabled(s, InstallNbr(n))
    ensures Kept(s, SectionStep(m.q, s, InstallNbr(n)))
  {
    var t := SectionStep(m.q, s, InstallNbr(n));
    forall x, p ensures Holds(t, x, p) <==> Holds(s, x, p) {}
    forall a ensures InOrder(t, a) {
      assert InOrder(s, a) && QueueOf(t, a) == QueueOf(s, a);
    }
  }

  lemma DropKeepsQueues(m: Params, s: State, n: Addr)
    requires m.Valid() && Shape(s) && QueueInv(s) && UpkeepEnabled(s, DropNbr(n))
    ensures Kept(s, UpkeepStep(m.q, s, DropNbr(n)))
  {
    var t := UpkeepStep(m.q, s, DropNbr(n));
    GetDropsHead(s.nbrs[n].ring);
    forall x, p ensures Holds(t, x, p) <==> Holds(s, x, p) {}
    forall a ensures InOrder(t, a) {
      assert InOrder(s, a) && QueueOf(t, a) == QueueOf(s, a);
    }
  }

  lemma AllocKeepsQueues(s: State, n: Addr, p: Pid, limit: nat)
    requires Shape(s) && QueueInv(s) && PacketEnabled(s, AddAlloc(n, p, limit))
    ensures Kept(s, DoAddAlloc(s, n, p, limit))
  {
    var t := DoAddAlloc(s, n, p, limit);
    forall x, q ensures Holds(t, x, q) <==> Holds(s, x, q) || (x == HeldByMain && q == p) {}
    forall a ensures InOrder(t, a) {
      assert InOrder(s, a) && QueueOf(t, a) == QueueOf(s, a);
    }
  }

  /** A queue's head is in the place of its get counter. */
  lemma HeadPlace(s: State, a: Addr)
    requires TableOk(s.nbrs) && s.dequeued.Valid() && a in s.nbrs && s.nbrs[a].ring.Head().Some?
    ensures Holds(s, InQueue(a, s.nbrs[a].ring.get), s.nbrs[a].ring.Head().value)
  {
  }

  lemma FreeKeepsQueues(s: State, p: Pid)
    requires Shape(s) && QueueInv(s) && PacketEnabled(s, FreePacket(p))
    ensures Kept(s, DoFreePacket(s, p))
  {
    var t := DoFreePacket(s, p);
    assert Holds(s, HeldByMain, p);
    forall x, q ensures Holds(t, x, q) <==> Holds(s, x, q) && q != p {}
    if s.phase.TxSlot? {
      HeadPlace(s, s.nbr.value);
    }
    forall a ensures InOrder(t, a) {
      assert InOrder(s, a) && QueueOf(t, a) == QueueOf(s, a);
    }
  }

  /** The write lands in a free place of the ring. */
  lemma WritePlaces(s: State, x: Place, q: Pid)
    requires Shape(s) && AddInv(s) && s.adding.Allocated? && TableOk(DoAddWrite(s).nbrs)
    ensures Holds(DoAddWrite(s), x, q) <==> Holds(s, x, q)
  {
    var n := s.adding.a;
    if x.InQueue? && x.a == n && s.nbrs[n].ring.get <= x.k < s.nbrs[n].ring.put {
      PutSlotIsFree(s.nbrs[n].ring, x.k);
    }
  }

  lemma WriteOrder(s: State)
    requires Shape(s) && AddInv(s) && s.adding.Allocated?
    ensures TableOk(DoAddWrite(s).nbrs) && forall b :: QueueOf(DoAddWrite(s), b) == QueueOf(s, b)
  {
    WriteInvisible(s.nbrs[s.adding.a].ring, s.adding.p);
  }

  lemma WriteTx(s: State)
    requires Shape(s) && AddInv(s) && TxInv(s) && s.adding.Allocated? && TableOk(DoAddWrite(s).nbrs)
    ensures TxInv(DoAddWrite(s))
  {
    if s.phase.TxSlot? {
      HeadPlace(s, s.nbr.value);
      WritePlaces(s, InQueue(s.nbr.value, s.nbrs[s.nbr.value].ring.get), s.packet.value);
    }
  }

  lemma WriteKeepsQueues(s: State)
    requires Shape(s) && QueueInv(s) && s.adding.Allocated?
    ensures Kept(s, DoAddWrite(s))
  {
    var t := DoAddWrite(s);
    WriteOrder(s);
    WriteTx(s);
    forall x, q ensures Holds(t, x, q) <==> Holds(s, x, q) {
      WritePlaces(s, x, q);
    }
    forall a ensures InOrder(t, a) {
      assert InOrder(s, a);
    }
  }

  lemma CommitOrder(s: State)
    requires Shape(s) && AddInv(s) && s.adding.Written?
    ensures var t := DoAddCommit(s);
      && TableOk(t.nbrs) && QueueOf(t, s.adding.a) == QueueOf(s, s.adding.a) + [s.adding.p]
      && forall b | b != s.adding.a :: QueueOf(t, b) == QueueOf(s, b)
  {
    CommitAppends(s.nbrs[s.adding.a].ring);
  }

  lemma TailAdded(all: seq<Pid>, gone: seq<Pid>, queue: seq<Pid>, p: Pid)
    requires all == gone + queue
    ensures all + [p] == gone + (queue + [p])
  {
  }

  lemma CommitInOrder(s: State, a: Addr)
    requires Shape(s) && AddInv(s) && InOrder(s, a) && s.adding.Written? && TableOk(DoAddCommit(s).nbrs)
    ensures InOrder(DoAddCommit(s), a)
  {
    CommitOrder(s);
    if a == s.adding.a {
      TailAdded(Of(s.log.added, a), Of(s.log.removed, a), QueueOf(s, a), s.adding.p);
    }
  }

  lemma CommitFifo(s: State)
    requires Shape(s) && AddInv(s) && FifoInv(s) && s.adding.Written? && TableOk(DoAddCommit(s).nbrs)
    ensures FifoInv(DoAddCommit(s))
  {
    forall a ensures InOrder(DoAddCommit(s), a) {
      assert InOrder(s, a);
      CommitInOrder(s, a);
    }
  }

  lemma CommitPlaces(s: State)
    requires Shape(s) && AddInv(s) && Conserved(s) && s.adding.Written? && TableOk(DoAddCommit(s).nbrs)
    ensures Conserved(DoAddCommit(s))
  {
    var t := DoAddCommit(s);
    var n, p := s.adding.a, s.adding.p;
    var y := InQueue(n, s.nbrs[n].ring.put);
    assert Holds(s, HeldByMain, p);
    forall x, q ensures Holds(t, x, q) <==> if q == p then x == y else Holds(s, x, q) {
      assert Holds(s, x, p) ==> x == HeldByMain;
    }
  }

  /** A commit moves exactly the packet written, to the end of its queue. */
  lemma CommitKeepsQueues(s: State)
    requires Shape(s) && QueueInv(s) && s.adding.Written?
    ensures Kept(s, DoAddCommit(s))
    ensures var t := DoAddCommit(s);
      QueueOf(t, s.adding.a) == QueueOf(s, s.adding.a) + [s.adding.p] &&
      forall b | b != s.adding.a :: QueueOf(t, b) == QueueOf(s, b)
  {
    CommitOrder(s);
    CommitFifo(s);
    CommitPlaces(s);
    CommitRetry(s);
    CommitTx(s);
  }

  lemma CommitRetry(s: State)
    requires Shape(s) && AddInv(s) && RetryInv(s) && s.adding.Written?
    ensures RetryInv(DoAddCommit(s))
  {
  }

  lemma CommitTx(s: State)
    requires Shape(s) && AddInv(s) && TxInv(s) && s.adding.Written? && TableOk(DoAddCommit(s).nbrs)
    ensures Shape(DoAddCommit(s)) && TxInv(DoAddCommit(s)) && DoAddCommit(s).faulted == s.faulted
    ensures DoAddCommit(s).adding == NotAdding
  {
  }

  lemma FlushPlaces(s: State, n: Addr)
    requires Shape(s) && Conserved(s) && n in s.nbrs && s.nbrs[n].ring.Head().Some?
    requires TableOk(DoFlushHead(s, n).nbrs)
    ensures Conserved(DoFlushHead(s, n))
  {
    var t := DoFlushHead(s, n);
    var p := s.nbrs[n].ring.Head().value;
    HeadPlace(s, n);
    forall x, q ensures Holds(t, x, q) <==> if q == p then x == HeldByMain else Holds(s, x, q) {
      assert Holds(s, x, p) ==> x == InQueue(n, s.nbrs[n].ring.get);
    }
  }

  lemma FlushFifo(s: State, n: Addr)
    requires Shape(s) && FifoInv(s) && n in s.nbrs && s.nbrs[n].ring.Head().Some?
    ensures TableOk(DoFlushHead(s, n).nbrs) && FifoInv(DoFlushHead(s, n))
  {
    var t := DoFlushHead(s, n);
    GetDropsHead(s.nbrs[n].ring);
    forall a ensures InOrder(t, a) {
      assert InOrder(s, a);
      if a == n {
        HeadMoves(Of(s.log.added, n), Of(s.log.removed, n), QueueOf(s, n), s.nbrs[n].ring.Head().value);
      }
    }
  }

  lemma FlushKeepsQueues(s: State, n: Addr)
    requires Shape(s) && QueueInv(s) && s.adding == NotAdding && !s.phase.TxSlot?
    requires n in s.nbrs && s.nbrs[n].ring.Head().Some?
    ensures Kept(s, DoFlushHead(s, n))
  {
    FlushFifo(s, n);
    FlushPlaces(s, n);
  }

  lemma TakeKeepsQueues(s: State)
    requires Shape(s) && QueueInv(s) && s.adding == NotAdding && s.dequeued.Head().Some?
    ensures Kept(s, DoTakeDequeued(s))
  {
    var t := DoTakeDequeued(s);
    var p := s.dequeued.Head().value;
    assert Holds(s, InDequeued(s.dequeued.get), p);
    forall x, q ensures Holds(t, x, q) <==> if q == p then x == HeldByMain else Holds(s, x, q) {
      assert Holds(s, x, p) ==> x == InDequeued(s.dequeued.get);
    }
    GetDropsHead(s.dequeued);
    forall a ensures InOrder(t, a) {
      assert InOrder(s, a) && QueueOf(t, a) == QueueOf(s, a);
    }
  }

  // ---- The interrupt's actions ----

  /** What the end of a Tx slot does to queues and packets, the backoff left aside. */
  ghost predicate TxOutcome(s: State, t: State, n: Addr, p: Pid, sent: Packet, leaves: bool)
    requires TableOk(s.nbrs) && s.dequeued.Valid()
  {
    && n in s.nbrs && t.nbrs.Keys == s.nbrs.Keys && (forall a | a in s.nbrs && a != n :: t.nbrs[a] == s.nbrs[a])
    && t.nbrs[n].isBroadcast == s.nbrs[n].isBroadcast
    && t.nbrs[n].ring == (if leaves then s.nbrs[n].ring.Get() else s.nbrs[n].ring)
    && t.packets == s.packets[p := sent] && t.held == s.held && t.adding == s.adding && t.pc == s.pc
    && t.phase == SlotEnd && t.faulted == s.faulted && t.sfs == s.sfs
    && (if leaves then
          s.dequeued.PeekPut().Some? && t.dequeued == s.dequeued.Write(s.dequeued.PeekPut().value, p).Commit() &&
          t.log == s.log.(removed := s.log.removed[n := Of(s.log.removed, n) + [p]],
                          dequeued := s.log.dequeued + [p], place := s.log.place[p := InDequeued(s.dequeued.put)])
        else t.dequeued == s.dequeued && t.log == s.log)
  }

  lemma TxEndOutcome(m: Params, s: State, ok: bool, acked: bool, drift: int, random: nat)
    requires m.Valid() && Shape(s) && LockInv(s) && TxInv(s) && s.phase.TxSlot?
    ensures var p := s.packet.value;
      var sent := s.packets[p].(transmissions := s.packets[p].transmissions + 1);
      TxOutcome(s, DoTxEnd(m, s, ok, acked, drift, random), s.nbr.value, p, sent, Leaves(sent, ok))
  {
  }

  /** The end of a Tx slot: the packet stays, with one more attempt on its account, or moves
      from the head of its queue to the end of the dequeued ring. */
  lemma TxEndKeepsQueues(m: Params, s: State, ok: bool, acked: bool, drift: int, random: nat)
    requires m.Valid() && Shape(s) && LockInv(s) && QueueInv(s) && s.phase.TxSlot?
    ensures Kept(s, DoTxEnd(m, s, ok, acked, drift, random))
  {
    var t := DoTxEnd(m, s, ok, acked, drift, random);
    var n, p := s.nbr.value, s.packet.value;
    var sent := s.packets[p].(transmissions := s.packets[p].transmissions + 1);
    TxEndOutcome(m, s, ok, acked, drift, random);
    HeadPlace(s, n);
    if Leaves(sent, ok) {
      TxLeaves(s, t, n, p, sent);
    } else {
      TxStays(s, t, n, p, sent);
    }
  }

  /** What either outcome of a transmission needs: the packet sent is its queue's head. */
  ghost predicate AfterTx(s: State, t: State, n: Addr, p: Pid, sent: Packet, leaves: bool) {
    && Shape(s) && QueueInv(s) && TxOutcome(s, t, n, p, sent, leaves)
    && p in s.packets && s.nbrs[n].ring.Head() == Some(p) && Holds(s, InQueue(n, s.nbrs[n].ring.get), p)
    && sent.transmissions <= Attempts(sent) && (!leaves ==> sent.transmissions < Attempts(sent))
  }

  lemma TxKeepsShape(s: State, t: State, n: Addr, p: Pid, sent: Packet, leaves: bool)
    requires AfterTx(s, t, n, p, sent, leaves)
    ensures Shape(t) && TxInv(t) && RetryInv(t)
  {
    GetDropsHead(s.nbrs[n].ring);
  }

  lemma TxKeepsAdding(s: State, t: State, n: Addr, p: Pid, sent: Packet, leaves: bool)
    requires AfterTx(s, t, n, p, sent, leaves)
    ensures Shape(t) && AddInv(t) && TxInv(t) && RetryInv(t)
  {
    TxKeepsShape(s, t, n, p, sent, leaves);
    if s.adding != NotAdding {
      assert Holds(s, HeldByMain, s.adding.p);
    }
  }

  lemma TxStays(s: State, t: State, n: Addr, p: Pid, sent: Packet)
    requires AfterTx(s, t, n, p, sent, false)
    ensures Shape(t) && QueueInv(t)
  {
    TxKeepsAdding(s, t, n, p, sent, false);
    forall x, q ensures Holds(t, x, q) <==> Holds(s, x, q) {}
    forall a ensures InOrder(t, a) {
      assert InOrder(s, a) && QueueOf(t, a) == QueueOf(s, a);
    }
  }

  lemma TxLeaves(s: State, t: State, n: Addr, p: Pid, sent: Packet)
    requires AfterTx(s, t, n, p, sent, true)
    ensures Shape(t) && QueueInv(t)
  {
    TxKeepsAdding(s, t, n, p, sent, true);
    LeavesPlace(s, t, n, p, sent);
    LeavesInOrder(s, t, n, p, sent);
  }

  lemma LeavesInOrder(s: State, t: State, n: Addr, p: Pid, sent: Packet)
    requires AfterTx(s, t, n, p, sent, true) && TableOk(t.nbrs) && t.dequeued.Valid()
    ensures FifoInv(t)
  {
    DequeuedInOrder(s.dequeued, p);
    forall a ensures InOrder(t, a) {
      assert InOrder(s, a);
      LeavesInOrderAt(s, t, n, p, a);
    }
  }

  lemma HeadMoves(all: seq<Pid>, gone: seq<Pid>, queue: seq<Pid>, p: Pid)
    requires all == gone + queue && queue != [] && queue[0] == p
    ensures all == gone + [p] + queue[1..]
  {
  }

  lemma LeavesInOrderAt(s: State, t: State, n: Addr, p: Pid, a: Addr)
    requires TableOk(s.nbrs) && TableOk(t.nbrs) && n in s.nbrs && t.nbrs.Keys == s.nbrs.Keys
    requires s.nbrs[n].ring.Head() == Some(p) && t.nbrs[n].ring == s.nbrs[n].ring.Get()
    requires forall b | b in s.nbrs && b != n :: t.nbrs[b] == s.nbrs[b]
    requires t.log.added == s.log.added && t.log.removed == s.log.removed[n := Of(s.log.removed, n) + [p]]
    requires InOrder(s, a)
    ensures InOrder(t, a)
  {
    if a == n {
      GetDropsHead(s.nbrs[n].ring);
      HeadMoves(Of(s.log.added, n), Of(s.log.removed, n), QueueOf(s, n), p);
    } else {
      assert QueueOf(t, a) == QueueOf(s, a);
    }
  }

  lemma DequeuedInOrder(r: Ring, p: Pid)
    requires r.Valid() && r.PeekPut().Some?
    ensures r.Write(r.PeekPut().value, p).Commit().Contents() == r.Contents() + [p]
  {
    WriteInvisible(r, p);
    CommitAppends(r.Write(r.PeekPut().value, p));
  }

  lemma QueueAfterLeaving(s: State, t: State, n: Addr, p: Pid, sent: Packet, a: Addr, k: nat, q: Pid)
    requires TableOk(s.nbrs) && s.dequeued.Valid() && TableOk(t.nbrs) && t.dequeued.Valid()
    requires TxOutcome(s, t, n, p, sent, true) && s.nbrs[n].ring.Head().Some?
    ensures var x := InQueue(a, k); Holds(t, x, q) <==> Holds(s, x, q) && x != InQueue(n, s.nbrs[n].ring.get)
  {
  }

  lemma DequeuedAfterLeaving(s: State, t: State, n: Addr, p: Pid, sent: Packet, k: nat, q: Pid)
    requires TableOk(s.nbrs) && s.dequeued.Valid() && TableOk(t.nbrs) && t.dequeued.Valid()
    requires TxOutcome(s, t, n, p, sent, true)
    ensures Holds(t, InDequeued(k), q) <==> if k == s.dequeued.put then q == p else Holds(s, InDequeued(k), q)
  {
    if s.dequeued.get <= k < s.dequeued.put {
      PutSlotIsFree(s.dequeued, k);
    }
  }

  /** Where anything is once the packet sent has moved from the head of its queue to the end of
      the dequeued ring. */
  lemma LeavesPlaceOf(s: State, t: State, n: Addr, p: Pid, sent: Packet, z: Place, q: Pid)
    requires AfterTx(s, t, n, p, sent, true) && TableOk(t.nbrs) && t.dequeued.Valid()
    ensures Holds(t, z, q) <==> if q == p then z == InDequeued(s.dequeued.put) else Holds(s, z, q)
  {
    assert Holds(s, z, p) ==> z == InQueue(n, s.nbrs[n].ring.get);
    match z
    case InQueue(a, k) => QueueAfterLeaving(s, t, n, p, sent, a, k, q);
    case InDequeued(k) => DequeuedAfterLeaving(s, t, n, p, sent, k, q);
    case HeldByMain =>
  }

  lemma LeavesPlace(s: State, t: State, n: Addr, p: Pid, sent: Packet)
    requires AfterTx(s, t, n, p, sent, true) && TableOk(t.nbrs) && t.dequeued.Valid()
    ensures Conserved(t)
  {
    forall z, q ensures Holds(t, z, q) <==> if q == p then z == InDequeued(s.dequeued.put) else Holds(s, z, q) {
      LeavesPlaceOf(s, t, n, p, sent, z, q);
    }
  }

  lemma EnterRings(s: State, first: Option<Addr>)
    requires TableOk(s.nbrs)
    ensures SameRings(s.nbrs, TableAtEntry(s, first))
  {
  }

  lemma EnterTx(m: Params, s: State, first: Option<Addr>, second: Option<Addr>)
    requires m.Valid() && Shape(s) && Conserved(s) && IrqEnabled(m, s, Enter(first, second))
    ensures TxInv(DoEnter(s, first, second))
  {
    var t := DoEnter(s, first, second);
    EnterRings(s, first);
    if t.phase.TxSlot? {
      var n := t.nbr.value;
      assert Holds(s, InQueue(n, s.nbrs[n].ring.get), t.packet.value);
    }
  }

  lemma EnterKeepsQueues(m: Params, s: State, first: Option<Addr>, second: Option<Addr>)
    requires m.Valid() && Shape(s) && QueueInv(s) && IrqEnabled(m, s, Enter(first, second))
    ensures Kept(s, DoEnter(s, first, second))
  {
    EnterRings(s, first);
    EnterTx(m, s, first, second);
    QueueFrame(s, DoEnter(s, first, second));
  }

  lemma {:induction false} RefreshKeepsRings(t: Table, locked: bool, tm: Timer, k: Clock, ps: seq<Pass>)
    requires TableOk(t) && tm.modulus > 0
    ensures SameRings(t, RefreshThrough(t, locked, tm, k, ps))
    ensures locked ==> RefreshThrough(t, locked, tm, k, ps) == t
    decreases |ps|
  {
    if ps != [] {
      RefreshKeepsRings(Refresh(t, locked, k), locked, tm, Advance(tm, k, ps[0]), ps[1..]);
    }
  }

  lemma RescheduleKeepsQueues(m: Params, s: State, ps: seq<Pass>)
    requires m.Valid() && Shape(s) && QueueInv(s) && !s.phase.TxSlot?
    ensures Kept(s, DoReschedule(m, s, ps))
  {
    RefreshKeepsRings(s.nbrs, s.locked, m.tm, s.clk, ps);
    QueueFrame(s, DoReschedule(m, s, ps));
  }

  // ---- Every action ----

  /** What the queue invariants look at besides the rings. */
  predicate SameBooks(s: State, t: State) {
    && t.adding == s.adding && t.phase == s.phase && t.packet == s.packet && t.nbr == s.nbr
    && t.packets == s.packets && t.held == s.held && t.dequeued == s.dequeued && t.log == s.log
    && t.faulted == s.faulted
  }

  lemma QuietFrame(s: State, t: State)
    requires Shape(s) && Shape(t) && LockInv(s) && QueueInv(s) && SameRings(s.nbrs, t.nbrs) && SameBooks(s, t)
    requires (s.pc == Outside && s.adding != NotAdding ==> t.pc == Outside) && (t.clk == s.clk || s.pc == Inside)
    ensures Kept(s, t)
  {
    QueueFrame(s, t);
  }

  lemma OneRing(t: Table, n: Addr, x: Nbr)
    requires TableOk(t) && n in t && x.ring == t[n].ring && x.isBroadcast == t[n].isBroadcast
    ensures TableOk(t[n := x]) && SameRings(t, t[n := x])
  {
  }

  lemma CutWellFormed(sfs: seq<Slotframe>, l: Link)
    requires WellFormed(sfs)
    ensures WellFormed(Cut(sfs, l.sfHandle, {l}))
  {
  }

  lemma LockKeepsQueues(s: State, a: LockAct)
    requires Shape(s) && LockInv(s) && QueueInv(s) && LockEnabled(s, a)
    ensures Kept(s, LockStep(s, a))
  {
    QuietFrame(s, LockStep(s, a));
  }

  lemma SectionKeepsQueues(m: Params, s: State, a: SectionAct)
    requires m.Valid() && Shape(s) && LockInv(s) && QueueInv(s) && SectionEnabled(s, a)
    ensures Kept(s, SectionStep(m.q, s, a))
  {
    if a.InstallNbr? {
      InstallKeepsQueues(m, s, a.nbr);
    } else {
      if a.EndRemove? {
        CutWellFormed(s.sfs, s.removing.value);
      }
      QuietFrame(s, SectionStep(m.q, s, a));
    }
  }

  lemma SettledRings(t: Table, o: Owed)
    requires TableOk(t)
    ensures TableOk(Settled(t, o)) && SameRings(t, Settled(t, o))
  {
    var u, n := Settled(t, o), o.link.addr;
    if u != t {
      OneRing(t, n, u[n]);
    }
  }

  lemma UpkeepRings(m: Params, s: State, a: UpkeepAct)
    requires m.Valid() && Shape(s) && UpkeepEnabled(s, a) && !a.DropNbr?
    ensures var t := UpkeepStep(m.q, s, a); TableOk(t.nbrs) && SameRings(s.nbrs, t.nbrs)
  {
    var t := UpkeepStep(m.q, s, a);
    match a
    case Settle => SettledRings(s.nbrs, s.owed.value);
    case ResetWindow(n) => OneRing(s.nbrs, n, t.nbrs[n]);
    case ResetExponent => OneRing(s.nbrs, s.resetting.value, t.nbrs[s.resetting.value]);
    case ClearApt(_) =>
  }

  lemma UpkeepKeepsQueues(m: Params, s: State, a: UpkeepAct)
    requires m.Valid() && Shape(s) && LockInv(s) && QueueInv(s) && UpkeepEnabled(s, a)
    ensures Kept(s, UpkeepStep(m.q, s, a))
  {
    if a.DropNbr? {
      DropKeepsQueues(m, s, a.nbr);
    } else {
      UpkeepRings(m, s, a);
      QuietFrame(s, UpkeepStep(m.q, s, a));
    }
  }

  lemma PacketsKeepQueues(s: State, a: PacketAct)
    requires Shape(s) && QueueInv(s) && PacketEnabled(s, a)
    ensures Kept(s, PacketStep(s, a))
  {
    match a
    case AddAlloc(n, p, limit) => AllocKeepsQueues(s, n, p, limit);
    case AddWrite => WriteKeepsQueues(s);
    case AddCommit => CommitKeepsQueues(s);
    case FlushHead(n) => FlushKeepsQueues(s, n);
    case TakeDequeued => TakeKeepsQueues(s);
    case FreePacket(p) => FreeKeepsQueues(s, p);
  }

  lemma MainKeepsQueues(m: Params, s: State, a: MainAct)
    requires m.Valid() && Shape(s) && LockInv(s) && QueueInv(s) && MainEnabled(s, a)
    ensures Kept(s, MainStep(m, s, a))
  {
    match a
    case Lock(l) => LockKeepsQueues(s, l);
    case Section(e) => SectionKeepsQueues(m, s, e);
    case Upkeep(u) => UpkeepKeepsQueues(m, s, u);
    case Move(v) => PacketsKeepQueues(s, v);
  }

  /** The fault flag decides nothing. */
  lemma FaultFrame(s: State, faulted: bool)
    requires Shape(s) && QueueInv(s)
    ensures var t := s.(faulted := faulted); Shape(t) && QueueInv(t)
  {
    QueueFrame(s, s.(faulted := faulted));
  }

  lemma EffectKeepsQueues(m: Params, s: State, a: IrqAct)
    requires m.Valid() && Shape(s) && LockInv(s) && QueueInv(s) && IrqEnabled(m, s, a)
    ensures Kept(s, IrqEffect(m, s, a))
  {
    match a
    case Skip(ps) => RescheduleKeepsQueues(m, s, ps);
    case Enter(first, second) => EnterKeepsQueues(m, s, first, second);
    case TxEnd(ok, acked, drift, random) => TxEndKeepsQueues(m, s, ok, acked, drift, random);
    case RxEnd(frame) => RxEndKeepsQueues(s, frame);
    case End(ps) => RescheduleKeepsQueues(m, s, ps);
  }

  lemma RxEndKeepsQueues(s: State, frame: Option<Frame>)
    requires Shape(s) && QueueInv(s) && s.phase.RxSlot?
    ensures Kept(s, DoRxEnd(s, frame))
  {
    QueueFrame(s, DoRxEnd(s, frame));
  }

  /** The interrupt faults where `Faults` says, and nowhere else. */
  lemma IrqKeepsQueues(m: Params, s: State, a: IrqAct)
    requires m.Valid() && Shape(s) && LockInv(s) && QueueInv(s) && IrqEnabled(m, s, a)
    ensures var t := IrqStep(m, s, a); Shape(t) && QueueInv(t) && (t.faulted <==> s.faulted || Faults(s, a))
  {
    EffectKeepsQueues(m, s, a);
    FaultFrame(IrqEffect(m, s, a), s.faulted || Faults(s, a));
  }
}
