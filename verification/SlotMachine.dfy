/** The slot interrupt and the main thread as one transition system. The interrupt runs
    without preemption between its yields and may be suspended inside a Tx or Rx slot; the
    main thread moves in small steps. Runs are arbitrary sequences of actions: an action that
    is not enabled leaves the state alone. */
module SlotMachine {
  import opened Types
  import opened Rings
  import opened Queue
  import opened Lookup
  import opened Store
  import opened Rescheduling

  /** Program counter of the main thread in tsch_get_lock and the critical section after it. */
  datatype Pc = Outside | Requesting | Waiting | Rechecking | Taking | Clearing | Inside

  /** Where the interrupt stands. A Tx slot remembers the free index it peeked in the
      dequeued ring; SlotEnd is the end of a slot, before rescheduling. */
  datatype Phase = Idle | TxSlot(index: nat) | RxSlot | SlotEnd

  /** Progress of the main thread inside tsch_queue_add_packet. */
  datatype Adding = NotAdding | Allocated(a: Addr, p: Pid, index: nat) | Written(a: Addr, p: Pid, index: nat)

  /** What an Rx slot takes from a frame for this node: the pending bit, if the frame asked for
      an acknowledgement, and the drift to its sender. */
  datatype Frame = Frame(pending: Option<bool>, drift: int)

  /** A link that has been linked, or unlinked, under the lock, and whose neighbour's counters
      the main thread has still to update. */
  datatype Owed = Gained(link: Link) | Lost(link: Link)

  /** A place a packet can be in; queue places are named by the ring's counter. */
  datatype Place = InQueue(a: Addr, k: nat) | InDequeued(k: nat) | HeldByMain

  /** History: packets added to and removed from each queue, those put in and taken out of
      the dequeued ring, the place each packet was last moved to, and the sum of all time
      corrections. Nothing the machine does depends on it. */
  datatype Log = Log(added: map<Addr, seq<Pid>>, removed: map<Addr, seq<Pid>>,
                     dequeued: seq<Pid>, taken: seq<Pid>, place: map<Pid, Place>, corrections: int)

  /** `removing` is the link a removal has cleared from the current link but not yet unlinked;
      `resetting` the neighbour whose backoff reset has stored the window but not the exponent;
      `owed` the link whose counters are not yet updated;
      `apt` the APT table, and `seen` the entry of it the main thread read last. `faulted` says
      that a null or freed pointer has been used; the run goes on as if that did no damage. */
  datatype State = State(
    pc: Pc, locked: bool, requested: bool, inSlot: bool, phase: Phase,
    adding: Adding, removing: Option<Link>, resetting: Option<Addr>, owed: Option<Owed>,
    sfs: seq<Slotframe>, clk: Clock, packet: Option<Pid>, nbr: Option<Addr>,
    nbrs: Table, packets: map<Pid, Packet>, held: set<Pid>, dequeued: Ring, txStatus: nat,
    apt: map<nat, nat>, seen: nat, log: Log, faulted: bool)

  datatype Params = Params(q: Config, tm: Timer) {
    predicate Valid() { q.Valid() && tm.modulus > 0 }
  }

  /** tsch_get_lock and tsch_release_lock. */
  datatype LockAct = Ask | Request | Wait | Recheck | Take | Clear | Unlock

  /** Inside a critical section. */
  datatype SectionAct =
    | BeginRemove(link: Link) | EndRemove | Extend(sfs: seq<Slotframe>, gained: Option<Link>)
    | InstallNbr(nbr: Addr) | TakeStatus | ReadApt(timeslot: nat)

  /** Outside, on neighbours and the APT table. */
  datatype UpkeepAct =
    | Settle | DropNbr(nbr: Addr) | ResetWindow(nbr: Addr) | ResetExponent
    | ClearApt(timeslot: nat)

  /** On packets: adding one in three steps, flushing, and emptying the dequeued ring. */
  datatype PacketAct =
    | AddAlloc(nbr: Addr, p: Pid, limit: nat) | AddWrite | AddCommit
    | FlushHead(nbr: Addr) | TakeDequeued | FreePacket(p: Pid)

  datatype MainAct = Lock(l: LockAct) | Section(e: SectionAct) | Upkeep(u: UpkeepAct) | Move(v: PacketAct)

  datatype IrqAct =
    | Skip(passes: seq<Pass>)
    | Enter(first: Option<Addr>, second: Option<Addr>)
    | TxEnd(ok: bool, acked: bool, drift: int, random: nat)
    | RxEnd(frame: Option<Frame>)
    | End(passes: seq<Pass>)

  datatype Act = Main(m: MainAct) | Irq(i: IrqAct)

  function Of(m: map<Addr, seq<Pid>>, a: Addr): seq<Pid> {
    if a in m then m[a] else []
  }

  ghost predicate Shape(s: State) {
    TableOk(s.nbrs) && s.dequeued.Valid() && WellFormed(s.sfs)
  }

  // ---- Main thread ----

  /** The main thread is sequential: a removal, a reset, or an update of counters under way comes
      first. Only the last takes the lock, to add the neighbour. */
  predicate Sequential(s: State, a: MainAct) {
    && (s.removing.Some? ==> a == Section(EndRemove))
    && (s.resetting.Some? ==> a == Upkeep(ResetExponent))
    && (s.owed.Some? ==> a.Lock? || a == Section(InstallNbr(s.owed.value.link.addr)) || a == Upkeep(Settle))
  }

  /** The links of a schedule that has gained this one. */
  function Plus(sfs: seq<Slotframe>, link: Option<Link>): set<Link> {
    if link.Some? then Links(sfs) + {link.value} else Links(sfs)
  }

  predicate LockEnabled(s: State, a: LockAct) {
    match a
    case Ask => s.pc == Outside && s.adding == NotAdding
    case Request => s.pc == Requesting
    case Wait => s.pc == Waiting
    case Recheck => s.pc == Rechecking
    case Take => s.pc == Taking
    case Clear => s.pc == Clearing
    case Unlock => s.pc == Inside
  }

  ghost predicate SectionEnabled(s: State, a: SectionAct) {
    s.pc == Inside &&
    match a
    case BeginRemove(l) => l in Links(s.sfs)
    case EndRemove => s.removing.Some?
    case Extend(sfs, l) => WellFormed(sfs) && Links(sfs) == Plus(s.sfs, l) && (l.Some? ==> l.value !in Links(s.sfs))
    case InstallNbr(n) => n !in s.nbrs
    case TakeStatus => true
    case ReadApt(_) => true
  }

  ghost predicate UpkeepEnabled(s: State, a: UpkeepAct)
    requires TableOk(s.nbrs)
  {
    s.pc == Outside &&
    match a
    case Settle => s.owed.Some?
    case DropNbr(n) => s.adding == NotAdding && n in s.nbrs && !s.nbrs[n].isBroadcast
      && !s.nbrs[n].isTimeSource && s.nbrs[n].txLinks == 0 && s.nbrs[n].ring.Head() == None
    case ResetWindow(n) => n in s.nbrs
    case ResetExponent => s.resetting.Some? && s.resetting.value in s.nbrs
    case ClearApt(_) => true
  }

  ghost predicate PacketEnabled(s: State, a: PacketAct)
    requires TableOk(s.nbrs) && s.dequeued.Valid()
  {
    match a
    case AddAlloc(n, p, _) => s.pc == Outside && s.adding == NotAdding && n in s.nbrs
      && s.nbrs[n].ring.PeekPut().Some? && p !in s.packets
    case AddWrite => s.pc == Outside && s.adding.Allocated?
    case AddCommit => s.pc == Outside && s.adding.Written?
    case FlushHead(n) => s.pc == Outside && s.adding == NotAdding && !s.phase.TxSlot? && n in s.nbrs
      && s.nbrs[n].ring.Head().Some?
    case TakeDequeued => s.adding == NotAdding && s.dequeued.Head().Some?
    case FreePacket(p) => s.adding == NotAdding && p in s.held
  }

  ghost predicate MainEnabled(s: State, a: MainAct)
    requires TableOk(s.nbrs) && s.dequeued.Valid()
  {
    Sequential(s, a) &&
    match a
    case Lock(l) => LockEnabled(s, l)
    case Section(e) => SectionEnabled(s, e)
    case Upkeep(u) => UpkeepEnabled(s, u)
    case Move(v) => PacketEnabled(s, v)
  }

  function LockStep(s: State, a: LockAct): (t: State)
    requires LockEnabled(s, a)
    ensures t == s.(pc := t.pc, locked := t.locked, requested := t.requested)
  {
    match a
    case Ask => if s.locked then s else s.(pc := Requesting)
    case Request => s.(requested := true, pc := Waiting)
    case Wait => if s.inSlot then s else s.(pc := Rechecking)
    case Recheck => if s.locked then s.(pc := Outside) else s.(pc := Taking)
    case Take => s.(locked := true, pc := Clearing)
    case Clear => s.(requested := false, pc := Inside)
    case Unlock => s.(locked := false, pc := Outside)
  }

  /** An entry of the APT table; entries never written are 0. */
  function Apt(apt: map<nat, nat>, timeslot: nat): nat {
    if timeslot in apt then apt[timeslot] else 0
  }

  /** Does the action clear the current link? */
  predicate Clears(s: State, a: SectionAct) {
    a.BeginRemove? && s.clk.current == Some(a.link)
  }

  ghost function SectionStep(c: Config, s: State, a: SectionAct): (t: State)
    requires c.Valid() && SectionEnabled(s, a)
    ensures t == s.(removing := t.removing, owed := t.owed, sfs := t.sfs, clk := t.clk, nbrs := t.nbrs,
                    txStatus := t.txStatus, seen := t.seen)
    ensures t.clk == if Clears(s, a) then s.clk.(current := None) else s.clk
    ensures !a.InstallNbr? ==> t.nbrs == s.nbrs
  {
    match a
    case BeginRemove(l) => s.(removing := Some(l),
        clk := if s.clk.current == Some(l) then s.clk.(current := None) else s.clk)
    case EndRemove => s.(removing := None, owed := Some(Lost(s.removing.value)),
        sfs := Cut(s.sfs, s.removing.value.sfHandle, {s.removing.value}))
    case Extend(sfs, l) => s.(sfs := sfs, owed := if l.Some? then Some(Gained(l.value)) else None)
    case InstallNbr(n) => s.(nbrs := s.nbrs[n := NewNbr(c, n)])
    case TakeStatus => s.(txStatus := 0)
    case ReadApt(i) => s.(seen := Apt(s.apt, i))
  }

  /** The second store of a backoff reset. */
  function ExponentReset(c: Config, t: Table, n: Addr): Table
    requires n in t
  {
    t[n := t[n].(backoff := t[n].backoff.(exponent := c.minBe))]
  }

  /** The counters once a link that came or went has been counted; one whose neighbour is not in
      the table never is. */
  function Settled(t: Table, o: Owed): Table {
    Recount(t, o.link, if o.Gained? then 1 else -1)
  }

  ghost function UpkeepStep(c: Config, s: State, a: UpkeepAct): (t: State)
    requires TableOk(s.nbrs) && UpkeepEnabled(s, a)
    ensures t == s.(nbrs := t.nbrs, resetting := t.resetting, owed := t.owed, apt := t.apt)
  {
    match a
    case Settle => s.(owed := None, nbrs := Settled(s.nbrs, s.owed.value))
    case DropNbr(n) => s.(nbrs := s.nbrs - {n})
    case ResetWindow(n) => s.(resetting := Some(n),
        nbrs := s.nbrs[n := s.nbrs[n].(backoff := s.nbrs[n].backoff.(window := 0))])
    case ResetExponent => s.(resetting := None, nbrs := ExponentReset(c, s.nbrs, s.resetting.value))
    case ClearApt(i) => s.(apt := s.apt[i := 0])
  }

  /** What an action on packets may change. */
  predicate OnlyPackets(s: State, t: State) {
    t == s.(nbrs := t.nbrs, packets := t.packets, held := t.held, adding := t.adding, dequeued := t.dequeued,
            log := t.log, faulted := t.faulted) && t.log.corrections == s.log.corrections
  }

  function DoAddAlloc(s: State, n: Addr, p: Pid, limit: nat): (t: State)
    requires TableOk(s.nbrs) && n in s.nbrs && s.nbrs[n].ring.PeekPut().Some?
    ensures OnlyPackets(s, t) && t.nbrs == s.nbrs
  {
    s.(packets := s.packets[p := Packet(0, limit)], held := s.held + {p},
       adding := Allocated(n, p, s.nbrs[n].ring.PeekPut().value),
       log := s.log.(place := s.log.place[p := HeldByMain]))
  }

  function DoAddWrite(s: State): (t: State)
    requires TableOk(s.nbrs) && s.adding.Allocated?
    ensures OnlyPackets(s, t)
  {
    var Allocated(n, p, i) := s.adding;
    if n in s.nbrs && i < |s.nbrs[n].ring.slots| then
      s.(nbrs := s.nbrs[n := s.nbrs[n].(ring := s.nbrs[n].ring.Write(i, p))], adding := Written(n, p, i))
    else s.(faulted := true)
  }

  function DoAddCommit(s: State): (t: State)
    requires TableOk(s.nbrs) && s.adding.Written?
    ensures OnlyPackets(s, t)
  {
    var Written(n, p, i) := s.adding;
    if n in s.nbrs then
      s.(nbrs := s.nbrs[n := s.nbrs[n].(ring := s.nbrs[n].ring.Commit())], adding := NotAdding,
         held := s.held - {p},
         log := s.log.(added := s.log.added[n := Of(s.log.added, n) + [p]],
                       place := s.log.place[p := InQueue(n, s.nbrs[n].ring.put)]))
    else s.(faulted := true)
  }

  function DoFlushHead(s: State, n: Addr): (t: State)
    requires TableOk(s.nbrs) && n in s.nbrs && s.nbrs[n].ring.Head().Some?
    ensures OnlyPackets(s, t)
  {
    var p := s.nbrs[n].ring.Head().value;
    s.(nbrs := s.nbrs[n := s.nbrs[n].(ring := s.nbrs[n].ring.Get())], held := s.held + {p},
       log := s.log.(removed := s.log.removed[n := Of(s.log.removed, n) + [p]],
                     place := s.log.place[p := HeldByMain]))
  }

  function DoTakeDequeued(s: State): (t: State)
    requires s.dequeued.Valid() && s.dequeued.Head().Some?
    ensures OnlyPackets(s, t)
  {
    var p := s.dequeued.Head().value;
    s.(dequeued := s.dequeued.Get(), held := s.held + {p},
       log := s.log.(taken := s.log.taken + [p], place := s.log.place[p := HeldByMain]))
  }

  function DoFreePacket(s: State, p: Pid): (t: State)
    ensures OnlyPackets(s, t) && t.nbrs == s.nbrs
  {
    s.(packets := s.packets - {p}, held := s.held - {p}, log := s.log.(place := s.log.place - {p}))
  }

  ghost function PacketStep(s: State, a: PacketAct): (t: State)
    requires TableOk(s.nbrs) && s.dequeued.Valid() && PacketEnabled(s, a)
    ensures OnlyPackets(s, t)
  {
    match a
    case AddAlloc(n, p, limit) => DoAddAlloc(s, n, p, limit)
    case AddWrite => DoAddWrite(s)
    case AddCommit => DoAddCommit(s)
    case FlushHead(n) => DoFlushHead(s, n)
    case TakeDequeued => DoTakeDequeued(s)
    case FreePacket(p) => DoFreePacket(s, p)
  }

  ghost function MainStep(m: Params, s: State, a: MainAct): (t: State)
    requires m.Valid() && TableOk(s.nbrs) && s.dequeued.Valid() && MainEnabled(s, a)
    ensures t.phase == s.phase && t.inSlot == s.inSlot && t.packet == s.packet && t.nbr == s.nbr
    ensures (!a.Lock? ==> t.pc == s.pc) && (!a.Upkeep? ==> t.apt == s.apt)
  {
    match a
    case Lock(l) => LockStep(s, l)
    case Section(e) => SectionStep(m.q, s, e)
    case Upkeep(u) => UpkeepStep(m.q, s, u)
    case Move(v) => PacketStep(s, v)
  }

  // ---- Slot interrupt ----

  predicate SkipsBest(k: Clock, first: Option<Addr>) {
    k.current.Some? && first == None && k.backup.Some?
    && (!k.current.value.rx || k.backup.value.sfHandle < k.current.value.sfHandle)
  }

  /** The table when the executed link is chosen: a skipped best link is refreshed first. */
  function TableAtEntry(s: State, first: Option<Addr>): (t: Table)
    requires TableOk(s.nbrs)
    ensures TableOk(t)
  {
    if SkipsBest(s.clk, first) then LinkTick(s.nbrs, s.locked, s.clk.current) else s.nbrs
  }

  ghost predicate IrqEnabled(m: Params, s: State, a: IrqAct)
    requires m.Valid() && TableOk(s.nbrs)
  {
    match a
    case Skip(ps) => s.phase == Idle && (s.clk.current == None || s.requested)
      && ps != [] && PassesOk(s.sfs, s.nbrs, s.locked, m.tm, s.clk, ps)
    case Enter(first, second) => s.phase == Idle && s.clk.current.Some? && !s.requested
      && Selects(s.nbrs, s.locked, s.clk.current.value, first)
      && (SkipsBest(s.clk, first) ==>
            Selects(TableAtEntry(s, first), s.locked, s.clk.backup.value, second))
    case TxEnd(ok, acked, _, _) => s.phase.TxSlot? && (acked ==> ok)
    case RxEnd(_) => s.phase.RxSlot?
    case End(ps) => s.phase.SlotEnd? && ps != [] && PassesOk(s.sfs, s.nbrs, s.locked, m.tm, s.clk, ps)
  }

  /** What the interrupt never changes. */
  predicate IrqFrame(s: State, t: State) {
    && t.pc == s.pc && t.locked == s.locked && t.requested == s.requested && t.adding == s.adding
    && t.removing == s.removing && t.resetting == s.resetting && t.owed == s.owed
    && t.sfs == s.sfs && t.held == s.held && t.seen == s.seen
  }

  /** What the start of a slot may change. */
  predicate OnlyEntry(s: State, t: State) {
    && t == s.(nbrs := t.nbrs, inSlot := true, packet := t.packet, nbr := t.nbr, clk := t.clk, phase := t.phase)
    && t.clk == s.clk.(current := t.clk.current, drift := 0, burst := false)
    && (t.clk.current == s.clk.current || t.clk.current == s.clk.backup) && t.phase != Idle
  }

  function DoEnter(s: State, first: Option<Addr>, second: Option<Addr>): (t: State)
    requires TableOk(s.nbrs) && s.dequeued.Valid() && s.clk.current.Some?
    ensures OnlyEntry(s, t) && t.nbrs == TableAtEntry(s, first) && IrqFrame(s, t)
  {
    var t := TableAtEntry(s, first);
    var link := Executed(s.clk.current.value, s.clk.backup, first.Some?);
    var r := if SkipsBest(s.clk, first) then second else first;
    var p := if r.Some? && r.value in t then Ready(t[r.value], link) else None;
    var index := s.dequeued.PeekPut();
    s.(nbrs := t, inSlot := true, packet := p, nbr := r,
       clk := s.clk.(current := Some(link), drift := 0, burst := false),
       phase := if p.Some? then (if index.Some? then TxSlot(index.value) else SlotEnd)
                else if link.rx then RxSlot else SlotEnd)
  }

  /** The end of a Tx slot dereferences the current link, packet and neighbour. */
  predicate TxPointersLive(s: State) {
    s.clk.current.Some? && s.packet.Some? && s.packet.value in s.packets && s.nbr.Some? && s.nbr.value in s.nbrs
  }

  /** No installed link is meant: the link is null, or was freed. */
  ghost predicate Stale(s: State, l: Option<Link>) {
    l.Some? ==> l.value !in Links(s.sfs)
  }

  /** Which steps use a null or freed pointer. Rescheduling first refreshes the current link's
      backoff unless that is null; a slot without a packet looks at the backup link; a received
      frame is counted for the current link. */
  ghost predicate Faults(s: State, a: IrqAct) {
    match a
    case Skip(_) => s.clk.current.Some? && Stale(s, s.clk.current)
    case Enter(first, _) => Stale(s, s.clk.current) || (first == None && s.clk.backup.Some? && Stale(s, s.clk.backup))
    case TxEnd(_, _, _, _) => !TxPointersLive(s) || Stale(s, s.clk.current)
    case RxEnd(frame) => frame.Some? && Stale(s, s.clk.current)
    case End(_) => s.clk.current.Some? && Stale(s, s.clk.current)
  }

  /** What the end of a Tx slot may change. */
  predicate OnlyTx(s: State, t: State) {
    && t == s.(packets := t.packets, nbrs := t.nbrs, txStatus := t.txStatus, clk := t.clk, phase := t.phase,
               dequeued := t.dequeued, log := t.log, faulted := t.faulted)
    && t.clk == s.clk.(burst := t.clk.burst, drift := t.clk.drift)
    && t.log.corrections == s.log.corrections && t.phase != Idle
  }

  function DoTxEnd(m: Params, s: State, ok: bool, acked: bool, drift: int, random: nat): (t: State)
    requires m.Valid() && TableOk(s.nbrs) && s.dequeued.Valid() && s.phase.TxSlot? && TxPointersLive(s)
    ensures OnlyTx(s, t) && IrqFrame(s, t)
  {
    var link, p, n := s.clk.current.value, s.packet.value, s.nbr.value;
    var sent := s.packets[p].(transmissions := s.packets[p].transmissions + 1);
    var leaves := Leaves(sent, ok);
    var after := s.(
      packets := s.packets[p := sent],
      nbrs := s.nbrs[n := AfterSent(m.q, s.nbrs[n], s.locked, leaves, link.shared, ok, random)],
      txStatus := if link.sfHandle == 1 then (if ok then 1 else 2) else s.txStatus,
      clk := s.clk.(burst := s.clk.burst || acked, drift := drift),
      phase := SlotEnd);
    if !leaves then after
    else if s.phase.index >= |s.dequeued.slots| then s.(faulted := true)
    else after.(
      dequeued := s.dequeued.Write(s.phase.index, p).Commit(),
      log := s.log.(removed := s.log.removed[n := Of(s.log.removed, n) + [p]],
                    dequeued := s.log.dequeued + [p], place := s.log.place[p := InDequeued(s.dequeued.put)]))
  }

  function DoReschedule(m: Params, s: State, ps: seq<Pass>): (t: State)
    requires m.Valid() && TableOk(s.nbrs)
    ensures IrqFrame(s, t) && t.apt == s.apt
  {
    s.(clk := AdvanceAll(m.tm, s.clk, ps), nbrs := RefreshThrough(s.nbrs, s.locked, m.tm, s.clk, ps),
       inSlot := false, phase := Idle,
       log := s.log.(corrections := s.log.corrections + s.clk.drift + Compensations(ps)))
  }

  /** Addition in 8 bits. */
  function Add8(a: nat, n: nat): nat {
    (a + n) % 0x100
  }

  /** The APT table counts receptions per timeslot of slotframe 1, in 8 bits. */
  function Heard(apt: map<nat, nat>, link: Option<Link>): map<nat, nat> {
    if link.Some? && link.value.sfHandle == 1
    then apt[link.value.timeslot := Add8(Apt(apt, link.value.timeslot), 1)]
    else apt
  }

  /** The end of an Rx slot. A time source is looked up, and drift corrected, only if unlocked. */
  function DoRxEnd(s: State, frame: Option<Frame>): (t: State)
    ensures t == s.(phase := SlotEnd, apt := t.apt, clk := t.clk)
    ensures t.clk == s.clk.(burst := t.clk.burst, drift := t.clk.drift) && IrqFrame(s, t)
  {
    if frame == None then s.(phase := SlotEnd)
    else
      var f := frame.value;
      s.(phase := SlotEnd, apt := Heard(s.apt, s.clk.current),
         clk := s.clk.(burst := if f.pending.Some? then f.pending.value else s.clk.burst,
                       drift := if s.locked then s.clk.drift else f.drift))
  }

  ghost function IrqEffect(m: Params, s: State, a: IrqAct): (t: State)
    requires m.Valid() && TableOk(s.nbrs) && s.dequeued.Valid() && IrqEnabled(m, s, a)
    ensures IrqFrame(s, t) && (!a.RxEnd? ==> t.apt == s.apt)
  {
    match a
    case Skip(ps) => DoReschedule(m, s, ps)
    case Enter(first, second) => DoEnter(s, first, second)
    case TxEnd(ok, acked, drift, random) => if TxPointersLive(s) then DoTxEnd(m, s, ok, acked, drift, random) else s
    case RxEnd(frame) => DoRxEnd(s, frame)
    case End(ps) => DoReschedule(m, s, ps)
  }

  ghost function IrqStep(m: Params, s: State, a: IrqAct): (t: State)
    requires m.Valid() && TableOk(s.nbrs) && s.dequeued.Valid() && IrqEnabled(m, s, a)
    ensures IrqFrame(s, t) && (!a.RxEnd? ==> t.apt == s.apt)
  {
    var t := IrqEffect(m, s, a);
    t.(faulted := t.faulted || Faults(s, a))
  }

  // ---- Runs ----

  ghost function Next(m: Params, s: State, a: Act): State
    requires m.Valid()
  {
    if !Shape(s) then s.(faulted := true)
    else
      match a
      case Main(x) => if MainEnabled(s, x) then MainStep(m, s, x) else s
      case Irq(x) => if IrqEnabled(m, s, x) then IrqStep(m, s, x) else s
  }

  ghost function Exec(m: Params, s: State, acts: seq<Act>): State
    requires m.Valid()
    decreases |acts|
  {
    if acts == [] then s else Exec(m, Next(m, s, acts[0]), acts[1..])
  }

  /** The neighbour table before slot operation starts: empty queues, no backoff, and counters that
      mirror the schedule. */
  ghost predicate FreshTable(c: Config, sfs: seq<Slotframe>, t: Table)
    requires c.Valid()
  {
    && TableOk(t) && Mirrors(Links(sfs), t)
    && forall a | a in t :: t[a].ring == EmptyRing(c.ringSize, c.ringRoom) && t[a].backoff == BackoffReset(c)
  }

  /** The state once slot operation has been started after boot: nothing queued, no lock, and
      the clock as the start-up rounds `ps` left it, from ASN asn0 at time start0. */
  ghost predicate Init(m: Params, asn0: nat, start0: nat, ps: seq<Pass>, s: State) {
    && m.Valid() && start0 < m.tm.modulus
    && s.pc == Outside && !s.locked && !s.requested && !s.inSlot && s.phase == Idle
    && s.adding == NotAdding && s.removing == None && s.resetting == None && s.owed == None && s.apt == map[]
    && WellFormed(s.sfs) && FreshTable(m.q, s.sfs, s.nbrs)
    && s.packets == map[] && s.held == {} && s.dequeued.Valid() && s.dequeued.Contents() == []
    && (var k0 := Clock(asn0, start0, 0, false, 0, None, None);
        StartOk(s.sfs, s.nbrs, m.tm, k0, ps) && s.clk == Started(m.tm, k0, ps))
    && s.log == Log(map[], map[], [], [], map[], Compensations(ps)) && !s.faulted
  }
}
