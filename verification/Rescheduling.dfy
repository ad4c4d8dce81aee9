/** The end of a slot: the do-while loop that picks the next wake-up, once per missed
    deadline and then once more. One round of it is a Pass. */
module Rescheduling {
  import opened Types
  import opened Queue
  import opened Lookup
  import NumberTheory

  /** Slot-operation globals that the loop advances. `current` and `backup` are links,
      `drift` the correction of the slot just run. */
  datatype Clock = Clock(asn: nat, slotStart: nat, drift: int, burst: bool, burstCount: nat,
                         current: Option<Link>, backup: Option<Link>)

  /** Timeslot length and the modulus of the timer, in ticks. */
  datatype Timer = Timer(slotLength: nat, modulus: nat)

  /** What one round gets from outside: the lookup's result and the drift compensation. */
  datatype Pass = Pass(best: Option<Link>, offset: nat, backup: Option<Link>, compensation: int)

  function PacketCounts(t: Table): map<Addr, nat>
    requires TableOk(t)
  {
    map a | a in t :: t[a].ring.put - t[a].ring.get
  }

  predicate Bursting(k: Clock) {
    k.burst && k.current.Some?
  }

  function SlotsAhead(k: Clock, p: Pass): nat {
    if Bursting(k) || p.best == None then 1 else p.offset
  }

  /** The slot start moved by whole timeslots and by corrections, on the wrapping timer. */
  function SlotStartAt(tm: Timer, start: int, slots: int, corrections: int): (r: nat)
    requires tm.modulus > 0
    ensures r < tm.modulus
  {
    (start + slots * tm.slotLength + corrections) % tm.modulus
  }

  /** Two moves are one: the timer wraps at most modulo its width. */
  lemma SlotStartTwice(tm: Timer, start: int, a: int, x: int, b: int, y: int)
    requires tm.modulus > 0
    ensures SlotStartAt(tm, SlotStartAt(tm, start, a, x), b, y) == SlotStartAt(tm, start, a + b, x + y)
  {
    NumberTheory.ModAdd(start + a * tm.slotLength + x, b * tm.slotLength + y, tm.modulus);
    NumberTheory.Distribute(a, b, tm.slotLength);
  }

  lemma SlotStartStands(tm: Timer, start: int)
    requires 0 <= start < tm.modulus
    ensures SlotStartAt(tm, start, 0, 0) == start
  {
    NumberTheory.ModUnique(start, tm.modulus, 0, start);
  }

  function Advance(tm: Timer, k: Clock, p: Pass): Clock
    requires tm.modulus > 0
  {
    Clock(
      k.asn + SlotsAhead(k, p),
      SlotStartAt(tm, k.slotStart, SlotsAhead(k, p), k.drift + p.compensation),
      0,
      k.burst,
      if Bursting(k) then k.burstCount + 1 else if p.best.Some? then 0 else k.burstCount,
      if Bursting(k) then k.current else p.best,
      if Bursting(k) then None else p.backup)
  }

  /** A burst replays the current link without a lookup; a lookup returns what it promises. */
  ghost predicate PassOk(sfs: seq<Slotframe>, t: Table, locked: bool, k: Clock, p: Pass)
    requires TableOk(t)
  {
    || Bursting(k)
    || (locked && p.best == None && p.backup == None)
    || (!locked && NextLink(PacketCounts(t), Links(sfs), k.asn, p.best, p.offset, p.backup))
  }

  /** Each round first refreshes the backoff of the link that is current at that point. */
  function Refresh(t: Table, locked: bool, k: Clock): (u: Table)
    requires TableOk(t)
    ensures TableOk(u)
  {
    LinkTick(t, locked, k.current)
  }

  ghost predicate PassesOk(sfs: seq<Slotframe>, t: Table, locked: bool, tm: Timer, k: Clock, ps: seq<Pass>)
    requires TableOk(t) && tm.modulus > 0
    decreases |ps|
  {
    ps == [] ||
    (PassOk(sfs, Refresh(t, locked, k), locked, k, ps[0]) &&
     PassesOk(sfs, Refresh(t, locked, k), locked, tm, Advance(tm, k, ps[0]), ps[1..]))
  }

  function AdvanceAll(tm: Timer, k: Clock, ps: seq<Pass>): Clock
    requires tm.modulus > 0
    decreases |ps|
  {
    if ps == [] then k else AdvanceAll(tm, Advance(tm, k, ps[0]), ps[1..])
  }

  function RefreshThrough(t: Table, locked: bool, tm: Timer, k: Clock, ps: seq<Pass>): (u: Table)
    requires TableOk(t) && tm.modulus > 0
    ensures TableOk(u)
    decreases |ps|
  {
    if ps == [] then t else RefreshThrough(Refresh(t, locked, k), locked, tm, Advance(tm, k, ps[0]), ps[1..])
  }

  function Compensations(ps: seq<Pass>): int {
    if ps == [] then 0 else ps[0].compensation + Compensations(ps[1..])
  }

  /** Is the link due now, counted from where the burst began? */
  predicate Due(k: Clock, l: Link) {
    l.period > 0 && (k.asn - k.burstCount) % l.period == l.timeslot
  }

  /** The current link is due, and so is the backup link. */
  predicate Aligned(k: Clock) {
    (k.current.Some? ==> Due(k, k.current.value)) && (k.backup.Some? ==> Due(k, k.backup.value))
  }

  /** No slot that the rounds jump over holds a link of the schedule they consult. */
  ghost predicate JumpsNothing(sfs: seq<Slotframe>, tm: Timer, k: Clock, ps: seq<Pass>)
    requires tm.modulus > 0
    decreases |ps|
  {
    ps == [] ||
    ((forall l, t | l in Links(sfs) && k.asn < t < Advance(tm, k, ps[0]).asn :: !ActiveAt(l, t)) &&
     JumpsNothing(sfs, tm, Advance(tm, k, ps[0]), ps[1..]))
  }

  lemma {:induction false} PassesAlign(sfs: seq<Slotframe>, t: Table, locked: bool, tm: Timer, k: Clock, ps: seq<Pass>)
    requires TableOk(t) && tm.modulus > 0
    requires Aligned(k) && PassesOk(sfs, t, locked, tm, k, ps)
    ensures Aligned(AdvanceAll(tm, k, ps)) && JumpsNothing(sfs, tm, k, ps)
    ensures AdvanceAll(tm, k, ps).asn >= k.asn + |ps|
    decreases |ps|
  {
    if ps != [] {
      PassesAlign(sfs, Refresh(t, locked, k), locked, tm, Advance(tm, k, ps[0]), ps[1..]);
    }
  }

  /** However many deadlines are missed, the slot start moves by whole timeslots plus the
      drift correction, once, plus every round's compensation. */
  lemma {:induction false} PassesKeepTime(tm: Timer, k: Clock, ps: seq<Pass>)
    requires tm.modulus > 0 && 0 <= k.slotStart < tm.modulus
    ensures var k' := AdvanceAll(tm, k, ps);
      && (ps != [] ==> k'.drift == 0)
      && k'.slotStart ==
        SlotStartAt(tm, k.slotStart, k'.asn - k.asn, (if ps == [] then 0 else k.drift) + Compensations(ps))
    decreases |ps|
  {
    if ps == [] {
      SlotStartStands(tm, k.slotStart);
    } else {
      var k1 := Advance(tm, k, ps[0]);
      PassesKeepTime(tm, k1, ps[1..]);
      SlotStartTwice(tm, k.slotStart, k1.asn - k.asn, k.drift + ps[0].compensation,
        AdvanceAll(tm, k1, ps[1..]).asn - k1.asn, Compensations(ps[1..]));
    }
  }

  // ---- One more round at the end ----

  lemma {:induction false} PassAppended(sfs: seq<Slotframe>, t: Table, locked: bool, tm: Timer,
      k: Clock, ps: seq<Pass>, p: Pass)
    requires TableOk(t) && tm.modulus > 0 && PassesOk(sfs, t, locked, tm, k, ps)
    requires var u := Refresh(RefreshThrough(t, locked, tm, k, ps), locked, AdvanceAll(tm, k, ps));
      PassOk(sfs, u, locked, AdvanceAll(tm, k, ps), p)
    ensures PassesOk(sfs, t, locked, tm, k, ps + [p])
    ensures AdvanceAll(tm, k, ps + [p]) == Advance(tm, AdvanceAll(tm, k, ps), p)
    ensures RefreshThrough(t, locked, tm, k, ps + [p])
      == Refresh(RefreshThrough(t, locked, tm, k, ps), locked, AdvanceAll(tm, k, ps))
    decreases |ps|
  {
    if ps == [] {
      assert ([] + [p])[1..] == [];
    } else {
      assert (ps + [p])[0] == ps[0] && (ps + [p])[1..] == ps[1..] + [p];
      PassAppended(sfs, Refresh(t, locked, k), locked, tm, Advance(tm, k, ps[0]), ps[1..], p);
    }
  }

  // ---- Start-up ----

  /** One round of tsch_slot_operation_start: always a lookup, the burst state left as it was. */
  function StartRound(tm: Timer, k: Clock, p: Pass): Clock
    requires tm.modulus > 0
  {
    var slots := if p.best == None then 1 else p.offset;
    k.(asn := k.asn + slots, slotStart := SlotStartAt(tm, k.slotStart, slots, p.compensation),
       current := p.best, backup := p.backup)
  }

  function Started(tm: Timer, k: Clock, ps: seq<Pass>): Clock
    requires tm.modulus > 0
    decreases |ps|
  {
    if ps == [] then k else Started(tm, StartRound(tm, k, ps[0]), ps[1..])
  }

  ghost predicate StartOk(sfs: seq<Slotframe>, t: Table, tm: Timer, k: Clock, ps: seq<Pass>)
    requires TableOk(t) && tm.modulus > 0
    decreases |ps|
  {
    ps == [] ||
    (NextLink(PacketCounts(t), Links(sfs), k.asn, ps[0].best, ps[0].offset, ps[0].backup) &&
     StartOk(sfs, t, tm, StartRound(tm, k, ps[0]), ps[1..]))
  }

  /** After boot, with no burst behind it, start-up moves the clock as the slot loop does. */
  lemma {:induction false} StartedAtBoot(tm: Timer, k: Clock, ps: seq<Pass>)
    requires tm.modulus > 0 && !k.burst && k.burstCount == 0 && k.drift == 0
    ensures Started(tm, k, ps) == AdvanceAll(tm, k, ps)
    decreases |ps|
  {
    if ps != [] {
      StartedAtBoot(tm, StartRound(tm, k, ps[0]), ps[1..]);
    }
  }

  /** The clock right after a lookup over `links`: current and backup are what it promises. */
  ghost predicate LookedUp(links: set<Link>, k: Clock) {
    k.current.Some? ==>
      && k.current.value in links && ActiveAt(k.current.value, k.asn)
      && (k.backup.Some? ==> k.backup.value in links && k.backup.value.rx && ActiveAt(k.backup.value, k.asn))
      && forall l | l in links && l.rx && l != k.current.value && ActiveAt(l, k.asn) ::
           k.backup.Some? && k.backup.value.sfHandle <= l.sfHandle
  }

  lemma {:induction false} StartLooksUp(sfs: seq<Slotframe>, t: Table, tm: Timer, k: Clock, ps: seq<Pass>)
    requires TableOk(t) && tm.modulus > 0 && ps != [] && StartOk(sfs, t, tm, k, ps)
    ensures var s := Started(tm, k, ps);
      && LookedUp(Links(sfs), s) && (s.backup.Some? ==> s.current.Some?)
      && s.burst == k.burst && s.burstCount == k.burstCount
    decreases |ps|
  {
    var k1 := StartRound(tm, k, ps[0]);
    if |ps| > 1 {
      StartLooksUp(sfs, t, tm, k1, ps[1..]);
    } else {
      assert Started(tm, k1, ps[1..]) == k1;
    }
  }

  /** Start-up does not reset the burst count: the link it finds is due, as the slot loop counts,
      exactly when the count left over from before is a multiple of the link's slotframe size. */
  lemma RestartDueIff(sfs: seq<Slotframe>, t: Table, tm: Timer, k: Clock, ps: seq<Pass>)
    requires TableOk(t) && tm.modulus > 0 && ps != [] && StartOk(sfs, t, tm, k, ps)
    ensures var s := Started(tm, k, ps);
      s.current.Some? ==> var l := s.current.value; l.period > 0 && (Due(s, l) <==> k.burstCount % l.period == 0)
  {
    StartLooksUp(sfs, t, tm, k, ps);
    var s := Started(tm, k, ps);
    if s.current.Some? {
      BurstDueIff(s.current.value, s.asn, k.burstCount);
    }
  }

  lemma BurstDueIff(l: Link, asn: nat, count: nat)
    requires l.period > 0 && ActiveAt(l, asn)
    ensures (asn - count) % l.period == l.timeslot <==> count % l.period == 0
  {
    NumberTheory.ModEqual(asn, asn - count, l.period);
    NumberTheory.ModEqual(count, 0, l.period);
    NumberTheory.ModUnique(0, l.period, 0, 0);
  }

  /** A burst lasts for the whole rescheduling: every round replays the current link, one timeslot
      on, and none looks for a backup. */
  lemma {:induction false} BurstReplays(tm: Timer, k: Clock, ps: seq<Pass>)
    requires tm.modulus > 0 && k.burst && k.current.Some?
    ensures var k' := AdvanceAll(tm, k, ps);
      && k'.burst && k'.current == k.current && k'.asn == k.asn + |ps| && k'.burstCount == k.burstCount + |ps|
      && (ps != [] ==> k'.backup == None)
    decreases |ps|
  {
    if ps != [] {
      BurstReplays(tm, Advance(tm, k, ps[0]), ps[1..]);
    }
  }

  /** Packet counts are queue lengths. */
  lemma CountsAreLengths(t: Table, a: Addr)
    requires TableOk(t)
    ensures Queued(PacketCounts(t), a) == if a in t then |t[a].ring.Contents()| else 0
  {
  }

  function Length(t: Table, a: Addr): nat
    requires TableOk(t)
  {
    if a in t then |t[a].ring.Contents()| else 0
  }

  /** The link the clock points to has priority over every link of its slot: Tx before Rx, then the
      lowest slotframe handle, then, between Tx links of one slotframe, the longest queue. */
  ghost predicate Prior(links: set<Link>, t: Table, k: Clock)
    requires TableOk(t)
  {
    k.current.Some? ==> forall l | l in links && ActiveAt(l, k.asn) ::
      && (l.tx ==> k.current.value.tx)
      && (l.tx == k.current.value.tx ==> k.current.value.sfHandle <= l.sfHandle)
      && (l.tx && k.current.value.tx && l.sfHandle == k.current.value.sfHandle ==>
            Length(t, l.addr) <= Length(t, k.current.value.addr))
  }

  lemma LookupPrior(links: set<Link>, t: Table, k: Clock, p: Pass, tm: Timer)
    requires TableOk(t) && tm.modulus > 0 && !Bursting(k)
    requires NextLink(PacketCounts(t), links, k.asn, p.best, p.offset, p.backup)
    ensures Prior(links, t, Advance(tm, k, p))
  {
    if p.best.Some? {
      CountsAreLengths(t, p.best.value.addr);
      forall l | l in links && ActiveAt(l, k.asn + p.offset)
        ensures Queued(PacketCounts(t), l.addr) == Length(t, l.addr)
      {
        CountsAreLengths(t, l.addr);
      }
    }
  }

  /** Is the last of the rounds a lookup, and not the replay of a burst? */
  predicate LooksUpLast(tm: Timer, k: Clock, ps: seq<Pass>)
    requires tm.modulus > 0
    decreases |ps|
  {
    ps != [] && if |ps| == 1 then !Bursting(k) else LooksUpLast(tm, Advance(tm, k, ps[0]), ps[1..])
  }

  lemma {:induction false} PassesLookUp(sfs: seq<Slotframe>, t: Table, tm: Timer, k: Clock, ps: seq<Pass>)
    requires TableOk(t) && tm.modulus > 0 && LooksUpLast(tm, k, ps) && PassesOk(sfs, t, false, tm, k, ps)
    ensures LookedUp(Links(sfs), AdvanceAll(tm, k, ps))
    decreases |ps|
  {
    var k1 := Advance(tm, k, ps[0]);
    if |ps| > 1 {
      PassesLookUp(sfs, Refresh(t, false, k), tm, k1, ps[1..]);
    } else {
      assert AdvanceAll(tm, k1, ps[1..]) == k1;
    }
  }

  lemma RefreshKeepsLengths(links: set<Link>, t: Table, locked: bool, k: Clock, k': Clock)
    requires TableOk(t)
    ensures Prior(links, Refresh(t, locked, k), k') ==> Prior(links, t, k')
  {
    forall a ensures Length(Refresh(t, locked, k), a) == Length(t, a) {}
  }

  lemma {:induction false} PassesPrior(sfs: seq<Slotframe>, t: Table, tm: Timer, k: Clock, ps: seq<Pass>)
    requires TableOk(t) && tm.modulus > 0 && LooksUpLast(tm, k, ps) && PassesOk(sfs, t, false, tm, k, ps)
    ensures Prior(Links(sfs), t, AdvanceAll(tm, k, ps))
    decreases |ps|
  {
    var k1 := Advance(tm, k, ps[0]);
    if |ps| > 1 {
      PassesPrior(sfs, Refresh(t, false, k), tm, k1, ps[1..]);
    } else {
      assert AdvanceAll(tm, k1, ps[1..]) == k1;
      LookupPrior(Links(sfs), Refresh(t, false, k), k, ps[0], tm);
    }
    RefreshKeepsLengths(Links(sfs), t, false, k, AdvanceAll(tm, k, ps));
  }
}
