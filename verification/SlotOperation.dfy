/** Slot operation as the source runs it: entering a slot, and the loop that schedules the
    next wake-up; with the timing and channel-hopping arithmetic. */
module SlotOperations {
  import opened Types
  import opened Rings
  import opened Queue
  import opened Lookup
  import opened Rescheduling
  import opened TschQueues
  import opened TschSchedules
  import SlotMachine
  import NumberTheory

  class SlotOperation {
    const tm: Timer
    const g: Globals
    const queue: TschQueue
    const schedule: TschSchedule
    var asn: nat
    var slotStart: nat
    var driftCorrection: int
    var burstLinkScheduled: bool
    var burstCount: nat
    var backupLink: Option<Link>

    ghost predicate Valid()
      reads this, queue, schedule
    {
      tm.modulus > 0 && queue.Valid() && queue.g == g && WellFormed(schedule.slotframes)
    }

    constructor (tm: Timer, schedule: TschSchedule, asn: nat, start: nat)
      requires tm.modulus > 0 && schedule.Valid()
      ensures Valid() && g == schedule.g && queue == schedule.queue && this.schedule == schedule && this.tm == tm
      ensures Now() == Clock(asn, start, 0, false, 0, g.currentLink, None)
    {
      this.tm, this.schedule, this.queue, this.g := tm, schedule, schedule.queue, schedule.queue.g;
      this.asn, slotStart, driftCorrection, burstLinkScheduled, burstCount, backupLink := asn, start, 0, false, 0, None;
    }

    function Now(): Clock
      reads this, g
    {
      Clock(asn, slotStart, driftCorrection, burstLinkScheduled, burstCount, g.currentLink, backupLink)
    }

    /** Replays the current link in a burst, and looks up the next one otherwise. */
    method PickNext(compensation: int) returns (timeslotDiff: nat, ghost p: Pass)
      requires Valid()
      modifies `burstCount, `backupLink, g`currentLink
      ensures p.compensation == compensation && PassOk(schedule.slotframes, queue.nbrs, g.locked, old(Now()), p)
      ensures timeslotDiff == SlotsAhead(old(Now()), p)
      ensures var k, k' := old(Now()), Advance(tm, old(Now()), p);
        Now() == k.(burstCount := k'.burstCount, current := k'.current, backup := k'.backup)
    {
      if burstLinkScheduled && g.currentLink.Some? {
        timeslotDiff := 1;
        backupLink := None;
        burstCount := burstCount + 1;
        p := Pass(None, 0, None, compensation);
      } else {
        var best, offset, backup :=
          GetNextActiveLink(schedule.slotframes, g.locked, PacketCounts(queue.nbrs), asn);
        p := Pass(best, offset, backup, compensation);
        g.currentLink, timeslotDiff, backupLink := best, offset, backup;
        if best == None {
          timeslotDiff := 1;
        } else {
          burstCount := 0;
        }
      }
    }

    /** Moves the slot start, each sum wrapped to the timer's width. */
    method MoveSlotStart(timeslotDiff: nat, compensation: int)
      requires tm.modulus > 0
      modifies `slotStart, `driftCorrection
      ensures driftCorrection == 0
      ensures slotStart == SlotStartAt(tm, old(slotStart), timeslotDiff, old(driftCorrection) + compensation)
    {
      var timeToNext := (timeslotDiff * tm.slotLength + driftCorrection) % tm.modulus;
      NumberTheory.ModAdd(timeslotDiff * tm.slotLength + driftCorrection, compensation, tm.modulus);
      timeToNext := (timeToNext + compensation) % tm.modulus;
      NumberTheory.ModAdd(timeslotDiff * tm.slotLength + driftCorrection + compensation, slotStart, tm.modulus);
      NumberTheory.ModRange(timeToNext + slotStart, tm.modulus);
      slotStart, driftCorrection := (slotStart + timeToNext) % tm.modulus, 0;
    }

    /** One round of the rescheduling loop. */
    method Round(compensation: int) returns (ghost p: Pass)
      requires Valid()
      modifies `asn, `slotStart, `driftCorrection, `burstCount, `backupLink, g`currentLink, queue`nbrs
      ensures Valid() && p.compensation == compensation
      ensures queue.nbrs == Refresh(old(queue.nbrs), g.locked, old(Now()))
      ensures PassOk(schedule.slotframes, queue.nbrs, g.locked, old(Now()), p)
      ensures Now() == Advance(tm, old(Now()), p)
    {
      queue.UpdateLinkBackoff(g.currentLink);
      var timeslotDiff;
      timeslotDiff, p := PickNext(compensation);
      asn := asn + timeslotDiff;
      MoveSlotStart(timeslotDiff, compensation);
    }

    /** The state is what the rounds `ps` make of clock k and table t. */
    ghost predicate ReachedBy(k: Clock, t: Table, ps: seq<Pass>)
      reads this, g, queue, schedule
    {
      && Valid() && TableOk(t)
      && PassesOk(schedule.slotframes, t, g.locked, tm, k, ps)
      && Now() == AdvanceAll(tm, k, ps) && queue.nbrs == RefreshThrough(t, g.locked, tm, k, ps)
    }

    method NextRound(ghost k: Clock, ghost t: Table, ghost ps: seq<Pass>, compensation: int) returns (ghost p: Pass)
      requires ReachedBy(k, t, ps)
      modifies `asn, `slotStart, `driftCorrection, `burstCount, `backupLink, g`currentLink, queue`nbrs
      ensures p.compensation == compensation && ReachedBy(k, t, ps + [p])
    {
      p := Round(compensation);
      PassAppended(schedule.slotframes, t, g.locked, tm, k, ps, p);
    }

    /** The do-while loop at the end of a slot: one round per missed deadline, and one more.
        `compensations` holds the drift compensation of each round. */
    method Reschedule(compensations: seq<int>) returns (ghost ps: seq<Pass>)
      requires Valid() && compensations != []
      modifies `asn, `slotStart, `driftCorrection, `burstCount, `backupLink, g`currentLink, queue`nbrs
      ensures |ps| == |compensations| && forall i | 0 <= i < |ps| :: ps[i].compensation == compensations[i]
      ensures ReachedBy(old(Now()), old(queue.nbrs), ps)
      ensures old(Aligned(Now())) ==> Aligned(Now()) && JumpsNothing(schedule.slotframes, tm, old(Now()), ps)
    {
      ghost var k, t := Now(), queue.nbrs;
      ps := Rounds(compensations);
      if Aligned(k) {
        PassesAlign(schedule.slotframes, t, g.locked, tm, k, ps);
      }
    }

    method Rounds(compensations: seq<int>) returns (ghost ps: seq<Pass>)
      requires Valid()
      modifies `asn, `slotStart, `driftCorrection, `burstCount, `backupLink, g`currentLink, queue`nbrs
      ensures |ps| == |compensations| && forall i | 0 <= i < |ps| :: ps[i].compensation == compensations[i]
      ensures ReachedBy(old(Now()), old(queue.nbrs), ps)
    {
      ghost var k, t := Now(), queue.nbrs;
      ps := [];
      var i := 0;
      while i < |compensations|
        invariant 0 <= i <= |compensations| && |ps| == i
        invariant forall j | 0 <= j < i :: ps[j].compensation == compensations[j]
        invariant ReachedBy(k, t, ps)
      {
        ghost var p := NextRound(k, t, ps, compensations[i]);
        ps := ps + [p];
        i := i + 1;
      }
    }

    /** The choice at the start of a slot: the best link's packet, or the backup link. */
    method EnterSlot() returns (p: Option<Pid>, n: Option<Addr>, ghost first: Option<Addr>)
      requires Valid() && g.currentLink.Some?
      modifies `driftCorrection, `burstLinkScheduled, g`currentLink, queue`nbrs
      ensures Valid() && Selects(old(queue.nbrs), g.locked, old(g.currentLink).value, first)
      ensures g.currentLink == Some(Executed(old(g.currentLink).value, backupLink, first.Some?))
      ensures driftCorrection == 0 && !burstLinkScheduled
      ensures queue.nbrs == if SlotMachine.SkipsBest(old(Now()), first)
                            then LinkTick(old(queue.nbrs), g.locked, old(g.currentLink)) else old(queue.nbrs)
      ensures Selects(queue.nbrs, g.locked, g.currentLink.value, if p.Some? then n else None)
      ensures p.Some? ==> n.Some? && n.value in queue.nbrs && p == Ready(queue.nbrs[n.value], g.currentLink.value)
    {
      driftCorrection := 0;
      p, n := queue.GetPacketAndNeighborForLink(g.currentLink.value);
      first := if p.Some? then n else None;
      var skipBestLink := false;
      if p == None && backupLink.Some? {
        if !g.currentLink.value.rx || backupLink.value.sfHandle < g.currentLink.value.sfHandle {
          skipBestLink := true;
        }
      }
      if skipBestLink {
        queue.UpdateLinkBackoff(g.currentLink);
        g.currentLink := backupLink;
        p, n := queue.GetPacketAndNeighborForLink(g.currentLink.value);
      }
      burstLinkScheduled := false;
    }
  }

  // ---- Timer ----

  /** Has `now` reached ref + offset, on a timer of the given modulus? */
  predicate CheckTimerMiss(ref: nat, offset: nat, now: nat, modulus: nat)
    requires modulus > 0
  {
    var target := (ref + offset) % modulus;
    var nowHasOverflowed := now < ref;
    var targetHasOverflowed := target < ref;
    if nowHasOverflowed == targetHasOverflowed then target <= now else nowHasOverflowed
  }

  /** The two-flag test measures elapsed time modulo the timer width. */
  lemma TimerMissIsElapsedTime(ref: nat, offset: nat, now: nat, modulus: nat)
    requires ref < modulus && offset < modulus && now < modulus
    ensures CheckTimerMiss(ref, offset, now, modulus) <==> (now - ref) % modulus >= offset
  {
    WrapsOnce(ref, offset, modulus);
    var wraps := now < ref;
    NumberTheory.ModUnique(now - ref, modulus, if wraps then -1 else 0, now - ref + if wraps then modulus else 0);
  }

  // ---- Channel hopping ----

  /** Index into a hopping sequence of the given length. */
  function ChannelIndex(asn: nat, channelOffset: nat, length: nat): nat
    requires length > 0
  {
    (asn % length + channelOffset) % length
  }

  /** In range; and at one ASN, two offsets share an index just when they agree modulo the length. */
  lemma OffsetsSeparateChannels(asn: nat, a: nat, b: nat, length: nat)
    requires length > 0
    ensures ChannelIndex(asn, a, length) == (asn + a) % length < length
    ensures ChannelIndex(asn, a, length) == ChannelIndex(asn, b, length) <==> a % length == b % length
  {
    NumberTheory.ModAdd(asn, a, length);
    NumberTheory.ModAdd(asn, b, length);
    NumberTheory.ModEqual(asn + a, asn + b, length);
    NumberTheory.ModEqual(a, b, length);
  }

  /** The offset a slot really uses: link offsets have 16 bits, the function returning them 8. */
  function ChannelOffset(l: Link): nat {
    l.channelOffset % 0x100
  }

  lemma EveryIndexOnce(l: Link, asn: nat, offset: nat, length: nat, index: nat) returns (k: nat)
    requires length > 0 && ActiveAt(l, asn) && NumberTheory.Coprime(length, l.period) && index < length
    ensures k < length && ActiveAt(l, asn + k * l.period)
    ensures ChannelIndex(asn + k * l.period, offset, length) == index
    ensures forall j: nat | j < length && ChannelIndex(asn + j * l.period, offset, length) == index :: j == k
  {
    k := NumberTheory.OrbitVisitsAll(length, l.period, asn + offset, index);
    StillActive(l, asn, k);
    forall j: nat | j < length
      ensures ChannelIndex(asn + j * l.period, offset, length)
        == NumberTheory.Residue(length, l.period, asn + offset, j)
    {
      IndexIsResidue(asn, j, l.period, offset, length);
    }
  }

  lemma StillActive(l: Link, asn: nat, k: nat)
    requires ActiveAt(l, asn)
    ensures ActiveAt(l, asn + k * l.period)
  {
    NumberTheory.SamePhase(asn, k, l.period);
  }

  lemma IndexIsResidue(asn: nat, j: nat, period: nat, offset: nat, length: nat)
    requires length > 0
    ensures ChannelIndex(asn + j * period, offset, length) == NumberTheory.Residue(length, period, asn + offset, j)
  {
    NumberTheory.ModAdd(asn + j * period, offset, length);
  }

  /** Slotframe size and sequence length coprime: over `length` consecutive occurrences of a
      link, the offset its slots use takes each index exactly once. */
  lemma EveryChannelOnce(l: Link, asn: nat, length: nat, index: nat) returns (k: nat)
    requires length > 0 && ActiveAt(l, asn) && NumberTheory.Coprime(length, l.period) && index < length
    ensures k < length && ActiveAt(l, asn + k * l.period)
    ensures ChannelIndex(asn + k * l.period, ChannelOffset(l), length) == index
    ensures forall j: nat | j < length && ChannelIndex(asn + j * l.period, ChannelOffset(l), length) == index :: j == k
  {
    k := EveryIndexOnce(l, asn, ChannelOffset(l), length, index);
  }

  lemma Multiples(a: nat, d: nat, n: nat)
    requires n > 0
    ensures a % n == (a + d) % n <==> NumberTheory.Divides(n, d)
  {
    NumberTheory.ModEqual(a + d, a, n);
  }

  /** Hence the scheduled offset is honoured exactly when its high byte does not matter. */
  lemma ScheduledOffsetHonoured(l: Link, asn: nat, length: nat)
    requires length > 0
    ensures ChannelIndex(asn, ChannelOffset(l), length) == (asn + l.channelOffset) % length
      <==> NumberTheory.Divides(length, l.channelOffset / 0x100 * 0x100)
  {
    var low, high := ChannelOffset(l), l.channelOffset / 0x100 * 0x100;
    NumberTheory.ModAdd(asn, low, length);
    Multiples(asn + low, high, length);
  }

  /** It is not for offset 256 and three channels. */
  lemma OffsetTruncated()
    ensures var l := Link(0, 0, true, false, true, Normal, Broadcast, 0, 7, 0, 0x100);
      ChannelIndex(0, ChannelOffset(l), 3) == 0 && (0 + l.channelOffset) % 3 == 1
  {
  }
}
