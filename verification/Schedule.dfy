/** The schedule manager: slotframes and links in fixed pools, kept in step with the
    neighbour counters and the current link. */
module TschSchedules {
  import opened Types
  import opened Rings
  import opened Queue
  import opened Store
  import opened TschQueues
  import Lookup

  /** Options and place asked for a new link; no address means the null address. */
  datatype Request = Request(tx: bool, rx: bool, shared: bool, kind: LinkType, addr: Option<Addr>,
                             timeslot: nat, channelOffset: nat)

  /** What adding and removing links change: slotframes, free link cells, the current link, and
      the number of links ever added. */
  datatype Snapshot = Snapshot(sfs: seq<Slotframe>, freeLinks: set<nat>, current: Option<Link>, linkCount: nat)

  function Cells(links: set<Link>): set<nat> {
    set l | l in links :: l.cell
  }

  lemma MinusTwice(a: set<Link>, b: set<Link>, c: set<Link>)
    ensures a - b - c == a - (b + c)
  {
  }

  lemma OneCell(l: Link)
    ensures Cells({l}) == {l.cell}
  {
  }

  /** The state once `gone`, links of slotframe h, are unlinked and freed. */
  function Removed(s: Snapshot, h: nat, gone: set<Link>): Snapshot {
    Snapshot(Cut(s.sfs, h, gone), s.freeLinks + Cells(gone),
             Unless(s.current, gone), s.linkCount)
  }

  /** The current link, if there is one, is installed. */
  predicate CurrentIn(s: Snapshot) {
    s.current.Some? ==> s.current.value in Links(s.sfs)
  }

  /** Removing links never leaves the current link behind: it is cleared just when it goes. */
  lemma RemovedCurrent(s: Snapshot, h: nat, gone: set<Link>)
    requires Links(Cut(s.sfs, h, gone)) == Links(s.sfs) - gone
    ensures CurrentIn(s) ==> CurrentIn(Removed(s, h, gone))
    ensures Removed(s, h, gone).current ==
      if exists l :: l in gone && s.current == Some(l) then None else s.current
  {
  }

  /** The link, unless it is one of those. */
  function Unless(l: Option<Link>, gone: set<Link>): Option<Link> {
    if l.Some? && l.value in gone then None else l
  }

  lemma RemovedTwice(s: Snapshot, h: nat, a: set<Link>, b: set<Link>)
    ensures Removed(Removed(s, h, a), h, b) == Removed(s, h, a + b)
  {
    CutTwice(s.sfs, h, a, b);
  }

  lemma RemovedNone(s: Snapshot, h: nat)
    ensures Removed(s, h, {}) == s && Links(s.sfs) - {} == Links(s.sfs)
  {
    CutNone(s.sfs, h);
  }

  class TschSchedule {
    const g: Globals
    const queue: TschQueue
    const nullAddr: Addr
    const linkPool: nat
    const sfPool: nat
    var slotframes: seq<Slotframe>
    var freeLinks: set<nat>
    var freeSlotframes: set<nat>
    var linkCount: nat

    ghost predicate Valid()
      reads this, queue
    {
      queue.Valid() && queue.g == g && StoreOk(slotframes, freeLinks, freeSlotframes, linkPool, sfPool)
    }

    function Now(): Snapshot
      reads this, g
    {
      Snapshot(slotframes, freeLinks, g.currentLink, linkCount)
    }

    predicate CurrentInstalled()
      reads this, g
    {
      g.currentLink.Some? ==> g.currentLink.value in Links(slotframes)
    }

    ghost predicate Mirrored()
      reads this, queue
    {
      Mirrors(Links(slotframes), queue.nbrs)
    }

    constructor (queue: TschQueue, nullAddr: Addr, links: set<nat>, sfs: set<nat>)
      requires queue.Valid()
      ensures Valid() && this.queue == queue && g == queue.g && this.nullAddr == nullAddr
      ensures slotframes == [] && freeLinks == links && freeSlotframes == sfs
    {
      this.queue, this.g, this.nullAddr := queue, queue.g, nullAddr;
      linkPool, sfPool := |links|, |sfs|;
      slotframes, freeLinks, freeSlotframes, linkCount := [], links, sfs, 0;
      new;
      assert Links(slotframes) == {};
    }

    /** Walks the slotframe list; nothing is found while TSCH is locked. */
    method GetSlotframeByHandle(handle: nat) returns (i: Option<nat>)
      ensures i == None <==> g.locked || !Has(slotframes, handle)
      ensures i.Some? ==> i.value < |slotframes| && slotframes[i.value].handle == handle
    {
      i := None;
      if !g.locked {
        var k := 0;
        while k < |slotframes|
          invariant 0 <= k <= |slotframes|
          invariant forall j | 0 <= j < k :: slotframes[j].handle != handle
        {
          if slotframes[k].handle == handle {
            return Some(k);
          }
          k := k + 1;
        }
      }
    }

    method AddSlotframe(handle: nat, size: nat) returns (added: bool)
      requires Valid() && size < 0x1_0000
      modifies `slotframes, `freeSlotframes, g`locked
      ensures Valid() && g.locked == old(g.locked)
      ensures added <==> size != 0 && !g.locked && !Has(old(slotframes), handle) && old(freeSlotframes) != {}
      ensures !added ==> slotframes == old(slotframes) && freeSlotframes == old(freeSlotframes)
      ensures added ==> (exists cell ::
        && cell in old(freeSlotframes) && freeSlotframes == old(freeSlotframes) - {cell}
        && slotframes == old(slotframes) + [Slotframe(cell, handle, size, [])])
      ensures Links(slotframes) == Links(old(slotframes))
    {
      added := false;
      if size == 0 {
        return;
      }
      var known := GetSlotframeByHandle(handle);
      if known.Some? {
        return;
      }
      var ok := g.GetLock();
      if ok {
        if freeSlotframes != {} {
          var cell :| cell in freeSlotframes;
          NewFrameKeepsStore(slotframes, freeSlotframes, sfPool, Slotframe(cell, handle, size, []));
          freeSlotframes := freeSlotframes - {cell};
          slotframes := slotframes + [Slotframe(cell, handle, size, [])];
          added := true;
        }
        g.ReleaseLock();
      }
    }

    /** Updates the counters of the link's neighbour by one Tx link. */
    method Count(l: Link, delta: int)
      requires Valid() && l.tx && l.addr in queue.nbrs
      modifies queue`nbrs
      ensures Valid() && CountsOnly(old(queue.nbrs), queue.nbrs) && queue.nbrs == Recount(old(queue.nbrs), l, delta)
    {
      queue.SetNbr(l.addr, Counted(queue.nbrs[l.addr], delta, !l.shared));
      IsRecount(old(queue.nbrs), queue.nbrs, l, delta);
    }

    /** The part of tsch_schedule_remove_link inside the lock. */
    method Unlink(l: Link)
      requires Valid() && l in Links(slotframes)
      modifies `slotframes, `freeLinks, g`currentLink
      ensures Valid() && Now() == Removed(old(Now()), l.sfHandle, {l})
      ensures Links(slotframes) == Links(old(slotframes)) - {l}
      ensures g.currentLink == if old(g.currentLink) == Some(l) then None else old(g.currentLink)
    {
      if g.currentLink == Some(l) {
        g.currentLink := None;
      }
      Free(l);
      OneCell(l);
    }

    method Free(l: Link)
      requires Valid() && l in Links(slotframes)
      modifies `slotframes, `freeLinks
      ensures Valid() && Links(slotframes) == Links(old(slotframes)) - {l}
      ensures slotframes == Cut(old(slotframes), l.sfHandle, {l}) && freeLinks == old(freeLinks) + {l.cell}
    {
      CutKeepsStore(slotframes, freeLinks, freeSlotframes, linkPool, sfPool, l);
      slotframes := Cut(slotframes, l.sfHandle, {l});
      freeLinks := freeLinks + {l.cell};
    }

    method RemoveLink(sf: Option<nat>, l: Option<Link>) returns (ok: bool)
      requires Valid() && (l.Some? ==> l.value in Links(slotframes))
      modifies `slotframes, `freeLinks, g, queue`nbrs
      ensures Valid() && g.locked == old(g.locked)
      ensures ok <==> sf.Some? && l.Some? && l.value.sfHandle == sf.value && !g.locked
      ensures !ok ==> Now() == old(Now()) && queue.nbrs == old(queue.nbrs)
      ensures ok ==> Now() == Removed(old(Now()), sf.value, {l.value})
      ensures ok ==> queue.nbrs == Recount(old(queue.nbrs), l.value, -1)
      ensures ok ==> Links(slotframes) == Links(old(slotframes)) - {l.value}
      ensures g.currentLink == if ok && old(g.currentLink) == l then None else old(g.currentLink)
      ensures old(CurrentInstalled()) ==> CurrentInstalled()
      ensures CountsOnly(old(queue.nbrs), queue.nbrs)
      ensures old(Mirrored()) ==> Mirrored()
    {
      ok := false;
      if sf.Some? && l.Some? && l.value.sfHandle == sf.value {
        ok := UnlinkLocked(l.value);
        if ok {
          Uncount(l.value, Links(old(slotframes)));
        }
      }
    }

    /** The lock taken, the link unlinked, the lock released. */
    method UnlinkLocked(l: Link) returns (ok: bool)
      requires Valid() && l in Links(slotframes)
      modifies `slotframes, `freeLinks, g
      ensures Valid() && g.locked == old(g.locked) && ok == !g.locked
      ensures !ok ==> Now() == old(Now())
      ensures ok ==> Now() == Removed(old(Now()), l.sfHandle, {l}) && Links(slotframes) == Links(old(slotframes)) - {l}
      ensures g.currentLink == if ok && old(g.currentLink) == Some(l) then None else old(g.currentLink)
    {
      ok := g.GetLock();
      if ok {
        Unlink(l);
        g.ReleaseLock();
      }
    }

    /** The neighbour of a link removed from `links` counts one less. */
    method Uncount(l: Link, ghost links: set<Link>)
      requires Valid() && !g.locked && l in links && Links(slotframes) == links - {l}
      modifies queue`nbrs
      ensures Valid() && queue.nbrs == Recount(old(queue.nbrs), l, -1) && CountsOnly(old(queue.nbrs), queue.nbrs)
      ensures Mirrors(links, old(queue.nbrs)) ==> Mirrored()
    {
      ghost var t := queue.nbrs;
      if l.tx {
        var known := queue.GetNbr(l.addr);
        if known {
          Count(l, -1);
        }
      }
      if Mirrors(links, t) {
        MirrorsRemove(links, t, l);
      }
    }

    /** One more removal on top of those since `start`. */
    method RemoveNext(ghost start: Snapshot, ghost gone: set<Link>, h: nat, l: Link)
      requires Valid() && !g.locked && l in Links(slotframes) && l.sfHandle == h && l !in gone
      requires Now() == Removed(start, h, gone) && Links(slotframes) == Links(start.sfs) - gone
      modifies `slotframes, `freeLinks, g, queue`nbrs
      ensures Valid() && !g.locked && CountsOnly(old(queue.nbrs), queue.nbrs)
      ensures Now() == Removed(start, h, gone + {l}) && Links(slotframes) == Links(start.sfs) - (gone + {l})
      ensures old(Mirrored()) ==> Mirrored()
    {
      RemovedTwice(start, h, gone, {l});
      MinusTwice(Links(start.sfs), gone, {l});
      var ok := RemoveLink(Some(h), Some(l));
    }

    /** Removes every link of the slotframe at this timeslot and channel offset. */
    method RemoveLinkByTimeslot(sf: Option<nat>, timeslot: nat, channelOffset: nat) returns (any: bool)
      requires Valid() && (sf.Some? ==> Has(slotframes, sf.value))
      modifies `slotframes, `freeLinks, g, queue`nbrs
      ensures Valid() && g.locked == old(g.locked) && CountsOnly(old(queue.nbrs), queue.nbrs)
      ensures sf == None || g.locked ==> Now() == old(Now()) && queue.nbrs == old(queue.nbrs) && !any
      ensures sf.Some? && !g.locked ==>
        var gone := AtSlot(Links(old(slotframes)), sf.value, timeslot, channelOffset);
        && Now() == Removed(old(Now()), sf.value, gone) && any == (gone != {})
        && Links(slotframes) == Links(old(slotframes)) - gone
      ensures sf.Some? && !g.locked ==> forall l | l in Links(old(slotframes)) ::
        l in Links(slotframes) <==> l.sfHandle != sf.value || l.timeslot != timeslot || l.channelOffset != channelOffset
      ensures old(CurrentInstalled()) ==> CurrentInstalled()
      ensures old(Mirrored()) ==> Mirrored()
    {
      any := false;
      if !g.locked && sf.Some? {
        var i :| 0 <= i < |slotframes| && slotframes[i].handle == sf.value;
        any := RemoveMatching(i, sf.value, timeslot, channelOffset);
      }
    }

    /** The loop over the links of slotframe i. */
    method RemoveMatching(i: nat, h: nat, timeslot: nat, channelOffset: nat) returns (any: bool)
      requires Valid() && !g.locked && i < |slotframes| && slotframes[i].handle == h
      modifies `slotframes, `freeLinks, g, queue`nbrs
      ensures Valid() && !g.locked && CountsOnly(old(queue.nbrs), queue.nbrs) && (old(Mirrored()) ==> Mirrored())
      ensures var gone := AtSlot(Links(old(slotframes)), h, timeslot, channelOffset);
        && Now() == Removed(old(Now()), h, gone) && any == (gone != {})
        && Links(slotframes) == Links(old(slotframes)) - gone
    {
      any := false;
      var links := slotframes[i].links;
      ghost var start := Now();
      RemovedNone(start, h);
      AtOffsetEnds(links, timeslot, channelOffset);
      var k := 0;
      while k < |links|
        invariant 0 <= k <= |links| && Valid() && !g.locked
        invariant any == (AtOffset(links[..k], timeslot, channelOffset) != {})
        invariant Gone(start, h, AtOffset(links[..k], timeslot, channelOffset))
        invariant CountsOnly(old(queue.nbrs), queue.nbrs) && (old(Mirrored()) ==> Mirrored())
      {
        ghost var gone := AtOffset(links[..k], timeslot, channelOffset);
        AtOffsetNext(links, k, timeslot, channelOffset);
        ListedOnce(start.sfs, i, k);
        var hit := RemoveIfAt(start, gone, h, links[k], timeslot, channelOffset);
        any := any || hit;
        k := k + 1;
      }
      AtSlotListed(start.sfs, i, timeslot, channelOffset);
    }

    /** Since `start`, exactly `gone` has been removed from slotframe h. */
    ghost predicate Gone(start: Snapshot, h: nat, gone: set<Link>)
      reads this, g
    {
      Now() == Removed(start, h, gone) && Links(slotframes) == Links(start.sfs) - gone
    }

    /** One round of that loop. */
    method RemoveIfAt(ghost start: Snapshot, ghost gone: set<Link>, h: nat, l: Link, timeslot: nat, channelOffset: nat)
      returns (hit: bool)
      requires Valid() && !g.locked && Gone(start, h, gone) && l in Links(start.sfs) && l.sfHandle == h && l !in gone
      modifies `slotframes, `freeLinks, g, queue`nbrs
      ensures Valid() && !g.locked && CountsOnly(old(queue.nbrs), queue.nbrs) && (old(Mirrored()) ==> Mirrored())
      ensures hit == (l.timeslot == timeslot && l.channelOffset == channelOffset)
      ensures Gone(start, h, if hit then gone + {l} else gone)
    {
      hit := l.timeslot == timeslot && l.channelOffset == channelOffset;
      if hit {
        RemoveNext(start, gone, h, l);
      }
    }

    method Install(l: Link, ghost i: nat)
      requires Valid() && i < |slotframes| && l.cell in freeLinks
      requires l.sfHandle == slotframes[i].handle && l.period == slotframes[i].size && l.timeslot < l.period
      modifies `slotframes, `freeLinks, `linkCount
      ensures Valid() && Now() == Added(old(Now()), l.sfHandle, l)
      ensures Links(slotframes) == Links(old(slotframes)) + {l} && l !in Links(old(slotframes))
    {
      linkCount := linkCount + 1;
      Place(l, i);
    }

    method Place(l: Link, ghost i: nat)
      requires Valid() && i < |slotframes| && l.cell in freeLinks
      requires l.sfHandle == slotframes[i].handle && l.period == slotframes[i].size && l.timeslot < l.period
      modifies `slotframes, `freeLinks
      ensures Valid() && Now() == Added(old(Now()), l.sfHandle, l).(linkCount := linkCount)
      ensures Links(slotframes) == Links(old(slotframes)) + {l} && l !in Links(old(slotframes))
    {
      AppendKeepsStore(slotframes, freeLinks, freeSlotframes, linkPool, sfPool, i, l);
      slotframes := Append(slotframes, l.sfHandle, l);
      freeLinks := freeLinks - {l.cell};
    }

    /** The part of tsch_schedule_add_link inside the lock: a link from the pool, at the end
        of the slotframe's list. */
    method LinkIn(sf: nat, req: Request) returns (r: Option<Link>)
      requires Valid() && InFrame(slotframes, sf, req.timeslot)
      modifies `slotframes, `freeLinks, `linkCount
      ensures Valid() && NewOutcome(old(Now()), Now(), sf, req, nullAddr, r)
    {
      r := None;
      if freeLinks != {} {
        var i :| 0 <= i < |slotframes| && slotframes[i].handle == sf && req.timeslot < slotframes[i].size;
        var cell :| cell in freeLinks;
        var l := Link(cell, Lookup.Uint16(linkCount), req.tx, req.rx, req.shared, req.kind,
                      if req.addr.Some? then req.addr.value else nullAddr,
                      sf, slotframes[i].size, req.timeslot, req.channelOffset);
        Install(l, i);
        r := Some(l);
      }
    }

    /** That part with the lock taken and released. */
    method LinkLocked(sf: nat, req: Request) returns (r: Option<Link>)
      requires Valid() && !g.locked && InFrame(slotframes, sf, req.timeslot)
      modifies `slotframes, `freeLinks, `linkCount, g`locked
      ensures Valid() && !g.locked && NewOutcome(old(Now()), Now(), sf, req, nullAddr, r)
    {
      var ok := g.GetLock();
      r := LinkIn(sf, req);
      g.ReleaseLock();
    }

    /** The neighbour of a new Tx link is added if need be, and counts it. */
    method CountNewLink(l: Link, room: bool)
      requires Valid() && !g.locked && l in Links(slotframes)
      modifies queue`order, queue`nbrs, g`locked
      ensures Valid() && !g.locked && SameOrNew(old(queue.nbrs), queue.nbrs) && Now() == old(Now())
      ensures Mirrors(Links(slotframes) - {l}, old(queue.nbrs)) ==>
        (Mirrored() <==> (l.tx ==> l.addr in old(queue.nbrs) || room))
    {
      ghost var links := Links(slotframes);
      ghost var t := queue.nbrs;
      if l.tx {
        var known := queue.AddNbr(l.addr, room);
        if known {
          ghost var u := queue.nbrs;
          Count(l, 1);
          if Mirrors(links - {l}, t) {
            MirrorsNewLink(links, t, u, l);
          }
        } else {
          UncountedLink(links, t, l);
        }
      } else if Mirrors(links - {l}, t) {
        MirrorsNewLink(links, t, t, l);
      }
    }

    /** The rest of tsch_schedule_add_link once the place is free: take the lock, install the
        link, release the lock, count the link. */
    method AddNew(sf: nat, req: Request, room: bool) returns (r: Option<Link>)
      requires Valid() && !g.locked && InFrame(slotframes, sf, req.timeslot)
      modifies `slotframes, `freeLinks, `linkCount, g, queue`order, queue`nbrs
      ensures Valid() && !g.locked && SameOrNew(old(queue.nbrs), queue.nbrs)
      ensures NewOutcome(old(Now()), Now(), sf, req, nullAddr, r)
      ensures old(Mirrored()) ==> (Mirrored() <==> Countable(old(queue.nbrs), r, room))
    {
      r := LinkLocked(sf, req);
      if r.Some? {
        AddThenRemove(Links(old(slotframes)), r.value);
        CountNewLink(r.value, room);
      }
    }

    /** What tsch_schedule_add_link removes first, when asked to. */
    ghost function Replaced(sf: nat, req: Request, doRemove: bool): set<Link>
      reads this
    {
      if doRemove then AtSlot(Links(slotframes), sf, req.timeslot, req.channelOffset) else {}
    }

    /** Clears the place if asked to. */
    method MakePlace(sf: nat, req: Request, doRemove: bool)
      requires Valid() && !g.locked && Has(slotframes, sf)
      modifies `slotframes, `freeLinks, g, queue`nbrs
      ensures Valid() && !g.locked && CountsOnly(old(queue.nbrs), queue.nbrs) && (old(Mirrored()) ==> Mirrored())
      ensures Now() == Removed(old(Now()), sf, old(Replaced(sf, req, doRemove)))
      ensures Links(slotframes) == Links(old(slotframes)) - old(Replaced(sf, req, doRemove))
      ensures InFrame(slotframes, sf, req.timeslot) <==> InFrame(old(slotframes), sf, req.timeslot)
    {
      CutSizes(slotframes, sf, Replaced(sf, req, doRemove), req.timeslot);
      if doRemove {
        var any := RemoveLinkByTimeslot(Some(sf), req.timeslot, req.channelOffset);
      } else {
        RemovedNone(Now(), sf);
      }
    }

    /** tsch_schedule_add_link with TSCH unlocked and a timeslot that fits. */
    method AddIn(sf: nat, req: Request, doRemove: bool, room: bool) returns (r: Option<Link>)
      requires Valid() && !g.locked && InFrame(slotframes, sf, req.timeslot)
      modifies `slotframes, `freeLinks, `linkCount, g, queue`order, queue`nbrs
      ensures Valid() && !g.locked && SameOrNew(old(queue.nbrs), queue.nbrs)
      ensures AddOutcome(old(Now()), old(Replaced(sf, req, doRemove)), Now(), sf, req, nullAddr, r)
      ensures AddKeeps(old(Now()), Now(), sf, req, nullAddr, doRemove, r)
      ensures old(Mirrored()) ==> (Mirrored() <==> Countable(old(queue.nbrs), r, room))
    {
      ghost var start, gone, t := Now(), Replaced(sf, req, doRemove), queue.nbrs;
      MakePlace(sf, req, doRemove);
      r := AddAfter(sf, req, room, start, gone, t);
      OutcomeKeeps(start, gone, Now(), sf, req, nullAddr, r, doRemove);
    }

    /** AddNew, seen from before the place was cleared of `gone`. */
    method AddAfter(sf: nat, req: Request, room: bool, ghost start: Snapshot, ghost gone: set<Link>, ghost t: Table)
      returns (r: Option<Link>)
      requires Valid() && !g.locked && InFrame(slotframes, sf, req.timeslot)
      requires Now() == Removed(start, sf, gone) && Links(slotframes) == Links(start.sfs) - gone
      requires CountsOnly(t, queue.nbrs)
      modifies `slotframes, `freeLinks, `linkCount, g, queue`order, queue`nbrs
      ensures Valid() && !g.locked && SameOrNew(t, queue.nbrs)
      ensures AddOutcome(start, gone, Now(), sf, req, nullAddr, r)
      ensures old(Mirrored()) ==> (Mirrored() <==> Countable(t, r, room))
    {
      ghost var u, mid := queue.nbrs, Now();
      r := AddNew(sf, req, room);
      CountsThenNew(t, u, queue.nbrs);
      OutcomeOf(start, gone, mid, Now(), sf, req, nullAddr, r);
    }

    /** `room`: can the neighbour table take one more neighbour? Under the lock neither the
        removal nor the addition happens. */
    method AddLink(sf: Option<nat>, req: Request, doRemove: bool, room: bool) returns (r: Option<Link>)
      requires Valid() && (sf.Some? ==> Has(slotframes, sf.value))
      modifies `slotframes, `freeLinks, `linkCount, g, queue`order, queue`nbrs
      ensures Valid() && g.locked == old(g.locked) && SameOrNew(old(queue.nbrs), queue.nbrs)
      ensures sf == None || g.locked || !InFrame(old(slotframes), sf.value, req.timeslot) ==>
        r == None && Now() == old(Now()) && queue.nbrs == old(queue.nbrs)
      ensures sf.Some? && !g.locked && InFrame(old(slotframes), sf.value, req.timeslot) ==>
        AddOutcome(old(Now()), old(Replaced(sf.value, req, doRemove)), Now(), sf.value, req, nullAddr, r)
      ensures sf.Some? ==> AddKeeps(old(Now()), Now(), sf.value, req, nullAddr, doRemove, r)
      ensures old(Mirrored()) ==> (Mirrored() <==> Countable(old(queue.nbrs), r, room))
    {
      r := None;
      if sf.Some? {
        var i :| 0 <= i < |slotframes| && slotframes[i].handle == sf.value;
        OneSize(slotframes, sf.value, i, req.timeslot);
        if req.timeslot > slotframes[i].size - 1 {
          return;
        }
        if !g.locked {
          r := AddIn(sf.value, req, doRemove, room);
        }
      }
    }

    /** Removes the links of a slotframe one after the other, from the head of its list. */
    method ClearLinks(h: nat, i: nat) returns (ghost gone: set<Link>)
      requires Valid() && !g.locked && i < |slotframes| && slotframes[i].handle == h
      modifies `slotframes, `freeLinks, g, queue`nbrs
      ensures Valid() && !g.locked && CountsOnly(old(queue.nbrs), queue.nbrs) && (old(Mirrored()) ==> Mirrored())
      ensures Now() == Removed(old(Now()), h, gone) && Links(slotframes) == Links(old(slotframes)) - gone
      ensures gone == LinksOf(old(slotframes), h) && |slotframes| == |old(slotframes)|
      ensures slotframes[i].handle == h && slotframes[i].links == []
    {
      ghost var start := Now();
      gone := {};
      RemovedNone(start, h);
      while slotframes[i].links != []
        invariant Valid() && !g.locked && |slotframes| == |start.sfs| && slotframes[i].handle == h
        invariant Now() == Removed(start, h, gone) && Links(slotframes) == Links(start.sfs) - gone
        invariant gone <= LinksOf(start.sfs, h)
        invariant CountsOnly(old(queue.nbrs), queue.nbrs) && (old(Mirrored()) ==> Mirrored())
        decreases |slotframes[i].links|
      {
        var l := slotframes[i].links[0];
        ListedOnce(slotframes, i, 0);
        CutHead(slotframes, h, i);
        RemovedTwice(start, h, gone, {l});
        RemoveNext(start, gone, h, l);
        gone := gone + {l};
      }
      AllGone(start.sfs, slotframes, h, gone, i);
    }

    /** The part of tsch_schedule_remove_slotframe inside the lock. */
    method FreeFrame(i: nat)
      requires Valid() && i < |slotframes| && slotframes[i].links == []
      modifies `slotframes, `freeSlotframes
      ensures Valid() && slotframes == old(slotframes)[..i] + old(slotframes)[i + 1..]
      ensures freeSlotframes == old(freeSlotframes) + {old(slotframes)[i].cell}
      ensures Links(slotframes) == Links(old(slotframes))
    {
      DropEmpty(slotframes, i, freeSlotframes, sfPool);
      freeSlotframes := freeSlotframes + {slotframes[i].cell};
      slotframes := slotframes[..i] + slotframes[i + 1..];
    }

    /** Now that the slotframe has no links, frees it. */
    method DropFrame(i: nat)
      requires Valid() && !g.locked && i < |slotframes| && slotframes[i].links == []
      modifies `slotframes, `freeSlotframes, g`locked
      ensures Valid() && !g.locked && slotframes == old(slotframes)[..i] + old(slotframes)[i + 1..]
      ensures freeSlotframes == old(freeSlotframes) + {old(slotframes)[i].cell}
      ensures Links(slotframes) == Links(old(slotframes)) && Mirrored() == old(Mirrored())
    {
      var taken := g.GetLock();
      FreeFrame(i);
      g.ReleaseLock();
    }

    method ClearAndDrop(h: nat, i: nat)
      requires Valid() && !g.locked && i < |slotframes| && slotframes[i].handle == h
      modifies `slotframes, `freeLinks, `freeSlotframes, g, queue`nbrs
      ensures Valid() && !g.locked && CountsOnly(old(queue.nbrs), queue.nbrs) && (old(Mirrored()) ==> Mirrored())
      ensures Links(slotframes) == Links(old(slotframes)) - LinksOf(old(slotframes), h)
      ensures freeLinks == old(freeLinks) + Cells(LinksOf(old(slotframes), h))
      ensures DroppedAt(old(slotframes), slotframes, h, i)
      ensures CurrentLeft(old(slotframes), old(g.currentLink), h, g.currentLink)
    {
      ghost var before, was := slotframes, g.currentLink;
      Clear(h, i);
      ghost var left := g.currentLink;
      assert CurrentLeft(before, was, h, left);
      DropFrame(i);
      assert g.currentLink == left;
    }

    /** Removes all links of a slotframe. */
    method Clear(h: nat, i: nat)
      requires Valid() && !g.locked && i < |slotframes| && slotframes[i].handle == h
      modifies `slotframes, `freeLinks, g, queue`nbrs
      ensures Valid() && !g.locked && CountsOnly(old(queue.nbrs), queue.nbrs) && (old(Mirrored()) ==> Mirrored())
      ensures Links(slotframes) == Links(old(slotframes)) - LinksOf(old(slotframes), h)
      ensures i < |slotframes| && slotframes[i].links == []
      ensures DroppedAt(old(slotframes), slotframes[..i] + slotframes[i + 1..], h, i)
      ensures freeLinks == old(freeLinks) + Cells(LinksOf(old(slotframes), h))
      ensures CurrentLeft(old(slotframes), old(g.currentLink), h, g.currentLink)
    {
      ghost var start := slotframes;
      OneHandle(start);
      ghost var gone := ClearLinks(h, i);
      CutThenDrop(start, h, gone, i);
    }

    lemma OneHandle(sfs: seq<Slotframe>)
      requires FramesOk(sfs, freeSlotframes, sfPool)
      ensures forall a, b | 0 <= a < b < |sfs| :: sfs[a].handle != sfs[b].handle
    {
    }

    /** Could removing the slotframe spin? It does while TSCH is locked and there is a link left. */
    ghost predicate Spins(sf: Option<nat>)
      reads this, g
    {
      g.locked && sf.Some? && LinksOf(slotframes, sf.value) != {}
    }

    /** Under the lock an empty slotframe stays, as the lock is not free. */
    method RemoveSlotframe(sf: Option<nat>) returns (ok: bool)
      requires Valid() && (sf.Some? ==> Has(slotframes, sf.value)) && !Spins(sf)
      modifies `slotframes, `freeLinks, `freeSlotframes, g, queue`nbrs
      ensures Valid() && g.locked == old(g.locked) && CountsOnly(old(queue.nbrs), queue.nbrs)
      ensures ok <==> sf.Some? && !g.locked
      ensures !ok ==> Now() == old(Now()) && freeSlotframes == old(freeSlotframes) && queue.nbrs == old(queue.nbrs)
      ensures ok ==>
        && Links(slotframes) == Links(old(slotframes)) - LinksOf(old(slotframes), sf.value)
        && freeLinks == old(freeLinks) + Cells(LinksOf(old(slotframes), sf.value))
        && exists i :: DroppedAt(old(slotframes), slotframes, sf.value, i)
      ensures ok ==> forall l | l in Links(old(slotframes)) :: l in Links(slotframes) <==> l.sfHandle != sf.value
      ensures old(CurrentInstalled()) ==> CurrentInstalled() && g.currentLink in {old(g.currentLink), None}
      ensures old(Mirrored()) ==> Mirrored()
    {
      ok := false;
      if sf.Some? && !g.locked {
        var i :| 0 <= i < |slotframes| && slotframes[i].handle == sf.value;
        ClearAndDrop(sf.value, i);
        ok := true;
      }
    }

    method RemoveAllSlotframes() returns (ok: bool)
      requires Valid() && (slotframes != [] ==> !Spins(Some(slotframes[0].handle)))
      modifies `slotframes, `freeLinks, `freeSlotframes, g, queue`nbrs
      ensures Valid() && g.locked == old(g.locked) && (ok <==> !g.locked || old(slotframes) == [])
      ensures g.locked ==> Now() == old(Now()) && freeSlotframes == old(freeSlotframes) && queue.nbrs == old(queue.nbrs)
      ensures !g.locked ==> slotframes == [] && |freeLinks| == linkPool && |freeSlotframes| == sfPool
      ensures old(Mirrored()) ==> Mirrored()
      ensures old(Mirrored()) && !g.locked ==>
        forall a | a in queue.nbrs :: queue.nbrs[a].txLinks == 0 && queue.nbrs[a].dedicatedTxLinks == 0
      ensures old(CurrentInstalled()) ==> CurrentInstalled() && (!g.locked ==> g.currentLink == None)
    {
      while slotframes != []
        invariant Valid() && g.locked == old(g.locked) && (old(Mirrored()) ==> Mirrored())
        invariant old(CurrentInstalled()) ==> CurrentInstalled()
        invariant g.locked ==>
          Now() == old(Now()) && freeSlotframes == old(freeSlotframes) && queue.nbrs == old(queue.nbrs)
        decreases |slotframes|
      {
        ghost var n := |slotframes|;
        assert slotframes[0].handle == slotframes[0].handle;
        ok := RemoveSlotframe(Some(slotframes[0].handle));
        if !ok {
          return;
        }
        assert |slotframes| == n - 1;
      }
      ok := true;
      if old(Mirrored()) {
        EmptyCounts(queue.nbrs);
      }
    }
  }

  lemma OneSize(sfs: seq<Slotframe>, h: nat, i: nat, timeslot: nat)
    requires i < |sfs| && sfs[i].handle == h && forall a, b | 0 <= a < b < |sfs| :: sfs[a].handle != sfs[b].handle
    ensures InFrame(sfs, h, timeslot) <==> timeslot < sfs[i].size
  {
  }

  lemma CutSizes(sfs: seq<Slotframe>, h: nat, gone: set<Link>, timeslot: nat)
    ensures InFrame(Cut(sfs, h, gone), h, timeslot) <==> InFrame(sfs, h, timeslot)
  {
    var r := Cut(sfs, h, gone);
    assert forall i | 0 <= i < |sfs| :: r[i].handle == sfs[i].handle && r[i].size == sfs[i].size;
  }

  lemma AddThenRemove(links: set<Link>, l: Link)
    ensures l !in links ==> links + {l} - {l} == links
  {
  }

  lemma CutHead(sfs: seq<Slotframe>, h: nat, i: nat)
    requires i < |sfs| && sfs[i].handle == h && sfs[i].links != [] && NoRepeats(sfs[i].links)
    ensures |Cut(sfs, h, {sfs[i].links[0]})[i].links| < |sfs[i].links|
  {
    var links := sfs[i].links;
    assert links[0] !in links[1..];
    WithoutNone(links[1..], {links[0]});
  }

  /** The slotframe at position i is gone, the rest stands. */
  ghost predicate DroppedAt(before: seq<Slotframe>, after: seq<Slotframe>, h: nat, i: nat) {
    i < |before| && before[i].handle == h && after == before[..i] + before[i + 1..]
  }

  /** The current link is what it was, or null if it was one of the slotframe removed. */
  ghost predicate CurrentLeft(before: seq<Slotframe>, was: Option<Link>, h: nat, now: Option<Link>) {
    now == if was.Some? && was.value in Links(before) && was.value.sfHandle == h then None else was
  }

  lemma AllGone(sfs: seq<Slotframe>, now: seq<Slotframe>, h: nat, gone: set<Link>, i: nat)
    requires WellFormed(now) && i < |now| && now[i].handle == h && now[i].links == []
    requires forall a, b | 0 <= a < b < |now| :: now[a].handle != now[b].handle
    requires Links(now) == Links(sfs) - gone && gone <= LinksOf(sfs, h)
    ensures gone == LinksOf(sfs, h)
  {
    forall l | l in LinksOf(sfs, h) ensures l in gone {
      if l !in gone {
        var a := LinkPlace(now, l);
      }
    }
  }

  lemma DropEmpty(sfs: seq<Slotframe>, i: nat, freeSfs: set<nat>, sfPool: nat)
    requires FramesOk(sfs, freeSfs, sfPool) && i < |sfs| && sfs[i].links == []
    ensures var after := sfs[..i] + sfs[i + 1..];
      FramesOk(after, freeSfs + {sfs[i].cell}, sfPool) && Links(after) == Links(sfs)
  {
    var after := sfs[..i] + sfs[i + 1..];
    assert forall a | 0 <= a < |after| :: after[a] == sfs[if a < i then a else a + 1];
    forall l | l in Links(sfs) ensures l in Links(after) {
      var a := FindLink(sfs, l);
      InLinks(after, if a < i then a else a - 1, l);
    }
    forall l | l in Links(after) ensures l in Links(sfs) {
      var a := FindLink(after, l);
      InLinks(sfs, if a < i then a else a + 1, l);
    }
  }

  lemma CutThenDrop(sfs: seq<Slotframe>, h: nat, gone: set<Link>, i: nat)
    requires i < |sfs| && sfs[i].handle == h && forall a, b | 0 <= a < b < |sfs| :: sfs[a].handle != sfs[b].handle
    ensures var r := Cut(sfs, h, gone); DroppedAt(sfs, r[..i] + r[i + 1..], h, i)
  {
    var r := Cut(sfs, h, gone);
    assert forall j | 0 <= j < |sfs| && j != i :: r[j] == sfs[j];
  }

  lemma EmptyCounts(t: Table)
    requires Mirrors({}, t)
    ensures forall a | a in t :: t[a].txLinks == 0 && t[a].dedicatedTxLinks == 0
  {
    forall a | a in t ensures t[a].txLinks == 0 && t[a].dedicatedTxLinks == 0 {
      assert MirrorsAt({}, t, a);
      assert TxTo({}, a) == {} && DedicatedTo({}, a) == {};
    }
  }

  lemma IsRecount(t: Table, u: Table, l: Link, delta: int)
    requires l.tx && l.addr in t && OnlyAt(t, u, l.addr) && u[l.addr] == Counted(t[l.addr], delta, !l.shared)
    ensures u == Recount(t, l, delta) && CountsOnly(t, u)
  {
  }

  /** Counting a new link, its neighbour perhaps new as well, restores the mirror. */
  lemma MirrorsNewLink(links: set<Link>, t: Table, u: Table, l: Link)
    requires l in links && Mirrors(links - {l}, t)
    requires if l.tx && l.addr !in t
      then l.addr in u && u == t[l.addr := u[l.addr]] && u[l.addr].txLinks == 0 && u[l.addr].dedicatedTxLinks == 0
      else u == t
    ensures Mirrors(links, Recount(u, l, 1))
  {
    MirrorsNewNbr(links - {l}, t, u, l.addr);
    MirrorsAdd(links - {l}, u, l);
    assert links - {l} + {l} == links;
  }

  ghost predicate InFrame(sfs: seq<Slotframe>, h: nat, timeslot: nat) {
    exists i :: 0 <= i < |sfs| && sfs[i].handle == h && timeslot < sfs[i].size
  }

  /** What adding a link comes to: `gone` is removed first; then nothing more if the pool is empty,
      otherwise a fresh link with what was asked, at the end of the slotframe's list. */
  ghost predicate AddOutcome(before: Snapshot, gone: set<Link>, after: Snapshot, sf: nat, req: Request,
      nullAddr: Addr, r: Option<Link>) {
    var mid, rest := Removed(before, sf, gone), Links(before.sfs) - gone;
    && (r == None <==> mid.freeLinks == {})
    && (r == None ==> after == mid && Links(after.sfs) == rest)
    && (r.Some? ==>
          && r.value.cell in mid.freeLinks && Made(r.value, sf, req, nullAddr) && Numbered(r.value, mid)
          && r.value !in rest && after == Added(mid, sf, r.value) && Links(after.sfs) == rest + {r.value})
  }

  /** The current link stays installed if it was, or is cleared; the new link is what was asked for,
      numbered on, the last of its list, and, if a place was to be cleared for it, alone there. */
  ghost predicate AddKeeps(before: Snapshot, after: Snapshot, sf: nat, req: Request, nullAddr: Addr, doRemove: bool,
      r: Option<Link>) {
    && (CurrentIn(before) ==> CurrentIn(after) && (after.current == before.current || after.current == None))
    && after.linkCount == before.linkCount + (if r.Some? then 1 else 0)
    && (r.Some? ==>
          && r.value == Link(r.value.cell, before.linkCount % 0x1_0000, req.tx, req.rx, req.shared, req.kind,
                             if req.addr.Some? then req.addr.value else nullAddr,
                             sf, r.value.period, req.timeslot, req.channelOffset)
          && (forall i | 0 <= i < |after.sfs| && after.sfs[i].handle == sf ::
                after.sfs[i].links != [] && after.sfs[i].links[|after.sfs[i].links| - 1] == r.value)
          && (doRemove ==> forall l | l in Links(after.sfs) && l != r.value ::
                l.sfHandle != sf || l.timeslot != req.timeslot || l.channelOffset != req.channelOffset))
  }

  lemma OutcomeKeeps(before: Snapshot, gone: set<Link>, after: Snapshot, sf: nat, req: Request,
      nullAddr: Addr, r: Option<Link>, doRemove: bool)
    requires AddOutcome(before, gone, after, sf, req, nullAddr, r)
    requires gone == if doRemove then AtSlot(Links(before.sfs), sf, req.timeslot, req.channelOffset) else {}
    ensures AddKeeps(before, after, sf, req, nullAddr, doRemove, r)
  {
  }

  /** The same with nothing to remove. */
  ghost predicate NewOutcome(mid: Snapshot, after: Snapshot, sf: nat, req: Request, nullAddr: Addr,
      r: Option<Link>) {
    && (r == None <==> mid.freeLinks == {})
    && (r == None ==> after == mid)
    && (r.Some? ==>
          && r.value.cell in mid.freeLinks && Made(r.value, sf, req, nullAddr) && Numbered(r.value, mid)
          && r.value !in Links(mid.sfs) && after == Added(mid, sf, r.value)
          && Links(after.sfs) == Links(mid.sfs) + {r.value})
  }

  lemma OutcomeOf(before: Snapshot, gone: set<Link>, mid: Snapshot, after: Snapshot, sf: nat, req: Request,
      nullAddr: Addr, r: Option<Link>)
    requires mid == Removed(before, sf, gone) && Links(mid.sfs) == Links(before.sfs) - gone
    requires NewOutcome(mid, after, sf, req, nullAddr, r)
    ensures AddOutcome(before, gone, after, sf, req, nullAddr, r)
  {
  }

  /** The link carries what was asked for. */
  predicate Made(l: Link, sf: nat, req: Request, nullAddr: Addr) {
    && l.tx == req.tx && l.rx == req.rx && l.shared == req.shared && l.kind == req.kind
    && l.addr == (if req.addr.Some? then req.addr.value else nullAddr)
    && l.sfHandle == sf && l.timeslot == req.timeslot && l.channelOffset == req.channelOffset
  }

  /** Link handles are consecutive numbers, modulo 2^16. */
  predicate Numbered(l: Link, before: Snapshot) {
    l.handle == Lookup.Uint16(before.linkCount)
  }

  function Added(s: Snapshot, h: nat, l: Link): Snapshot {
    s.(sfs := Append(s.sfs, h, l), freeLinks := s.freeLinks - {l.cell}, linkCount := s.linkCount + 1)
  }

  /** As CountsOnly, but neighbours may have been added. */
  ghost predicate SameOrNew(t: Table, u: Table) {
    t.Keys <= u.Keys &&
    forall a | a in t :: u[a] == t[a].(txLinks := u[a].txLinks, dedicatedTxLinks := u[a].dedicatedTxLinks)
  }

  /** A new Tx link can be counted: its neighbour is known, or the table has room. */
  predicate Countable(t: Table, r: Option<Link>, room: bool) {
    r.Some? && r.value.tx ==> r.value.addr in t || room
  }

  lemma CountsThenNew(t: Table, u: Table, v: Table)
    requires CountsOnly(t, u) && SameOrNew(u, v)
    ensures SameOrNew(t, v) && t.Keys == u.Keys
  {
  }

  lemma MirrorsNewNbr(links: set<Link>, t: Table, u: Table, a: Addr)
    requires Mirrors(links, t)
    requires u == t || (a !in t && a in u && u == t[a := u[a]] && u[a].txLinks == 0 && u[a].dedicatedTxLinks == 0)
    ensures Mirrors(links, u)
  {
    forall b ensures MirrorsAt(links, u, b) {
      assert MirrorsAt(links, t, b);
      assert DedicatedTo(links, b) <= TxTo(links, b);
    }
  }

  function AtOffset(links: seq<Link>, timeslot: nat, channelOffset: nat): set<Link> {
    set l | l in links && l.timeslot == timeslot && l.channelOffset == channelOffset
  }

  function AtSlot(links: set<Link>, h: nat, timeslot: nat, channelOffset: nat): set<Link> {
    set l | l in links && l.sfHandle == h && l.timeslot == timeslot && l.channelOffset == channelOffset
  }

  /** Neighbours keep everything but their link counters. */
  ghost predicate CountsOnly(t: Table, u: Table) {
    t.Keys == u.Keys &&
    forall a | a in t :: u[a] == t[a].(txLinks := u[a].txLinks, dedicatedTxLinks := u[a].dedicatedTxLinks)
  }

  lemma ListedOnce(sfs: seq<Slotframe>, i: nat, k: nat)
    requires WellFormed(sfs) && i < |sfs| && k < |sfs[i].links| && NoRepeats(sfs[i].links)
    ensures sfs[i].links[k] in Links(sfs) && sfs[i].links[k] !in sfs[i].links[..k]
    ensures sfs[i].links[k].sfHandle == sfs[i].handle
  {
    InLinks(sfs, i, sfs[i].links[k]);
  }

  lemma AtOffsetNext(links: seq<Link>, k: nat, timeslot: nat, channelOffset: nat)
    requires k < |links|
    ensures var l, before := links[k], AtOffset(links[..k], timeslot, channelOffset);
      var after := AtOffset(links[..k + 1], timeslot, channelOffset);
      && after == (if l.timeslot == timeslot && l.channelOffset == channelOffset then before + {l} else before)
      && (after != {} <==> before != {} || (l.timeslot == timeslot && l.channelOffset == channelOffset))
      && (l !in links[..k] ==> l !in before)
  {
    assert links[..k + 1] == links[..k] + [links[k]];
  }

  lemma AtOffsetEnds(links: seq<Link>, timeslot: nat, channelOffset: nat)
    ensures AtOffset(links[..0], timeslot, channelOffset) == {}
    ensures AtOffset(links[..|links|], timeslot, channelOffset) == AtOffset(links, timeslot, channelOffset)
  {
    assert links[..|links|] == links;
  }

  lemma AtSlotListed(sfs: seq<Slotframe>, i: nat, timeslot: nat, channelOffset: nat)
    requires WellFormed(sfs) && i < |sfs|
    requires forall a, b | 0 <= a < b < |sfs| :: sfs[a].handle != sfs[b].handle
    ensures AtSlot(Links(sfs), sfs[i].handle, timeslot, channelOffset)
      == AtOffset(sfs[i].links, timeslot, channelOffset)
  {
    forall l | l in Links(sfs) && l.sfHandle == sfs[i].handle ensures l in sfs[i].links {
      var a := LinkPlace(sfs, l);
    }
    forall l | l in sfs[i].links ensures l in Links(sfs) {
      InLinks(sfs, i, l);
    }
  }

  lemma NewFrameKeepsStore(sfs: seq<Slotframe>, freeSfs: set<nat>, sfPool: nat, sf: Slotframe)
    requires FramesOk(sfs, freeSfs, sfPool) && sf.cell in freeSfs && !Has(sfs, sf.handle)
    requires sf.links == [] && 0 < sf.size < 0x1_0000
    ensures FramesOk(sfs + [sf], freeSfs - {sf.cell}, sfPool) && Links(sfs + [sf]) == Links(sfs)
  {
    assert forall i | 0 <= i < |sfs| :: sfs[i].handle != sf.handle;
    var r := sfs + [sf];
    forall l | l in Links(r) ensures l in Links(sfs) {
      var i := FindLink(r, l);
      InLinks(sfs, i, l);
    }
    forall l | l in Links(sfs) ensures l in Links(r) {
      var i := FindLink(sfs, l);
      InLinks(r, i, l);
    }
  }

  // ---- The full neighbour table ----

  lemma BootMirrors(t: Table, c: Config)
    requires c.Valid() && t == map[EbAddress := NewNbr(c, EbAddress), Broadcast := NewNbr(c, Broadcast)]
    ensures Mirrors({}, t)
  {
    forall a ensures MirrorsAt({}, t, a) {
      assert TxTo({}, a) == {} && DedicatedTo({}, a) == {};
    }
  }

  /** A fresh node with a full neighbour table and one slotframe of seven slots. */
  method FreshSchedule() returns (s: TschSchedule)
    ensures fresh(s) && fresh(s.g) && fresh(s.queue) && s.Valid() && s.Mirrored() && !s.g.locked
    ensures InFrame(s.slotframes, 0, 0) && s.freeLinks == {0} && Node(1) !in s.queue.nbrs
  {
    var g := new Globals();
    var queue := new TschQueue(Config(1, 5, 4, 4), g, {});
    s := new TschSchedule(queue, Broadcast, {0}, {0});
    BootMirrors(queue.nbrs, queue.c);
    assert Links([]) == {};
    var added := s.AddSlotframe(0, 7);
    assert s.slotframes[0].handle == 0;
  }

  /** A dedicated Tx link to an unknown neighbour is installed there, but nobody counts it. */
  method FullTableLosesCount() returns (s: TschSchedule, l: Option<Link>)
    ensures fresh(s) && s.Valid() && !s.Mirrored()
    ensures l.Some? && l.value in Links(s.slotframes) && l.value.tx && l.value.addr == Node(1)
  {
    s := FreshSchedule();
    l := s.AddLink(Some(0), Request(true, false, false, Normal, Some(Node(1)), 0, 0), false, false);
  }
}
