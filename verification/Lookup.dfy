/** Next-active-link lookup of the schedule, and which of the two links it returns is
    finally executed. */
module Lookup {
  import opened Types
  import NumberTheory

  /** Packets queued for an address; none when the neighbour is unknown. */
  function Queued(packets: map<Addr, nat>, a: Addr): nat {
    if a in packets then packets[a] else 0
  }

  /** Priority between overlapping links (section 6.2.6.4 of IEEE Std 802.15.4-2015):
      Tx first, then the lowest slotframe handle; then, between Tx links of one
      slotframe, the longest queue. */
  predicate Dominates(packets: map<Addr, nat>, a: Link, b: Link) {
    && (b.tx ==> a.tx)
    && (a.tx == b.tx ==> a.sfHandle <= b.sfHandle)
    && (a.tx && b.tx && a.sfHandle == b.sfHandle ==> Queued(packets, a.addr) >= Queued(packets, b.addr))
  }

  /** What a lookup from `asn` over `links` must return. */
  ghost predicate NextLink(packets: map<Addr, nat>, links: set<Link>, asn: nat,
                           best: Option<Link>, offset: nat, backup: Option<Link>) {
    match best
    case None => links == {} && backup == None
    case Some(b) =>
      && b in links && 1 <= offset <= b.period && ActiveAt(b, asn + offset)
      && (forall l, t | l in links && asn < t < asn + offset :: !ActiveAt(l, t))
      && (forall l | l in links && ActiveAt(l, asn + offset) :: Dominates(packets, b, l))
      && (backup.Some? ==>
            backup.value in links && backup.value.rx && ActiveAt(backup.value, asn + offset))
      && (forall l | l in links && l.rx && l != b && ActiveAt(l, asn + offset) ::
            backup.Some? && backup.value.sfHandle <= l.sfHandle)
  }

  function Uint16(n: int): nat {
    n % 0x1_0000
  }

  /** Slots from `asn` to the link's next occurrence, in the source's 16-bit arithmetic. */
  function TimeTo(asn: nat, l: Link): (d: nat)
    requires l.timeslot < l.period
  {
    var timeslot := asn % l.period;
    Uint16(if l.timeslot > timeslot then l.timeslot - timeslot else l.period + l.timeslot - timeslot)
  }

  /** Adding less than two periods to a number below one period wraps at most once. */
  lemma WrapsOnce(r: nat, d: nat, n: nat)
    requires r < n && d <= n
    ensures (r + d) % n == if r + d < n then r + d else r + d - n
  {
    NumberTheory.ModUnique(r + d, n, if r + d < n then 0 else 1, if r + d < n then r + d else r + d - n);
  }

  lemma TimeToRange(asn: nat, l: Link)
    requires l.timeslot < l.period < 0x1_0000
    ensures 1 <= TimeTo(asn, l) <= l.period
  {
  }

  /** Within one period the link is active at exactly one distance. */
  lemma TimeToIsNext(asn: nat, l: Link, d: nat)
    requires l.timeslot < l.period < 0x1_0000 && 1 <= d <= l.period
    ensures ActiveAt(l, asn + d) <==> d == TimeTo(asn, l)
  {
    var n, r := l.period, asn % l.period;
    NumberTheory.ModAdd(asn, d, n);
    WrapsOnce(r, d, n);
    var exact := if l.timeslot > r then l.timeslot - r else n + l.timeslot - r;
    NumberTheory.ModUnique(exact, 0x1_0000, 0, exact);
  }

  /** The fold invariant: best, offset and backup summarise the links seen so far. */
  ghost predicate Summary(packets: map<Addr, nat>, seen: set<Link>, asn: nat,
                          best: Option<Link>, offset: nat, backup: Option<Link>)
    requires forall l | l in seen :: l.timeslot < l.period
  {
    match best
    case None => seen == {} && backup == None
    case Some(b) =>
      && b in seen && TimeTo(asn, b) == offset
      && (forall l | l in seen :: offset <= TimeTo(asn, l))
      && (forall l | l in seen && TimeTo(asn, l) == offset :: Dominates(packets, b, l))
      && (backup.Some? ==>
            backup.value in seen && backup.value.rx && TimeTo(asn, backup.value) == offset)
      && (forall l | l in seen && l.rx && l != b && TimeTo(asn, l) == offset ::
            backup.Some? && backup.value.sfHandle <= l.sfHandle)
  }

  lemma SummaryIsNextLink(packets: map<Addr, nat>, links: set<Link>, asn: nat,
                          best: Option<Link>, offset: nat, backup: Option<Link>)
    requires forall l | l in links :: l.timeslot < l.period < 0x1_0000
    requires Summary(packets, links, asn, best, offset, backup)
    ensures NextLink(packets, links, asn, best, offset, backup)
  {
    forall l | l in links ensures 1 <= TimeTo(asn, l) <= l.period {
      TimeToRange(asn, l);
    }
    if best.Some? {
      forall l, t | l in links && asn < t < asn + offset ensures !ActiveAt(l, t) {
        TimeToIsNext(asn, l, t - asn);
      }
      forall l | l in links ensures ActiveAt(l, asn + offset) <==> TimeTo(asn, l) == offset {
        TimeToIsNext(asn, l, offset);
      }
    }
  }

  /** Default comparator for two links of one slotframe with the same Tx option. */
  function Compare(packets: map<Addr, nat>, a: Link, b: Link): Link {
    if !a.tx then a
    else if a.addr != b.addr then
      if Queued(packets, a.addr) >= Queued(packets, b.addr) then a else b
    else a
  }

  /** The next active link after `asn`, and a backup link of the same slot that can receive.
      While TSCH is locked there is no result. */
  method GetNextActiveLink(sfs: seq<Slotframe>, locked: bool, packets: map<Addr, nat>, asn: nat)
    returns (best: Option<Link>, offset: nat, backup: Option<Link>)
    requires WellFormed(sfs)
    ensures locked ==> best == None && backup == None
    ensures !locked ==> NextLink(packets, Links(sfs), asn, best, offset, backup)
  {
    best, offset, backup := None, 0, None;
    if locked {
      return;
    }
    ghost var seen: set<Link> := {};
    var i := 0;
    while i < |sfs|
      invariant 0 <= i <= |sfs|
      invariant seen == Links(sfs[..i])
      invariant forall l | l in seen :: l.timeslot < l.period < 0x1_0000
      invariant Summary(packets, seen, asn, best, offset, backup)
    {
      var sf := sfs[i];
      var timeslot := asn % sf.size;
      ghost var before := seen;
      var j := 0;
      while j < |sf.links|
        invariant 0 <= j <= |sf.links|
        invariant seen == before + Listed(sf.links[..j])
        invariant forall l | l in seen :: l.timeslot < l.period < 0x1_0000
        invariant Summary(packets, seen, asn, best, offset, backup)
      {
        var l := sf.links[j];
        assert l in sf.links;
        var timeToTimeslot :=
          Uint16(if l.timeslot > timeslot then l.timeslot - timeslot else sf.size + l.timeslot - timeslot);
        best, offset, backup := Consider(packets, seen, asn, best, offset, backup, l, timeToTimeslot);
        ListedNext(sf.links, j);
        seen := seen + {l};
        j := j + 1;
      }
      assert sf.links[..j] == sf.links;
      LinksPrefix(sfs, i);
      i := i + 1;
    }
    assert sfs[..i] == sfs;
    SummaryIsNextLink(packets, seen, asn, best, offset, backup);
  }

  lemma LinksPrefix(sfs: seq<Slotframe>, i: nat)
    requires i < |sfs|
    ensures Links(sfs[..i + 1]) == Links(sfs[..i]) + Listed(sfs[i].links)
  {
    var all, sum := Links(sfs[..i + 1]), Links(sfs[..i]) + Listed(sfs[i].links);
    forall l | l in all ensures l in sum {
      var a := FindLink(sfs[..i + 1], l);
      if a < i {
        InLinks(sfs[..i], a, l);
      }
    }
    forall l | l in sum ensures l in all {
      if l in sfs[i].links {
        InLinks(sfs[..i + 1], i, l);
      } else {
        var a := FindLink(sfs[..i], l);
        InLinks(sfs[..i + 1], a, l);
      }
    }
  }

  /** One round of the inner loop: the source's body for link `l`, `time` slots ahead. */
  method Consider(packets: map<Addr, nat>, ghost seen: set<Link>, ghost asn: nat,
                  best0: Option<Link>, offset0: nat, backup0: Option<Link>, l: Link, time: nat)
    returns (best: Option<Link>, offset: nat, backup: Option<Link>)
    requires l.timeslot < l.period && TimeTo(asn, l) == time
    requires forall x | x in seen :: x.timeslot < x.period
    requires Summary(packets, seen, asn, best0, offset0, backup0)
    ensures Summary(packets, seen + {l}, asn, best, offset, backup)
  {
    best, offset, backup := best0, offset0, backup0;
    if best == None || time < offset {
      offset, best, backup := time, Some(l), None;
    } else if time == offset {
      var curr := best.value;
      var newBest: Option<Link> := None;
      if curr.tx == l.tx {
        if l.sfHandle != curr.sfHandle {
          if l.sfHandle < curr.sfHandle {
            newBest := Some(l);
          }
        } else {
          newBest := Some(Compare(packets, curr, l));
        }
      } else {
        if l.tx {
          newBest := Some(l);
        }
      }
      if newBest != Some(l) && l.rx {
        if backup == None || l.sfHandle < backup.value.sfHandle {
          backup := Some(l);
        }
      }
      if newBest != Some(curr) && curr.rx {
        if backup == None || curr.sfHandle < backup.value.sfHandle {
          backup := Some(curr);
        }
      }
      if newBest.Some? {
        best := newBest;
      }
    }
  }

  /** Two results for the same links agree on the slot, on Tx and on the slotframe handle,
      so neither depends on the order of the lists. */
  lemma PriorityIndependentOfOrder(packets: map<Addr, nat>, links: set<Link>, asn: nat,
      b1: Link, o1: nat, k1: Option<Link>, b2: Link, o2: nat, k2: Option<Link>)
    requires NextLink(packets, links, asn, Some(b1), o1, k1)
    requires NextLink(packets, links, asn, Some(b2), o2, k2)
    ensures o1 == o2 && b1.tx == b2.tx && b1.sfHandle == b2.sfHandle
    ensures b1.tx ==> Queued(packets, b1.addr) == Queued(packets, b2.addr)
  {
    assert !(asn < asn + o1 < asn + o2) && !(asn < asn + o2 < asn + o1);
  }

  /** The offset is the least of the links' 16-bit distances, that is the distance to the first
      slot in which any link is active. */
  lemma OffsetIsLeast(packets: map<Addr, nat>, links: set<Link>, asn: nat,
      best: Option<Link>, offset: nat, backup: Option<Link>)
    requires forall l | l in links :: l.timeslot < l.period < 0x1_0000
    requires NextLink(packets, links, asn, best, offset, backup)
    ensures best == None <==> links == {}
    ensures best.Some? ==> best.value in links && offset == TimeTo(asn, best.value) < 0x1_0000
    ensures forall l | l in links :: best.Some? && offset <= TimeTo(asn, l)
    ensures forall l, t | l in links && asn < t && ActiveAt(l, t) :: best.Some? && asn + offset <= t
  {
    if best.Some? {
      assert best.value in links;
      TimeToIsNext(asn, best.value, offset);
      forall l | l in links ensures offset <= TimeTo(asn, l) {
        TimeToRange(asn, l);
        TimeToIsNext(asn, l, TimeTo(asn, l));
        assert ActiveAt(l, asn + TimeTo(asn, l));
      }
    }
  }

  /** The link executed in the slot: the backup replaces a best link without a packet when
      the best cannot receive, or the backup comes from a lower slotframe. */
  function Executed(best: Link, backup: Option<Link>, hasPacket: bool): Link {
    if !hasPacket && backup.Some? && (!best.rx || backup.value.sfHandle < best.sfHandle)
    then backup.value else best
  }

  /** With nothing to send on the best link, the node listens on the lowest-handle link that
      can receive in that slot, whenever there is one. */
  lemma ListensOnLowestHandle(packets: map<Addr, nat>, links: set<Link>, asn: nat,
      best: Link, offset: nat, backup: Option<Link>)
    requires NextLink(packets, links, asn, Some(best), offset, backup)
    ensures var e := Executed(best, backup, false);
      && e in links && ActiveAt(e, asn + offset)
      && forall l | l in links && l.rx && ActiveAt(l, asn + offset) :: e.rx && e.sfHandle <= l.sfHandle
  {
  }
}
