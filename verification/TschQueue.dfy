/** The queue module's globals and operations, as tsch-queue.c runs them: the neighbour
    table in iteration order, the packet pool, and loops that update records in place. */
module TschQueues {
  import opened Types
  import opened Rings
  import opened Queue

  /** Globals of the slot operation that other modules read or clear. */
  class Globals {
    var locked: bool
    var currentLink: Option<Link>

    constructor ()
      ensures !locked && currentLink == None
    {
      locked, currentLink := false, None;
    }

    /** tsch_get_lock when no slot is running; the interleaved protocol is in SlotMachine. */
    method GetLock() returns (ok: bool)
      modifies `locked
      ensures locked && ok == !old(locked)
    {
      ok := !locked;
      locked := true;
    }

    method ReleaseLock()
      modifies `locked
      ensures !locked
    {
      locked := false;
    }
  }

  /** The tables agree except possibly at `a`. */
  ghost predicate OnlyAt(t: Table, u: Table, a: Addr) {
    u.Keys == t.Keys && forall b | b in t && b != a :: u[b] == t[b]
  }

  class TschQueue {
    const c: Config
    const g: Globals
    var order: seq<Addr>
    var nbrs: Table
    var packets: map<Pid, Packet>
    var free: set<Pid>

    ghost predicate Valid()
      reads this
    {
      && c.Valid() && TableOk(nbrs)
      && (forall a :: a in order <==> a in nbrs)
      && (forall i, j | 0 <= i < j < |order| :: order[i] != order[j])
      && packets.Keys !! free
    }

    constructor (c: Config, g: Globals, pool: set<Pid>)
      requires c.Valid()
      ensures Valid() && this.c == c && this.g == g
      ensures nbrs == map[EbAddress := NewNbr(c, EbAddress), Broadcast := NewNbr(c, Broadcast)]
      ensures packets == map[] && free == pool
    {
      this.c, this.g := c, g;
      order := [EbAddress, Broadcast];
      nbrs := map[EbAddress := NewNbr(c, EbAddress), Broadcast := NewNbr(c, Broadcast)];
      packets, free := map[], pool;
    }

    /** A write through a neighbour pointer. */
    method SetNbr(a: Addr, n: Nbr)
      requires Valid() && a in nbrs && n.ring.Valid() && n.isBroadcast == nbrs[a].isBroadcast
      modifies `nbrs
      ensures Valid() && OnlyAt(old(nbrs), nbrs, a) && nbrs[a] == n
    {
      nbrs := nbrs[a := n];
    }

    method GetNbr(a: Addr) returns (known: bool)
      ensures known <==> !g.locked && a in nbrs
    {
      known := !g.locked && a in nbrs;
    }

    /** `room`: does the neighbour table still have an entry to give? */
    method AddNbr(a: Addr, room: bool) returns (known: bool)
      requires Valid()
      modifies `order, `nbrs, g`locked
      ensures Valid() && g.locked == old(g.locked)
      ensures known <==> !g.locked && (a in old(nbrs) || room)
      ensures nbrs == if known && a !in old(nbrs) then old(nbrs)[a := NewNbr(c, a)] else old(nbrs)
      ensures known && a !in old(nbrs) ==> var n := nbrs[a];
        && n.ring.Contents() == [] && n.ring.room == c.ringRoom
        && n.backoff.window == 0 && n.backoff.exponent == c.minBe
        && n.txLinks == 0 && n.dedicatedTxLinks == 0 && !n.isTimeSource
    {
      known := GetNbr(a);
      if !known {
        var ok := g.GetLock();
        if ok {
          if room {
            order, nbrs := order + [a], nbrs[a := NewNbr(c, a)];
            known := true;
          }
          g.ReleaseLock();
        }
      }
    }

    /** Writes the packet at the peeked index, then commits. */
    method Enqueue(a: Addr, putIndex: nat, p: Pid)
      requires Valid() && a in nbrs && nbrs[a].ring.PeekPut() == Some(putIndex)
      modifies `nbrs
      ensures Valid() && OnlyAt(old(nbrs), nbrs, a)
      ensures nbrs[a] == old(nbrs)[a].(ring := nbrs[a].ring)
      ensures nbrs[a].ring.Contents() == old(nbrs)[a].ring.Contents() + [p]
    {
      WriteInvisible(nbrs[a].ring, p);
      CommitAppends(nbrs[a].ring.Write(putIndex, p));
      SetNbr(a, nbrs[a].(ring := nbrs[a].ring.Write(putIndex, p)));
      SetNbr(a, nbrs[a].(ring := nbrs[a].ring.Commit()));
    }

    function NbrOrNew(t: Table, a: Addr): (n: Nbr)
      requires c.Valid() && TableOk(t)
      ensures n.ring.Valid()
    {
      if a in t then t[a] else NewNbr(c, a)
    }

    /** Is there a neighbour, a place in its ring, and a packet to give? */
    predicate Accepts(t: Table, a: Addr, room: bool, pool: set<Pid>)
      requires c.Valid() && TableOk(t)
    {
      (a in t || room) && NbrOrNew(t, a).ring.PeekPut().Some? && pool != {}
    }

    /** `bufferOk`: did a queue buffer get allocated for the packet's contents? */
    method AddPacket(a: Addr, maxTransmissions: nat, room: bool, bufferOk: bool) returns (r: Option<Pid>)
      requires Valid()
      modifies `order, `nbrs, `packets, `free, g`locked
      ensures Valid() && g.locked == old(g.locked)
      ensures r.Some? <==> Accepts(old(nbrs), a, room, old(free)) && !g.locked && bufferOk
      ensures r.Some? <==>
        && (a in old(nbrs) || room) && !g.locked && bufferOk && old(free) != {}
        && (if a in old(nbrs) then |old(nbrs)[a].ring.Contents()| < old(nbrs)[a].ring.room else 0 < c.ringRoom)
      ensures r == None ==> packets == old(packets) && free == old(free)
      ensures r == None && (g.locked || (a !in old(nbrs) && !room)) ==> nbrs == old(nbrs)
      ensures r == None && !g.locked && (a in old(nbrs) || room) ==> nbrs == old(nbrs)[a := NbrOrNew(old(nbrs), a)]
      ensures r.Some? ==>
        && r.value in old(free) && free == old(free) - {r.value}
        && packets == old(packets)[r.value := Packet(0, maxTransmissions)]
        && nbrs.Keys == old(nbrs).Keys + {a} && forall b | b in old(nbrs) && b != a :: nbrs[b] == old(nbrs)[b]
      ensures r.Some? ==> var n := NbrOrNew(old(nbrs), a);
        && nbrs[a] == n.(ring := nbrs[a].ring)
        && nbrs[a].ring.Contents() == n.ring.Contents() + [r.value]
    {
      r := None;
      if !g.locked {
        var known := AddNbr(a, room);
        if known {
          var putIndex := nbrs[a].ring.PeekPut();
          if putIndex.Some? && free != {} {
            if bufferOk {
              var p := TakePacket(a, maxTransmissions, putIndex.value);
              r := Some(p);
            }
          }
        }
      }
    }

    /** A packet from the pool, initialised and put at the end of the queue. */
    method TakePacket(a: Addr, maxTransmissions: nat, putIndex: nat) returns (p: Pid)
      requires Valid() && a in nbrs && nbrs[a].ring.PeekPut() == Some(putIndex) && free != {}
      modifies `nbrs, `packets, `free
      ensures Valid() && p in old(free) && free == old(free) - {p}
      ensures packets == old(packets)[p := Packet(0, maxTransmissions)]
      ensures OnlyAt(old(nbrs), nbrs, a) && nbrs[a] == old(nbrs)[a].(ring := nbrs[a].ring)
      ensures nbrs[a].ring.Contents() == old(nbrs)[a].ring.Contents() + [p]
    {
      p :| p in free;
      free, packets := free - {p}, packets[p := Packet(0, maxTransmissions)];
      Enqueue(a, putIndex, p);
    }

    method RemovePacketFromQueue(a: Addr) returns (p: Option<Pid>)
      requires Valid() && a in nbrs
      modifies `nbrs
      ensures Valid()
      ensures p == if g.locked then None else old(nbrs[a].ring.Head())
      ensures OnlyAt(old(nbrs), nbrs, a)
      ensures nbrs[a] == if g.locked then old(nbrs)[a] else old(nbrs)[a].(ring := old(nbrs)[a].ring.Get())
    {
      p := None;
      if !g.locked {
        GetDropsHead(nbrs[a].ring);
        p := nbrs[a].ring.Head();
        SetNbr(a, nbrs[a].(ring := nbrs[a].ring.Get()));
      }
    }

    /** The CSMA part of tsch_queue_packet_sent, in the unicast case. */
    method UpdateCsma(a: Addr, link: Link, ok: bool, random: nat)
      requires Valid() && a in nbrs
      modifies `nbrs
      ensures Valid() && OnlyAt(old(nbrs), nbrs, a)
      ensures var n := old(nbrs)[a];
        nbrs[a] == n.(backoff := CsmaAfter(c, n, link.shared, ok, !g.locked && n.ring.get == n.ring.put, random))
    {
      if !nbrs[a].isBroadcast {
        if ok {
          if link.shared || (!g.locked && nbrs[a].ring.get == nbrs[a].ring.put) {
            SetNbr(a, nbrs[a].(backoff := BackoffReset(c)));
          }
        } else if link.shared {
          SetNbr(a, nbrs[a].(backoff := BackoffInc(c, nbrs[a].backoff, random)));
        }
      }
    }

    /** Queue and backoff state after a transmission of `p` to `a` over `link`. */
    method PacketSent(a: Addr, p: Packet, link: Link, ok: bool, random: nat) returns (inQueue: bool)
      requires Valid() && a in nbrs
      modifies `nbrs
      ensures Valid() && inQueue == !Leaves(p, ok)
      ensures OnlyAt(old(nbrs), nbrs, a)
      ensures nbrs[a] == AfterSent(c, old(nbrs)[a], g.locked, Leaves(p, ok), link.shared, ok, random)
      ensures ok && !nbrs[a].isBroadcast && (link.shared || (!g.locked && nbrs[a].ring.Contents() == [])) ==>
        nbrs[a].backoff.exponent == c.minBe && nbrs[a].backoff.window == 0
      ensures !ok && link.shared && !nbrs[a].isBroadcast ==> var b, e := nbrs[a].backoff, old(nbrs)[a].backoff.exponent;
        && b.exponent == (if e < c.maxBe then e + 1 else c.maxBe)
        && b.window == (random / 64) % Pow2(b.exponent) + 1
      ensures nbrs[a].isBroadcast || (!link.shared && (!ok || g.locked || nbrs[a].ring.Contents() != [])) ==>
        nbrs[a].backoff == old(nbrs)[a].backoff
    {
      inQueue := true;
      if ok || p.transmissions >= p.maxTransmissions {
        var removed := RemovePacketFromQueue(a);
        inQueue := false;
      }
      UpdateCsma(a, link, ok, random);
    }

    method GetPacketForNbr(a: Addr, link: Link) returns (p: Option<Pid>)
      requires Valid()
      ensures p == if g.locked || a !in nbrs then None else Ready(nbrs[a], link)
      ensures p.Some? ==>
        !g.locked && a in nbrs && nbrs[a].ring.Contents() != [] && p.value == nbrs[a].ring.Contents()[0]
      ensures p == None && !g.locked && a in nbrs ==>
        (nbrs[a].ring.Contents() == [] || (link.shared && nbrs[a].backoff.window > 0))
    {
      p := None;
      if !g.locked && a in nbrs {
        GetDropsHead(nbrs[a].ring);
        var head := nbrs[a].ring.Head();
        if head.Some? && !(link.shared && nbrs[a].backoff.window != 0) {
          p := head;
        }
      }
    }

    /** Walks the table: the first neighbour without a Tx link of its own that offers a packet. */
    method GetUnicastPacketForAny(link: Link) returns (p: Option<Pid>, n: Option<Addr>)
      requires Valid()
      ensures p.Some? <==> n.Some?
      ensures n == None <==> g.locked || forall a | a in nbrs && Unserved(nbrs, a) :: !Offers(nbrs, a, link)
      ensures n.Some? ==> n.value in nbrs && Unserved(nbrs, n.value) && p == Ready(nbrs[n.value], link)
      ensures n.Some? ==> exists i: nat ::
        && i < |order| && order[i] == n.value
        && forall j | 0 <= j < i :: !(order[j].Node? && nbrs[order[j]].txLinks == 0 && Eligible(nbrs, order[j], link))
    {
      p, n := None, None;
      if !g.locked {
        var i := 0;
        while i < |order|
          invariant 0 <= i <= |order| && p == None && n == None
          invariant forall j | 0 <= j < i :: !(Unserved(nbrs, order[j]) && Offers(nbrs, order[j], link))
        {
          var curr := order[i];
          assert curr in nbrs;
          if !nbrs[curr].isBroadcast && nbrs[curr].txLinks == 0 {
            p := GetPacketForNbr(curr, link);
            if p.Some? {
              n := Some(curr);
              forall j | 0 <= j < i
                ensures !(order[j].Node? && nbrs[order[j]].txLinks == 0 && Eligible(nbrs, order[j], link))
              {
                OffersEligible(nbrs, order[j], link);
              }
              return;
            }
          }
          i := i + 1;
        }
        forall a | a in nbrs && Unserved(nbrs, a) ensures !Offers(nbrs, a, link) {
          var j :| 0 <= j < |order| && order[j] == a;
        }
      }
    }

    /** EB, broadcast or unicast packet for the link, and the neighbour it goes to. */
    method GetPacketAndNeighborForLink(link: Link) returns (p: Option<Pid>, n: Option<Addr>)
      requires Valid()
      ensures Selects(nbrs, g.locked, link, if p.Some? then n else None)
      ensures p.Some? ==> n.Some? && n.value in nbrs && p == Ready(nbrs[n.value], link)
      ensures p.Some? ==> Eligible(nbrs, n.value, link) && p.value == nbrs[n.value].ring.Contents()[0]
      ensures !g.locked && link.tx && link.kind != Normal && Eligible(nbrs, EbAddress, link) ==>
        p.Some? && n == Some(EbAddress)
      ensures !g.locked && link.tx && link.addr != EbAddress ==>
        (p.Some? && n == Some(link.addr) <==>
          && link.kind != AdvertisingOnly && Eligible(nbrs, link.addr, link)
          && !(link.kind != Normal && Eligible(nbrs, EbAddress, link)))
      ensures p.Some? && n.value != EbAddress && n.value != link.addr ==>
        && link.addr == Broadcast && !Eligible(nbrs, Broadcast, link) && n.value.Node? && nbrs[n.value].txLinks == 0
    {
      p, n := SelectForLink(link);
      ServedInOrder(nbrs, g.locked, link, if p.Some? then n else None);
      if p.Some? {
        OffersEligible(nbrs, n.value, link);
      }
    }

    method SelectForLink(link: Link) returns (p: Option<Pid>, n: Option<Addr>)
      requires Valid()
      ensures Selects(nbrs, g.locked, link, if p.Some? then n else None)
      ensures p.Some? ==> n.Some? && n.value in nbrs && p == Ready(nbrs[n.value], link)
    {
      p, n := None, None;
      if link.tx {
        if link.kind == Advertising || link.kind == AdvertisingOnly {
          n := Some(EbAddress);
          p := GetPacketForNbr(EbAddress, link);
        }
        if link.kind != AdvertisingOnly {
          if p == None {
            var known := GetNbr(link.addr);
            n := if known then Some(link.addr) else None;
            p := GetPacketForNbr(link.addr, link);
            if p == None && n == Some(Broadcast) {
              p, n := GetUnicastPacketForAny(link);
            }
          }
        }
      }
    }

    method UpdateBackoffWindow(a: Addr, dest: Addr)
      requires Valid() && a in nbrs
      modifies `nbrs
      ensures Valid() && OnlyAt(old(nbrs), nbrs, a) && nbrs[a] == TickNbr(old(nbrs)[a], a, dest)
    {
      var n := nbrs[a];
      if n.backoff.window != 0
        && ((n.txLinks == 0 && dest == Broadcast) || (n.txLinks > 0 && dest == a))
      {
        SetNbr(a, n.(backoff := n.backoff.(window := n.backoff.window - 1)));
      }
    }

    /** One pass over the table, decrementing the windows a link to `dest` counts for. */
    method UpdateAllBackoffWindows(dest: Addr)
      requires Valid()
      modifies `nbrs
      ensures Valid()
      ensures nbrs == if g.locked then old(nbrs) else TickAll(old(nbrs), dest)
    {
      if !g.locked {
        ghost var t := nbrs;
        var i := 0;
        while i < |order|
          invariant 0 <= i <= |order| && Valid() && nbrs.Keys == t.Keys
          invariant forall a | a in t :: nbrs[a] == if a in order[..i] then TickNbr(t[a], a, dest) else t[a]
        {
          assert order[..i + 1] == order[..i] + [order[i]];
          UpdateBackoffWindow(order[i], dest);
          i := i + 1;
        }
        assert order[..i] == order;
        TickedEach(t, nbrs, dest);
      }
    }

    /** update_link_backoff: refresh after a slot of the link, used or skipped. */
    method UpdateLinkBackoff(link: Option<Link>)
      requires Valid()
      modifies `nbrs
      ensures Valid() && nbrs == LinkTick(old(nbrs), g.locked, link)
    {
      if link.Some? && link.value.tx && link.value.shared {
        UpdateAllBackoffWindows(link.value.addr);
      }
    }

    /** Keeps virtual neighbours, time sources, and those with a Tx link or a queued packet. */
    predicate Unused(a: Addr)
      requires a in nbrs
      reads this
    {
      !nbrs[a].isBroadcast && !nbrs[a].isTimeSource && nbrs[a].txLinks == 0 && nbrs[a].ring.get == nbrs[a].ring.put
    }

    method FreeUnusedNeighbors()
      requires Valid()
      modifies `nbrs, `order
      ensures Valid()
      ensures g.locked ==> nbrs == old(nbrs)
      ensures !g.locked ==> nbrs == map a | a in old(nbrs) && !old(Unused(a)) :: old(nbrs)[a]
      ensures !g.locked ==> forall a | a in old(nbrs) :: a !in nbrs <==>
        && a.Node? && !old(nbrs)[a].isTimeSource && old(nbrs)[a].txLinks == 0 && old(nbrs)[a].ring.Contents() == []
    {
      if !g.locked {
        var all := order;
        var i := 0;
        while i < |all|
          invariant 0 <= i <= |all| && Valid()
          invariant forall a | a in nbrs :: a in old(nbrs) && nbrs[a] == old(nbrs)[a]
          invariant forall j | 0 <= j < i :: all[j] in nbrs <==> !old(Unused(all[j]))
          invariant forall j | i <= j < |all| :: all[j] in nbrs
        {
          var a := all[i];
          if !nbrs[a].isBroadcast && !nbrs[a].isTimeSource && nbrs[a].txLinks == 0
            && nbrs[a].ring.get == nbrs[a].ring.put
          {
            RemoveNbr(a);
          }
          i := i + 1;
        }
        forall a | a in old(nbrs) ensures a in nbrs <==> !old(Unused(a)) {
          var j :| 0 <= j < |all| && all[j] == a;
        }
      }
    }

    method RemoveNbr(a: Addr)
      requires Valid() && a in nbrs && !nbrs[a].isBroadcast
      modifies `nbrs, `order
      ensures Valid() && nbrs == old(nbrs) - {a}
    {
      var k :| 0 <= k < |order| && order[k] == a;
      CutAt(order, k);
      order, nbrs := order[..k] + order[k + 1..], nbrs - {a};
    }
  }

  lemma TickedEach(t: Table, u: Table, dest: Addr)
    requires u.Keys == t.Keys && forall a | a in t :: u[a] == TickNbr(t[a], a, dest)
    ensures u == TickAll(t, dest)
  {
  }

  lemma CutAt(s: seq<Addr>, k: nat)
    requires k < |s| && forall i, j | 0 <= i < j < |s| :: s[i] != s[j]
    ensures var t := s[..k] + s[k + 1..];
      && (forall b :: b in t <==> b in s && b != s[k])
      && (forall i, j | 0 <= i < j < |t| :: t[i] != t[j])
  {
    var t := s[..k] + s[k + 1..];
    assert s == s[..k] + [s[k]] + s[k + 1..];
    forall b | b in s && b != s[k] ensures b in t {
      var i :| 0 <= i < |s| && s[i] == b;
      assert t[if i < k then i else i - 1] == b;
    }
  }
}
