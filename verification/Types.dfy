/** The entities shared by the schedule, the queues and the slot operation. */
module Types {

  datatype Option<+T> = None | Some(value: T)

  /** Link-layer addresses: broadcast, the one that names the EB queue, and the rest. */
  datatype Addr = Broadcast | EbAddress | Node(id: nat)

  datatype LinkType = Normal | Advertising | AdvertisingOnly

  /** An installed link. `cell` is the pool cell it occupies (its pointer). `period`
      is the size of the slotframe that `sfHandle` names; the source reads it there. */
  datatype Link = Link(
    cell: nat, handle: nat,
    tx: bool, rx: bool, shared: bool, kind: LinkType, addr: Addr,
    sfHandle: nat, period: nat, timeslot: nat, channelOffset: nat)

  datatype Slotframe = Slotframe(cell: nat, handle: nat, size: nat, links: seq<Link>)

  /** All links installed in the slotframes. */
  function Links(sfs: seq<Slotframe>): set<Link> {
    if sfs == [] then {} else Listed(sfs[0].links) + Links(sfs[1..])
  }

  function Listed(links: seq<Link>): set<Link> {
    set l | l in links
  }

  lemma ListedNext(links: seq<Link>, k: nat)
    requires k < |links|
    ensures Listed(links[..k + 1]) == Listed(links[..k]) + {links[k]}
  {
    assert links[..k + 1] == links[..k] + [links[k]];
  }

  lemma {:induction false} FindLink(sfs: seq<Slotframe>, l: Link) returns (i: nat)
    requires l in Links(sfs)
    ensures i < |sfs| && l in sfs[i].links
  {
    if l in sfs[0].links {
      i := 0;
    } else {
      i := FindLink(sfs[1..], l);
      i := i + 1;
    }
  }

  lemma {:induction false} InLinks(sfs: seq<Slotframe>, i: nat, l: Link)
    requires i < |sfs| && l in sfs[i].links
    ensures l in Links(sfs)
  {
    if i > 0 {
      InLinks(sfs[1..], i - 1, l);
    }
  }

  /** Sizes are non-zero 16-bit numbers; links carry their slotframe's handle and size
      and a timeslot inside it. */
  predicate WellFormed(sfs: seq<Slotframe>) {
    forall i {:trigger sfs[i]} | 0 <= i < |sfs| ::
      0 < sfs[i].size < 0x1_0000 &&
      forall l | l in sfs[i].links ::
        l.sfHandle == sfs[i].handle && l.period == sfs[i].size && l.timeslot < l.period
  }

  /** Is the link scheduled at absolute slot number t? */
  predicate ActiveAt(l: Link, t: nat) {
    l.period > 0 && t % l.period == l.timeslot
  }
}
