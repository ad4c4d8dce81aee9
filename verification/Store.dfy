/** The schedule store as values: slotframes with their link lists, the free pools, and the
    neighbour counters that mirror the installed Tx links. */
module Store {
  import opened Types
  import opened Rings
  import opened Queue

  ghost predicate NoRepeats<T>(s: seq<T>) {
    forall i, j | 0 <= i < j < |s| :: s[i] != s[j]
  }

  /** The list with the given links taken out, the rest in order. */
  function Without(links: seq<Link>, gone: set<Link>): (r: seq<Link>)
    ensures forall l :: l in r <==> l in links && l !in gone
  {
    if links == [] then []
    else if links[0] in gone then Without(links[1..], gone)
    else [links[0]] + Without(links[1..], gone)
  }

  /** Every slotframe with handle h loses the given links. */
  function Cut(sfs: seq<Slotframe>, h: nat, gone: set<Link>): (r: seq<Slotframe>)
    ensures |r| == |sfs|
  {
    seq(|sfs|, i requires 0 <= i < |sfs| =>
      if sfs[i].handle == h then sfs[i].(links := Without(sfs[i].links, gone)) else sfs[i])
  }

  /** Every slotframe with handle h gets the link at the end of its list. */
  function Append(sfs: seq<Slotframe>, h: nat, l: Link): (r: seq<Slotframe>)
    ensures |r| == |sfs|
  {
    seq(|sfs|, i requires 0 <= i < |sfs| =>
      if sfs[i].handle == h then sfs[i].(links := sfs[i].links + [l]) else sfs[i])
  }

  ghost predicate Has(sfs: seq<Slotframe>, h: nat) {
    exists i :: 0 <= i < |sfs| && sfs[i].handle == h
  }

  /** The links of the slotframe with handle h. */
  function LinksOf(sfs: seq<Slotframe>, h: nat): set<Link> {
    set l | l in Links(sfs) && l.sfHandle == h
  }

  /** Slotframe handles and pool cells are unique, no list repeats a link, and the slotframe
      pool loses and gains nothing. */
  ghost predicate FramesOk(sfs: seq<Slotframe>, freeSfs: set<nat>, sfPool: nat) {
    && WellFormed(sfs)
    && (forall i, j {:trigger sfs[i].handle, sfs[j].handle} | 0 <= i < j < |sfs| :: sfs[i].handle != sfs[j].handle)
    && (forall i, j {:trigger sfs[i].cell, sfs[j].cell} | 0 <= i < j < |sfs| :: sfs[i].cell != sfs[j].cell)
    && (forall i | 0 <= i < |sfs| :: sfs[i].cell !in freeSfs && NoRepeats(sfs[i].links))
    && |sfs| + |freeSfs| == sfPool
  }

  /** Each link has its own pool cell, none of them free; the pool loses and gains nothing. */
  ghost predicate PoolOk(links: set<Link>, freeLinks: set<nat>, linkPool: nat) {
    && (forall l, k {:trigger l.cell, k.cell} | l in links && k in links && l.cell == k.cell :: l == k)
    && (forall l | l in links :: l.cell !in freeLinks)
    && |links| + |freeLinks| == linkPool
  }

  ghost predicate StoreOk(sfs: seq<Slotframe>, freeLinks: set<nat>, freeSfs: set<nat>, linkPool: nat, sfPool: nat) {
    FramesOk(sfs, freeSfs, sfPool) && PoolOk(Links(sfs), freeLinks, linkPool)
  }

  lemma PoolTake(links: set<Link>, freeLinks: set<nat>, linkPool: nat, l: Link)
    requires PoolOk(links, freeLinks, linkPool) && l.cell in freeLinks
    ensures PoolOk(links + {l}, freeLinks - {l.cell}, linkPool) && l !in links
  {
    assert |freeLinks - {l.cell}| == |freeLinks| - 1;
  }

  lemma PoolReturn(links: set<Link>, freeLinks: set<nat>, linkPool: nat, l: Link)
    requires PoolOk(links, freeLinks, linkPool) && l in links
    ensures PoolOk(links - {l}, freeLinks + {l.cell}, linkPool)
  {
    assert |links - {l}| == |links| - 1;
  }

  lemma LinkPlace(sfs: seq<Slotframe>, l: Link) returns (i: nat)
    requires WellFormed(sfs) && l in Links(sfs)
    ensures i < |sfs| && l in sfs[i].links && sfs[i].handle == l.sfHandle && sfs[i].size == l.period
  {
    i := FindLink(sfs, l);
  }

  lemma LinksAfterCut(sfs: seq<Slotframe>, h: nat, gone: set<Link>)
    requires WellFormed(sfs) && forall l | l in gone :: l.sfHandle == h
    ensures Links(Cut(sfs, h, gone)) == Links(sfs) - gone
  {
    var r := Cut(sfs, h, gone);
    forall l | l in Links(r) ensures l in Links(sfs) - gone {
      var a := FindLink(r, l);
      InLinks(sfs, a, l);
    }
    forall l | l in Links(sfs) - gone ensures l in Links(r) {
      var i := LinkPlace(sfs, l);
      assert l in r[i].links;
      InLinks(r, i, l);
    }
  }

  lemma LinksAfterAppend(sfs: seq<Slotframe>, h: nat, l: Link)
    requires Has(sfs, h)
    ensures Links(Append(sfs, h, l)) == Links(sfs) + {l}
  {
    var r := Append(sfs, h, l);
    forall k | k in Links(r) ensures k in Links(sfs) + {l} {
      var a := FindLink(r, k);
      if k in sfs[a].links { InLinks(sfs, a, k); }
    }
    forall k | k in Links(sfs) ensures k in Links(r) {
      var a := FindLink(sfs, k);
      InLinks(r, a, k);
    }
    var i :| 0 <= i < |sfs| && sfs[i].handle == h;
    assert l in r[i].links;
    InLinks(r, i, l);
  }

  lemma {:induction false} WithoutNoRepeats(links: seq<Link>, gone: set<Link>)
    requires NoRepeats(links)
    ensures NoRepeats(Without(links, gone))
  {
    if links != [] {
      assert forall i, j | 0 <= i < j < |links[1..]| :: links[1..][i] == links[i + 1] && links[1..][j] == links[j + 1];
      WithoutNoRepeats(links[1..], gone);
      assert links[0] !in links[1..];
    }
  }

  lemma {:induction false} WithoutTwice(links: seq<Link>, a: set<Link>, b: set<Link>)
    ensures Without(Without(links, a), b) == Without(links, a + b)
  {
    if links != [] {
      WithoutTwice(links[1..], a, b);
      if links[0] !in a {
        var r := Without(links[1..], a);
        assert Without(links, a) == [links[0]] + r && ([links[0]] + r)[1..] == r;
      }
    }
  }

  lemma {:induction false} WithoutNone(links: seq<Link>, gone: set<Link>)
    requires forall l | l in links :: l !in gone
    ensures Without(links, gone) == links
  {
    if links != [] {
      WithoutNone(links[1..], gone);
    }
  }

  lemma CutTwice(sfs: seq<Slotframe>, h: nat, a: set<Link>, b: set<Link>)
    ensures Cut(Cut(sfs, h, a), h, b) == Cut(sfs, h, a + b)
  {
    forall i | 0 <= i < |sfs| ensures Cut(Cut(sfs, h, a), h, b)[i] == Cut(sfs, h, a + b)[i] {
      WithoutTwice(sfs[i].links, a, b);
    }
  }

  lemma CutNone(sfs: seq<Slotframe>, h: nat)
    ensures Cut(sfs, h, {}) == sfs
  {
    forall i | 0 <= i < |sfs| ensures Cut(sfs, h, {})[i] == sfs[i] {
      WithoutNone(sfs[i].links, {});
    }
  }

  lemma CutFrames(sfs: seq<Slotframe>, freeSfs: set<nat>, sfPool: nat, h: nat, gone: set<Link>)
    requires FramesOk(sfs, freeSfs, sfPool)
    ensures FramesOk(Cut(sfs, h, gone), freeSfs, sfPool)
  {
    forall i | 0 <= i < |sfs| ensures NoRepeats(Cut(sfs, h, gone)[i].links) {
      WithoutNoRepeats(sfs[i].links, gone);
    }
  }

  /** Unlinking one link and returning its cell to the pool keeps the store. */
  lemma CutKeepsStore(sfs: seq<Slotframe>, freeLinks: set<nat>, freeSfs: set<nat>, linkPool: nat, sfPool: nat, l: Link)
    requires StoreOk(sfs, freeLinks, freeSfs, linkPool, sfPool) && l in Links(sfs)
    ensures StoreOk(Cut(sfs, l.sfHandle, {l}), freeLinks + {l.cell}, freeSfs, linkPool, sfPool)
    ensures Links(Cut(sfs, l.sfHandle, {l})) == Links(sfs) - {l}
  {
    LinksAfterCut(sfs, l.sfHandle, {l});
    CutFrames(sfs, freeSfs, sfPool, l.sfHandle, {l});
    PoolReturn(Links(sfs), freeLinks, linkPool, l);
  }

  lemma AppendFrames(sfs: seq<Slotframe>, freeSfs: set<nat>, sfPool: nat, i: nat, l: Link)
    requires FramesOk(sfs, freeSfs, sfPool) && i < |sfs| && l !in sfs[i].links
    requires l.sfHandle == sfs[i].handle && l.period == sfs[i].size && l.timeslot < l.period
    ensures FramesOk(Append(sfs, l.sfHandle, l), freeSfs, sfPool)
  {
    var r := Append(sfs, l.sfHandle, l);
    forall j | 0 <= j < |sfs| && j != i ensures r[j] == sfs[j] {
      assert sfs[j].handle != sfs[i].handle by {
        if j < i { assert sfs[j].handle != sfs[i].handle; } else { assert sfs[i].handle != sfs[j].handle; }
      }
    }
  }

  /** Linking a fresh link into an existing slotframe keeps the store. */
  lemma AppendKeepsStore(sfs: seq<Slotframe>, freeLinks: set<nat>, freeSfs: set<nat>,
      linkPool: nat, sfPool: nat, i: nat, l: Link)
    requires StoreOk(sfs, freeLinks, freeSfs, linkPool, sfPool) && i < |sfs| && l.cell in freeLinks
    requires l.sfHandle == sfs[i].handle && l.period == sfs[i].size && l.timeslot < l.period
    ensures StoreOk(Append(sfs, l.sfHandle, l), freeLinks - {l.cell}, freeSfs, linkPool, sfPool)
    ensures Links(Append(sfs, l.sfHandle, l)) == Links(sfs) + {l} && l !in Links(sfs)
  {
    LinksAfterAppend(sfs, l.sfHandle, l);
    PoolTake(Links(sfs), freeLinks, linkPool, l);
    if l in sfs[i].links { InLinks(sfs, i, l); }
    AppendFrames(sfs, freeSfs, sfPool, i, l);
  }

  // ---- Neighbour counters ----

  function TxTo(links: set<Link>, a: Addr): set<Link> {
    set l | l in links && l.tx && l.addr == a
  }

  function DedicatedTo(links: set<Link>, a: Addr): set<Link> {
    set l | l in links && l.tx && l.addr == a && !l.shared
  }

  /** Each neighbour counts its installed Tx links, and the dedicated ones among them; an
      address without a neighbour has no Tx link. */
  ghost predicate Mirrors(links: set<Link>, t: Table) {
    forall a :: MirrorsAt(links, t, a)
  }

  function Counted(n: Nbr, delta: int, dedicated: bool): Nbr {
    n.(txLinks := n.txLinks + delta, dedicatedTxLinks := n.dedicatedTxLinks + if dedicated then delta else 0)
  }

  /** The table after a link of these options to `l.addr` came (delta = 1) or went (delta = -1). */
  function Recount(t: Table, l: Link, delta: int): Table {
    if l.tx && l.addr in t then t[l.addr := Counted(t[l.addr], delta, !l.shared)] else t
  }

  lemma TxToAdd(links: set<Link>, l: Link, a: Addr)
    ensures TxTo(links + {l}, a) == TxTo(links, a) + if l.tx && l.addr == a then {l} else {}
    ensures DedicatedTo(links + {l}, a) == DedicatedTo(links, a) + if l.tx && l.addr == a && !l.shared then {l} else {}
  {
  }

  /** The mirror at one address. */
  ghost predicate MirrorsAt(links: set<Link>, t: Table, a: Addr) {
    if a in t then t[a].txLinks == |TxTo(links, a)| && t[a].dedicatedTxLinks == |DedicatedTo(links, a)|
    else TxTo(links, a) == {}
  }

  lemma MirrorsAddAt(links: set<Link>, t: Table, l: Link, a: Addr)
    requires MirrorsAt(links, t, a) && l !in links && (l.tx ==> l.addr in t)
    ensures MirrorsAt(links + {l}, Recount(t, l, 1), a)
  {
    TxToAdd(links, l, a);
  }

  lemma MirrorsAdd(links: set<Link>, t: Table, l: Link)
    requires Mirrors(links, t) && l !in links && (l.tx ==> l.addr in t)
    ensures Mirrors(links + {l}, Recount(t, l, 1))
  {
    forall a ensures MirrorsAt(links + {l}, Recount(t, l, 1), a) {
      assert MirrorsAt(links, t, a);
      MirrorsAddAt(links, t, l, a);
    }
  }

  lemma MirrorsRemoveAt(links: set<Link>, t: Table, l: Link, a: Addr)
    requires MirrorsAt(links + {l}, t, a) && l !in links && (l.tx ==> l.addr in t)
    ensures MirrorsAt(links, Recount(t, l, -1), a)
  {
    TxToAdd(links, l, a);
  }

  lemma MirrorsRemove(links: set<Link>, t: Table, l: Link)
    requires Mirrors(links, t) && l in links
    ensures Mirrors(links - {l}, Recount(t, l, -1))
  {
    var rest := links - {l};
    assert rest + {l} == links;
    if l.tx {
      InstalledTxLinkKnown(links, t, l);
    }
    forall a ensures MirrorsAt(rest, Recount(t, l, -1), a) {
      assert MirrorsAt(links, t, a);
      MirrorsRemoveAt(rest, t, l, a);
    }
  }

  lemma InstalledTxLinkKnown(links: set<Link>, t: Table, l: Link)
    requires Mirrors(links, t) && l in links && l.tx
    ensures l.addr in t
  {
    assert l in TxTo(links, l.addr);
    assert MirrorsAt(links, t, l.addr);
  }

  /** Freeing neighbours that count no Tx link keeps the mirror. */
  lemma MirrorsFreed(links: set<Link>, t: Table, u: Table)
    requires Mirrors(links, t) && u.Keys <= t.Keys && forall a | a in u :: u[a] == t[a]
    requires forall a | a in t && a !in u :: t[a].txLinks == 0
    ensures Mirrors(links, u)
  {
    forall a ensures MirrorsAt(links, u, a) {
      assert MirrorsAt(links, t, a);
    }
  }

  /** What the counters say of an installed Tx link: its neighbour, if any, has one. */
  lemma InstalledTxLinkCounts(links: set<Link>, t: Table, l: Link)
    requires Mirrors(links, t) && l in links && l.tx
    ensures l.addr in t && t[l.addr].txLinks > 0
  {
    assert l in TxTo(links, l.addr);
    assert MirrorsAt(links, t, l.addr);
  }

  /** A Tx link whose neighbour could not be added is not counted. */
  lemma UncountedLink(links: set<Link>, t: Table, l: Link)
    requires l in links && l.tx && l.addr !in t
    ensures !Mirrors(links, t)
  {
    assert l in TxTo(links, l.addr);
    assert !MirrorsAt(links, t, l.addr);
  }

  /** An installed unicast or broadcast link counts a neighbour's window down exactly when it
      could have served it. */
  lemma InstalledRefreshAgrees(links: set<Link>, t: Table, link: Link, a: Addr)
    requires TableOk(t) && Mirrors(links, t) && link in links
    requires a in t && !t[a].isBroadcast && t[a].backoff.window != 0
    requires link.tx && link.shared && link.kind != AdvertisingOnly
    ensures LinkTick(t, false, Some(link))[a].backoff.window == t[a].backoff.window - 1
      <==> Selects(OnlyReady(t, a), false, link, Some(a))
  {
    InstalledTxLinkCounts(links, t, link);
    assert MirrorsAt(links, t, a);
    RefreshAgreesWithSelection(t, link, a);
  }
}
