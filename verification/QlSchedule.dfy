/** The two-slotframe schedule of the QL-TSCH node, as values: what it contains, what the
    lookup returns on it, and how often its Tx cell is pre-empted. */
module QlSchedules {
  import opened Types
  import opened Lookup
  import opened NumberTheory
  import opened Queue
  import opened Store

  /** Slotframe lengths: broadcast p, unicast q. */
  datatype Lengths = Lengths(p: nat, q: nat) {
    predicate Valid() { 0 < p < 0x1_0000 && 0 < q < 0x1_0000 }
  }

  /** The lengths of the project configuration. */
  const PROJECT_LENGTHS := Lengths(7, 15)

  predicate BroadcastCell(n: Lengths, b: Link) {
    && b.tx && b.rx && b.shared && b.kind == Advertising && b.addr == Broadcast
    && b.sfHandle == 0 && b.period == n.p && b.timeslot == 0 && b.channelOffset == 0
  }

  /** The unicast cell of timeslot i: Tx if `tx`, otherwise Rx. */
  predicate UnicastCell(n: Lengths, l: Link, i: nat, tx: bool) {
    && l.tx == tx && l.rx == !tx && l.shared && l.kind == Normal && l.addr == Broadcast
    && l.sfHandle == 1 && l.period == n.q && l.timeslot == i && l.channelOffset == 0
  }

  /** The installed links are one broadcast cell and one unicast cell for each of the first
      timeslots, `cells`; the Tx cells among these are those of timeslots x and y. */
  ghost predicate Installed(n: Lengths, links: set<Link>, b: Link, cells: seq<Link>, x: nat, y: nat) {
    && n.Valid() && BroadcastCell(n, b) && |cells| <= n.q
    && (forall i | 0 <= i < |cells| :: UnicastCell(n, cells[i], i, i == x || i == y))
    && links == {b} + Listed(cells)
  }

  /** The schedule between two updates: one cell per timeslot, the single Tx cell at the
      current action. */
  ghost predicate QlOk(n: Lengths, links: set<Link>, b: Link, cells: seq<Link>, action: nat) {
    Installed(n, links, b, cells, action, action) && |cells| == n.q && action < n.q
  }

  /** The next timeslot gets its first cell. */
  lemma AppendCell(n: Lengths, links: set<Link>, b: Link, cells: seq<Link>, x: nat, y: nat, l: Link)
    requires Installed(n, links, b, cells, x, y) && |cells| < n.q
    requires UnicastCell(n, l, |cells|, |cells| == x || |cells| == y)
    ensures Installed(n, links + {l}, b, cells + [l], x, y)
  {
    assert Listed(cells + [l]) == Listed(cells) + {l};
  }

  /** A Tx cell put at timeslot i joins the one at `other`; an Rx cell put there leaves that one
      alone. Nothing else changes. */
  lemma ReplaceCell(n: Lengths, links: set<Link>, b: Link, cells: seq<Link>, i: nat, l: Link, tx: bool, other: nat)
    requires Installed(n, links, b, cells, other, if tx then other else i) && other != i && i < |cells|
    requires UnicastCell(n, l, i, tx)
    ensures Installed(n, links - {cells[i]} + {l}, b, cells[i := l], if tx then i else other, other)
  {
    var r := cells[i := l];
    assert UnicastCell(n, cells[i], i, !tx);
    forall k ensures k in links - {cells[i]} + {l} <==> k in {b} + Listed(r) {
      if k in cells {
        var j :| 0 <= j < |cells| && cells[j] == k;
        assert UnicastCell(n, k, j, j == other || (j == i && !tx));
        assert r[j] == if j == i then l else k;
      }
      if k in r {
        var j :| 0 <= j < |r| && r[j] == k;
        assert j != i ==> cells[j] == k && UnicastCell(n, k, j, j == other || (j == i && !tx));
      }
      assert r[i] == l;
    }
  }

  lemma OneCellPerSlot(n: Lengths, links: set<Link>, b: Link, cells: seq<Link>, x: nat, y: nat, i: nat)
    requires Installed(n, links, b, cells, x, y) && i < |cells|
    ensures (set l | l in links && l.sfHandle == 1 && l.timeslot == i && l.channelOffset == 0) == {cells[i]}
  {
    assert UnicastCell(n, cells[i], i, i == x || i == y);
    forall l | l in links && l.sfHandle == 1 && l.timeslot == i ensures l == cells[i] {
      var j :| 0 <= j < |cells| && cells[j] == l;
      assert UnicastCell(n, l, j, j == x || j == y);
    }
  }

  lemma {:induction false} CellsFit(b: Link, cells: seq<Link>)
    ensures |{b} + Listed(cells)| <= 1 + |cells|
  {
    if cells != [] {
      var last := |cells| - 1;
      CellsFit(b, cells[..last]);
      ListedNext(cells, last);
      assert cells[..last + 1] == cells;
      assert {b} + Listed(cells) == {b} + Listed(cells[..last]) + {cells[last]};
    }
  }

  /** In slot t only the broadcast cell and the slot's own unicast cell can be active. */
  lemma ActiveCells(n: Lengths, links: set<Link>, b: Link, cells: seq<Link>, action: nat, t: nat)
    requires QlOk(n, links, b, cells, action)
    ensures b in links && (ActiveAt(b, t) <==> t % n.p == 0)
    ensures var here := cells[t % n.q];
      here in links && ActiveAt(here, t) && UnicastCell(n, here, t % n.q, t % n.q == action)
    ensures forall l | l in links && ActiveAt(l, t) :: l == b || l == cells[t % n.q]
  {
    assert cells[t % n.q] in cells;
    forall l | l in links && l != b && ActiveAt(l, t) ensures l == cells[t % n.q] {
      var i :| 0 <= i < |cells| && cells[i] == l;
      assert UnicastCell(n, l, i, i == action);
    }
  }

  /** On this schedule every slot is used: by the broadcast cell when its slotframe is at slot
      0, and by the unicast cell of the slot otherwise. */
  lemma QlLookup(n: Lengths, links: set<Link>, b: Link, cells: seq<Link>, action: nat,
      packets: map<Addr, nat>, asn: nat, best: Option<Link>, offset: nat, backup: Option<Link>)
    requires QlOk(n, links, b, cells, action) && NextLink(packets, links, asn, best, offset, backup)
    ensures offset == 1
    ensures best == Some(if (asn + 1) % n.p == 0 then b else cells[(asn + 1) % n.q])
  {
    ActiveCells(n, links, b, cells, action, asn + 1);
    var here := cells[(asn + 1) % n.q];
    assert best.Some? && !(asn < asn + 1 < asn + offset);
  }

  /** Exactly two installed links transmit to the broadcast address. */
  lemma QlCountsTwo(n: Lengths, links: set<Link>, b: Link, cells: seq<Link>, action: nat, t: Table)
    requires QlOk(n, links, b, cells, action) && TableOk(t) && Mirrors(links, t)
    ensures t[Broadcast].txLinks == 2 && t[Broadcast].dedicatedTxLinks == 0
  {
    var x := cells[action];
    assert MirrorsAt(links, t, Broadcast);
    assert UnicastCell(n, x, action, true);
    forall l ensures l in TxTo(links, Broadcast) <==> l == b || l == x {
      if l in links && l != b {
        var i :| 0 <= i < |cells| && cells[i] == l;
        assert UnicastCell(n, l, i, i == action);
      }
    }
    assert TxTo(links, Broadcast) == {b, x};
    forall l | l in links ensures l.shared {
      if l != b {
        var i :| 0 <= i < |cells| && cells[i] == l;
        assert UnicastCell(n, l, i, i == action);
      }
    }
    assert DedicatedTo(links, Broadcast) == {};
  }

  // ---- What the node does in a slot ----

  /** The link of slot t. */
  function CellOf(n: Lengths, b: Link, cells: seq<Link>, t: nat): Link
    requires n.Valid() && |cells| == n.q
  {
    if t % n.p == 0 then b else cells[t % n.q]
  }

  /** Beacons go out in broadcast slots only, and there before anything else; broadcast packets, and
      then those of any neighbour without a Tx link, in broadcast slots and in the Tx slot. */
  lemma NodeServes(n: Lengths, links: set<Link>, b: Link, cells: seq<Link>, action: nat, t: nat,
      u: Table, r: Option<Addr>)
    requires QlOk(n, links, b, cells, action) && TableOk(u) && Selects(u, false, CellOf(n, b, cells, t), r)
    ensures var l := CellOf(n, b, cells, t);
      && (r == Some(EbAddress) <==> t % n.p == 0 && Eligible(u, EbAddress, l))
      && (r.Some? ==> t % n.p == 0 || t % n.q == action)
      && (r == Some(Broadcast) ==> Eligible(u, Broadcast, l))
      && (r.Some? && r.value.Node? ==> !Eligible(u, Broadcast, l) && u[r.value].txLinks == 0)
      && ((t % n.p == 0 || t % n.q == action) && r == None ==>
            && !Eligible(u, Broadcast, l)
            && forall a | a in u && a.Node? && u[a].txLinks == 0 :: !Eligible(u, a, l))
  {
    ActiveCells(n, links, b, cells, action, t);
    ServedInOrder(u, false, CellOf(n, b, cells, t), r);
  }

  /** Without a packet the node listens in every slot but the Tx slot, when that is not also the
      broadcast slot. */
  lemma NodeListens(n: Lengths, links: set<Link>, b: Link, cells: seq<Link>, action: nat,
      packets: map<Addr, nat>, asn: nat, best: Link, offset: nat, backup: Option<Link>)
    requires QlOk(n, links, b, cells, action) && NextLink(packets, links, asn, Some(best), offset, backup)
    ensures Executed(best, backup, false).rx <==> (asn + 1) % n.p == 0 || (asn + 1) % n.q != action
  {
    QlLookup(n, links, b, cells, action, packets, asn, Some(best), offset, backup);
    ActiveCells(n, links, b, cells, action, asn + 1);
  }

  // ---- Windows of p * q slots ----

  /** Can the lookup from the slot before choose link l for slot t? Packet counts are free. */
  ghost predicate Chosen(links: set<Link>, t: nat, l: Link) {
    t > 0 && ChosenFrom(links, t - 1, l)
  }

  ghost predicate ChosenFrom(links: set<Link>, asn: nat, l: Link) {
    exists packets, backup :: NextLink(packets, links, asn, Some(l), 1, backup)
  }

  /** For each slot there is one best link: the broadcast cell when its slotframe is at slot 0,
      the slot's own unicast cell otherwise. */
  lemma ChosenIff(n: Lengths, links: set<Link>, b: Link, cells: seq<Link>, action: nat, t: nat, l: Link)
    requires QlOk(n, links, b, cells, action) && t > 0
    ensures Chosen(links, t, l) <==> l == if t % n.p == 0 then b else cells[t % n.q]
  {
    var best := if t % n.p == 0 then b else cells[t % n.q];
    if Chosen(links, t, l) {
      var packets, backup :| NextLink(packets, links, t - 1, Some(l), 1, backup);
      QlLookup(n, links, b, cells, action, packets, t - 1, Some(l), 1, backup);
    }
    if l == best {
      BestIsNext(n, links, b, cells, action, t);
    }
  }

  lemma BestIsNext(n: Lengths, links: set<Link>, b: Link, cells: seq<Link>, action: nat, t: nat)
    requires QlOk(n, links, b, cells, action) && t > 0
    ensures Chosen(links, t, if t % n.p == 0 then b else cells[t % n.q])
  {
    ActiveCells(n, links, b, cells, action, t);
    var here := cells[t % n.q];
    if t % n.p == 0 {
      assert NextLink(map[], links, t - 1, Some(b), 1, if here.rx then Some(here) else None);
    } else {
      assert NextLink(map[], links, t - 1, Some(here), 1, None);
    }
  }

  function Occurrences(a: nat, n: Lengths, action: nat): set<nat> {
    set t | a <= t < a + n.p * n.q && n.q > 0 && t % n.q == action
  }

  function PreEmpted(a: nat, n: Lengths, action: nat): set<nat> {
    set t | t in Occurrences(a, n, action) && n.p > 0 && t % n.p == 0
  }

  /** The slots of the window in which the Tx cell is active. */
  function Due(a: nat, n: Lengths, cell: Link): set<nat> {
    set t | a <= t < a + n.p * n.q && ActiveAt(cell, t)
  }

  /** Those for which the lookup does not choose it. */
  ghost function Lost(a: nat, n: Lengths, links: set<Link>, cell: Link): set<nat> {
    set t | t in Due(a, n, cell) && !Chosen(links, t, cell)
  }

  function First(a: nat, q: nat, action: nat): nat
    requires q > 0
  {
    a + (action - a) % q
  }

  lemma FirstIsFirst(a: nat, q: nat, action: nat)
    requires action < q
    ensures a <= First(a, q, action) < a + q && First(a, q, action) % q == action
  {
    ModAdd(action - a, a, q);
    ModUnique(action, q, 0, action);
  }

  lemma SlotInWindow(a: nat, n: Lengths, action: nat, k: nat)
    requires n.Valid() && action < n.q && k < n.p
    ensures Slot(First(a, n.q, action), k, n.q) in Occurrences(a, n, action)
  {
    var t0 := First(a, n.q, action);
    FirstIsFirst(a, n.q, action);
    SamePhase(t0, k, n.q);
    MultipleMono(k + 1, n.p, n.q);
    Distribute(k, 1, n.q);
  }

  lemma OccurrenceIsSlot(a: nat, n: Lengths, action: nat, t: nat) returns (k: nat)
    requires n.Valid() && t in Occurrences(a, n, action)
    ensures k < n.p && t == Slot(First(a, n.q, action), k, n.q)
  {
    var t0 := First(a, n.q, action);
    FirstIsFirst(a, n.q, action);
    ModEqual(t, t0, n.q);
    var d := (t - t0) / n.q;
    assert t - t0 == d * n.q;
    if d < 0 {
      MultipleMono(d, -1, n.q);
    }
    if d >= n.p {
      MultipleMono(n.p, d, n.q);
    }
    k := d;
  }

  function Slot(t0: nat, k: nat, q: nat): nat {
    t0 + k * q
  }

  lemma OccurrencesCount(a: nat, n: Lengths, action: nat)
    requires n.Valid() && action < n.q && Coprime(n.p, n.q)
    ensures |Occurrences(a, n, action)| == n.p
    ensures |PreEmpted(a, n, action)| == 1
  {
    var t0 := First(a, n.q, action);
    var s := seq(n.p, k requires 0 <= k => Slot(t0, k, n.q));
    forall i, j | 0 <= i < j < |s| ensures s[i] != s[j] {
      MultipleAtLeast(j - i, n.q);
      Distribute(i, j - i, n.q);
    }
    DistinctSize(s);
    forall t ensures t in Elements(s) <==> t in Occurrences(a, n, action) {
      if t in Occurrences(a, n, action) {
        var k := OccurrenceIsSlot(a, n, action, t);
        assert s[k] == t;
      } else if k :| 0 <= k < |s| && s[k] == t {
        SlotInWindow(a, n, action, k);
      }
    }
    assert Elements(s) == Occurrences(a, n, action);
    var k := OrbitVisitsAll(n.p, n.q, t0, 0);
    SlotInWindow(a, n, action, k);
    forall t | t in PreEmpted(a, n, action) ensures t == Slot(t0, k, n.q) {
      var j := OccurrenceIsSlot(a, n, action, t);
      assert Residue(n.p, n.q, t0, j) == 0;
    }
    assert PreEmpted(a, n, action) == {Slot(t0, k, n.q)};
  }

  /** Coprime lengths: in any p * q consecutive slots the Tx cell comes up p times, and exactly
      once the lookup chooses another link, the broadcast cell, for its slot. */
  lemma TxCellPreEmptedOnce(a: nat, n: Lengths, links: set<Link>, b: Link, cells: seq<Link>, action: nat)
    requires QlOk(n, links, b, cells, action) && Coprime(n.p, n.q) && a > 0
    ensures |Due(a, n, cells[action])| == n.p
    ensures |Lost(a, n, links, cells[action])| == 1
    ensures forall t | t in Lost(a, n, links, cells[action]) :: Chosen(links, t, b)
  {
    OccurrencesCount(a, n, action);
    var x := cells[action];
    assert UnicastCell(n, x, action, true);
    assert BroadcastCell(n, b);
    forall t | a <= t < a + n.p * n.q && t % n.q == action
      ensures Chosen(links, t, x) <==> t % n.p != 0
      ensures t % n.p == 0 ==> Chosen(links, t, b)
    {
      ChosenIff(n, links, b, cells, action, t, x);
      ChosenIff(n, links, b, cells, action, t, b);
    }
    assert Due(a, n, x) == Occurrences(a, n, action);
    assert Lost(a, n, links, x) == PreEmpted(a, n, action);
  }

  /** With the configured lengths: 7 times in 105 slots, once lost to the broadcast cell. */
  lemma ProjectTxCell(a: nat, links: set<Link>, b: Link, cells: seq<Link>, action: nat)
    requires QlOk(PROJECT_LENGTHS, links, b, cells, action) && a > 0
    ensures |set t | a <= t < a + 105 && ActiveAt(cells[action], t)| == 7
    ensures |set t | a <= t < a + 105 && ActiveAt(cells[action], t) && !Chosen(links, t, cells[action])| == 1
  {
    ProjectLengthsCoprime();
    TxCellPreEmptedOnce(a, PROJECT_LENGTHS, links, b, cells, action);
    var x := cells[action];
    assert Due(a, PROJECT_LENGTHS, x) == set t | a <= t < a + 105 && ActiveAt(x, t);
    assert Lost(a, PROJECT_LENGTHS, links, x) == set t | a <= t < a + 105 && ActiveAt(x, t) && !Chosen(links, t, x);
  }

  /** The configured lengths are coprime. */
  lemma ProjectLengthsCoprime()
    ensures Coprime(PROJECT_LENGTHS.p, PROJECT_LENGTHS.q)
  {
    forall d: nat | d > 0 && Divides(d, 7) && Divides(d, 15) ensures d == 1 {
      DividesScaled(d, 7, -2);
      DividesSum(d, 15, 7 * -2);
      if d > 1 {
        ModUnique(1, d, 0, 1);
      }
    }
  }
}
