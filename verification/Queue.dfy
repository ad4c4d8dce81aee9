/** Per-neighbour queues: which packet a link may send, what a transmission does to the
    neighbour, and the exponential backoff on shared links (section 6.2.5.3 of
    IEEE Std 802.15.4-2015). */
module Queue {
  import opened Types
  import opened Rings
  import NumberTheory

  /** Backoff limits and queue geometry; all left symbolic. */
  datatype Config = Config(minBe: nat, maxBe: nat, ringSize: nat, ringRoom: nat) {
    predicate Valid() {
      minBe <= maxBe && 0 < ringRoom <= ringSize
    }
  }

  datatype Backoff = Backoff(exponent: nat, window: nat)

  datatype Nbr = Nbr(isBroadcast: bool, isTimeSource: bool, backoff: Backoff,
                     txLinks: int, dedicatedTxLinks: int, ring: Ring)

  datatype Packet = Packet(transmissions: nat, maxTransmissions: nat)

  type Table = map<Addr, Nbr>

  /** Virtual neighbours, and only those, are marked broadcast; both are always present. */
  ghost predicate TableOk(t: Table) {
    && Broadcast in t && EbAddress in t
    && forall a | a in t :: t[a].ring.Valid() && (t[a].isBroadcast <==> a == Broadcast || a == EbAddress)
  }

  function NewNbr(c: Config, a: Addr): (n: Nbr)
    requires c.Valid()
    ensures n.ring.Valid() && n.ring.Contents() == []
  {
    Nbr(a == EbAddress || a == Broadcast, false, BackoffReset(c), 0, 0, EmptyRing(c.ringSize, c.ringRoom))
  }

  // ---- Backoff ----

  function Pow2(e: nat): (r: nat)
    ensures r > 0
  {
    if e == 0 then 1 else 2 * Pow2(e - 1)
  }

  function BackoffReset(c: Config): Backoff {
    Backoff(c.minBe, 0)
  }

  /** Next exponent, and a window of one more than the draw within it. */
  function BackoffInc(c: Config, b: Backoff, random: nat): Backoff {
    var e := if b.exponent + 1 < c.maxBe then b.exponent + 1 else c.maxBe;
    Backoff(e, Draw(e, random) + 1)
  }

  /** The random draw, its six low bits ignored. */
  function Draw(exponent: nat, random: nat): nat {
    (random / 64) % Pow2(exponent)
  }

  /** Every wait within the exponent is drawn, by 64 numbers in a row. */
  lemma DrawTakesAll(exponent: nat, wait: nat, low: nat)
    requires wait < Pow2(exponent) && low < 64
    ensures Draw(exponent, 64 * wait + low) == wait
  {
    assert (64 * wait + low) / 64 == wait;
    NumberTheory.ModUnique(wait, Pow2(exponent), 0, wait);
  }

  lemma {:induction false} Pow2Mono(a: nat, b: nat)
    requires a <= b
    ensures Pow2(a) <= Pow2(b)
  {
    if a < b {
      Pow2Mono(a, b - 1);
    }
  }

  /** The exponent is within its limits, the window at most 2^exponent, or just 2^maxBe if not
      `strict`; virtual neighbours never back off. */
  predicate BackoffFits(c: Config, n: Nbr, strict: bool) {
    && c.minBe <= n.backoff.exponent <= c.maxBe
    && n.backoff.window <= Pow2(if strict then n.backoff.exponent else c.maxBe)
    && (n.isBroadcast ==> n.backoff == BackoffReset(c))
  }

  /** Does an update for links to `dest` count for neighbour `a`? */
  predicate Ticks(n: Nbr, a: Addr, dest: Addr) {
    (n.txLinks == 0 && dest == Broadcast) || (n.txLinks > 0 && dest == a)
  }

  function TickNbr(n: Nbr, a: Addr, dest: Addr): Nbr {
    if n.backoff.window != 0 && Ticks(n, a, dest)
    then n.(backoff := n.backoff.(window := n.backoff.window - 1))
    else n
  }

  function TickAll(t: Table, dest: Addr): Table {
    map a | a in t :: TickNbr(t[a], a, dest)
  }

  /** Backoff refresh after a slot of the given link, used or skipped. */
  function LinkTick(t: Table, locked: bool, link: Option<Link>): Table {
    if link.Some? && link.value.tx && link.value.shared && !locked then TickAll(t, link.value.addr) else t
  }

  // ---- Selection ----

  /** The packet a neighbour offers to a link: its head, unless it backs off on a shared link. */
  function Ready(n: Nbr, link: Link): Option<Pid>
    requires n.ring.Valid()
  {
    if link.shared && n.backoff.window != 0 then None else n.ring.Head()
  }

  predicate Offers(t: Table, a: Addr, link: Link)
    requires a in t ==> t[a].ring.Valid()
  {
    a in t && Ready(t[a], link).Some?
  }

  /** May a broadcast link serve this neighbour? */
  predicate Unserved(t: Table, a: Addr)
    requires a in t
  {
    !t[a].isBroadcast && t[a].txLinks == 0
  }

  /** `r` names the neighbour whose packet the link sends now, None when there is none. */
  ghost predicate Selects(t: Table, locked: bool, link: Link, r: Option<Addr>)
    requires TableOk(t)
  {
    if locked || !link.tx then r == None
    else if link.kind != Normal && Offers(t, EbAddress, link) then r == Some(EbAddress)
    else if link.kind == AdvertisingOnly then r == None
    else if Offers(t, link.addr, link) then r == Some(link.addr)
    else if link.addr != Broadcast then r == None
    else
      match r
      case None => forall a | a in t && Unserved(t, a) :: !Offers(t, a, link)
      case Some(a) => a in t && Unserved(t, a) && Offers(t, a, link)
  }

  // ---- After a transmission ----

  /** A sent packet leaves its queue on success or when its attempts are used up. */
  predicate Leaves(p: Packet, ok: bool) {
    ok || p.transmissions >= p.maxTransmissions
  }

  /** Backoff state of the neighbour after the outcome; `empty`: nothing is left to send. */
  function CsmaAfter(c: Config, n: Nbr, shared: bool, ok: bool, empty: bool, random: nat): Backoff {
    if n.isBroadcast then n.backoff
    else if ok then if shared || empty then BackoffReset(c) else n.backoff
    else if shared then BackoffInc(c, n.backoff, random)
    else n.backoff
  }

  function AfterSent(c: Config, n: Nbr, locked: bool, leaves: bool, shared: bool, ok: bool, random: nat): Nbr
    requires n.ring.Valid()
  {
    var m := if leaves && !locked then n.(ring := n.ring.Get()) else n;
    m.(backoff := CsmaAfter(c, m, shared, ok, !locked && m.ring.get == m.ring.put, random))
  }

  // ---- Who is served ----

  /** A queue with a packet, and no backoff in its way on a shared link. */
  predicate Eligible(t: Table, a: Addr, link: Link)
    requires a in t ==> t[a].ring.Valid()
  {
    a in t && t[a].ring.Contents() != [] && (link.shared ==> t[a].backoff.window == 0)
  }

  lemma OffersEligible(t: Table, a: Addr, link: Link)
    requires TableOk(t)
    ensures Offers(t, a, link) <==> Eligible(t, a, link)
    ensures Eligible(t, a, link) ==> Ready(t[a], link) == Some(t[a].ring.Contents()[0])
  {
    if a in t {
      GetDropsHead(t[a].ring);
    }
  }

  /** The order of service: the EB queue first on advertising links, then the link's own neighbour,
      then, on broadcast links, any neighbour without a Tx link of its own. */
  lemma ServedInOrder(t: Table, locked: bool, link: Link, r: Option<Addr>)
    requires TableOk(t) && Selects(t, locked, link, r)
    ensures locked || !link.tx ==> r == None
    ensures !locked && link.tx && link.kind != Normal && Eligible(t, EbAddress, link) ==> r == Some(EbAddress)
    ensures !locked && link.tx && link.addr != EbAddress ==>
      (r == Some(link.addr) <==>
        && link.kind != AdvertisingOnly && Eligible(t, link.addr, link)
        && !(link.kind != Normal && Eligible(t, EbAddress, link)))
    ensures r.Some? && r.value != EbAddress && r.value != link.addr ==>
      && link.addr == Broadcast && link.kind != AdvertisingOnly && !Eligible(t, Broadcast, link)
      && !(link.kind != Normal && Eligible(t, EbAddress, link))
      && r.value.Node? && Eligible(t, r.value, link) && t[r.value].txLinks == 0
    ensures r == None && !locked && link.tx && link.kind != AdvertisingOnly ==>
      && !Eligible(t, link.addr, link)
      && (link.addr == Broadcast ==> forall a | a in t && a.Node? && t[a].txLinks == 0 :: !Eligible(t, a, link))
    ensures r.Some? ==> Eligible(t, r.value, link)
    ensures r == Some(EbAddress) ==> link.kind != Normal || link.addr == EbAddress
  {
    OffersEligible(t, EbAddress, link);
    OffersEligible(t, link.addr, link);
    if r.Some? {
      OffersEligible(t, r.value, link);
    }
    forall a | a in t ensures Offers(t, a, link) <==> Eligible(t, a, link) {
      OffersEligible(t, a, link);
    }
  }

  // ---- Properties ----

  /** Any transmission outcome and any refresh keep the exponent within its limits, the window
      within 2^exponent, and virtual neighbours out of backoff. */
  lemma BackoffPreserved(c: Config, n: Nbr, a: Addr, dest: Addr, locked: bool, leaves: bool,
      shared: bool, ok: bool, random: nat, strict: bool)
    requires c.Valid() && n.ring.Valid() && BackoffFits(c, n, strict)
    ensures BackoffFits(c, TickNbr(n, a, dest), strict)
    ensures BackoffFits(c, AfterSent(c, n, locked, leaves, shared, ok, random), strict)
  {
    Pow2Mono(BackoffInc(c, n.backoff, random).exponent, c.maxBe);
  }

  /** Whatever a shared link sends is its neighbour's head, and that neighbour has window 0. */
  lemma SharedSendsOnlyAfterBackoff(t: Table, locked: bool, link: Link, a: Addr)
    requires TableOk(t) && Selects(t, locked, link, Some(a))
    ensures a in t && !locked && link.tx && t[a].ring.Contents() != []
    ensures Ready(t[a], link) == Some(t[a].ring.Contents()[0])
    ensures link.shared ==> t[a].backoff.window == 0
  {
    GetDropsHead(t[a].ring);
  }

  /** The table in which `a` alone has a packet and is not backing off. */
  function OnlyReady(t: Table, a: Addr): Table {
    map b | b in t ::
      if b == a then t[b].(ring := Ring([0], 0, 1, 1), backoff := t[b].backoff.(window := 0))
      else t[b].(ring := Ring([0], 0, 0, 1))
  }

  /** The refresh counts down a neighbour exactly when the link could have served it.
      `link.addr == a ==> txLinks > 0` is what the neighbour counters say of an installed Tx link. */
  lemma RefreshAgreesWithSelection(t: Table, link: Link, a: Addr)
    requires TableOk(t) && a in t && !t[a].isBroadcast && t[a].backoff.window != 0
    requires link.tx && link.shared && link.kind != AdvertisingOnly
    requires t[a].txLinks >= 0 && (link.addr == a ==> t[a].txLinks > 0)
    ensures LinkTick(t, false, Some(link))[a].backoff.window == t[a].backoff.window - 1
      <==> Selects(OnlyReady(t, a), false, link, Some(a))
  {
    var u := OnlyReady(t, a);
    assert TableOk(u);
    assert Offers(u, a, link);
    assert forall b | b in u && b != a :: !Offers(u, b, link);
  }

  /** And only if the counters say so: while an installed link is not yet counted, its selection
      can pick the neighbour but its refresh does not count it down. */
  lemma RefreshDisagreesUncounted(t: Table, link: Link, a: Addr)
    requires TableOk(t) && a in t && !t[a].isBroadcast && t[a].backoff.window != 0
    requires link.tx && link.shared && link.kind != AdvertisingOnly && link.addr == a && t[a].txLinks == 0
    ensures LinkTick(t, false, Some(link))[a].backoff.window == t[a].backoff.window
    ensures Selects(OnlyReady(t, a), false, link, Some(a))
  {
    var u := OnlyReady(t, a);
    assert TableOk(u);
    assert Offers(u, a, link);
    assert forall b | b in u && b != a :: !Offers(u, b, link);
  }

  function RefreshAll(t: Table, links: seq<Link>): (r: Table)
    ensures r.Keys == t.Keys
  {
    if links == [] then t else RefreshAll(LinkTick(t, false, Some(links[0])), links[1..])
  }

  /** How many of the slots refresh neighbour `a`. */
  function Matching(n: Nbr, a: Addr, links: seq<Link>): nat {
    if links == [] then 0
    else (if links[0].tx && links[0].shared && Ticks(n, a, links[0].addr) then 1 else 0) + Matching(n, a, links[1..])
  }

  /** While its link count stands, a neighbour's window falls by one per matching slot, to zero. */
  lemma {:induction false} CountsDown(t: Table, a: Addr, links: seq<Link>)
    requires a in t
    ensures var w, m := t[a].backoff.window, Matching(t[a], a, links);
      RefreshAll(t, links)[a] == t[a].(backoff := t[a].backoff.(window := if w >= m then w - m else 0))
  {
    if links != [] {
      var u := LinkTick(t, false, Some(links[0]));
      MatchingIgnoresWindow(t[a], u[a], a, links[1..]);
      CountsDown(u, a, links[1..]);
    }
  }

  lemma {:induction false} MatchingIgnoresWindow(n: Nbr, m: Nbr, a: Addr, links: seq<Link>)
    requires n.txLinks == m.txLinks
    ensures Matching(n, a, links) == Matching(m, a, links)
  {
    if links != [] {
      MatchingIgnoresWindow(n, m, a, links[1..]);
    }
  }

  /** After a failed unicast transmission on a shared link with draw r, the neighbour may use a
      shared link again exactly when r + 1 matching slots have passed, that slot included. */
  lemma EligibleAfterDraw(c: Config, t: Table, a: Addr, leaves: bool, random: nat, links: seq<Link>, shared: Link)
    requires c.Valid() && a in t && t[a].ring.Valid() && !t[a].isBroadcast && shared.shared
    ensures var n := AfterSent(c, t[a], false, leaves, true, false, random);
      var r := Draw(n.backoff.exponent, random);
      var later := RefreshAll(t[a := n], links)[a];
      && later.ring == n.ring
      && (n.ring.Contents() != [] ==>
            (Ready(later, shared).Some? <==> Matching(n, a, links) >= r + 1))
  {
    var n := AfterSent(c, t[a], false, leaves, true, false, random);
    CountsDown(t[a := n], a, links);
    GetDropsHead(n.ring);
  }
}
