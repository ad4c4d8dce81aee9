/** The Tx-link counters of the slot machine's neighbours: they mirror the schedule but for the
    one link, at most, that the main thread has linked or unlinked and not yet counted. */
module SlotCounts {
  import opened Types
  import opened Rings
  import opened Queue
  import opened Lookup
  import opened Store
  import opened Rescheduling
  import opened SlotMachine
  import opened SlotInvariants
  import opened SlotBackoff
  import opened SlotFaults
  import opened SlotRuns

  /** The links the counters reflect: those installed, but for the one not yet counted. */
  function Reflected(s: State): set<Link> {
    match s.owed
    case None => Links(s.sfs)
    case Some(Gained(l)) => Links(s.sfs) - {l}
    case Some(Lost(l)) => Links(s.sfs) + {l}
  }

  ghost predicate CountsMirror(s: State) {
    Mirrors(Reflected(s), s.nbrs)
  }

  /** A link on its way in is installed, one on its way out until it is unlinked. */
  ghost predicate OwedInv(s: State) {
    && (s.removing.Some? ==> s.owed == None && s.removing.value in Links(s.sfs))
    && match s.owed
       case None => true
       case Some(Gained(l)) => l in Links(s.sfs)
       case Some(Lost(l)) => l !in Links(s.sfs)
  }

  /** A Tx link is to be counted and its neighbour is not in the table, which was full. */
  ghost predicate Miscounts(s: State, a: Act)
    requires Shape(s)
  {
    && a == Main(Upkeep(Settle)) && MainEnabled(s, a.m)
    && s.owed.value.Gained? && s.owed.value.link.tx && s.owed.value.link.addr !in s.nbrs
  }

  // ---- What leaves the counters alone ----

  ghost predicate SameCounts(t: Table, u: Table) {
    t.Keys == u.Keys
    && forall a | a in t :: u[a].txLinks == t[a].txLinks && u[a].dedicatedTxLinks == t[a].dedicatedTxLinks
  }

  lemma SameCountsMirror(links: set<Link>, t: Table, u: Table)
    requires SameCounts(t, u)
    ensures Mirrors(links, t) <==> Mirrors(links, u)
  {
    forall a ensures MirrorsAt(links, t, a) <==> MirrorsAt(links, u, a) {}
  }

  lemma OneSameCounts(t: Table, n: Addr, x: Nbr)
    requires n in t && x.txLinks == t[n].txLinks && x.dedicatedTxLinks == t[n].dedicatedTxLinks
    ensures SameCounts(t, t[n := x])
  {
  }

  lemma OneMirrors(links: set<Link>, t: Table, n: Addr, x: Nbr)
    requires n in t && x.txLinks == t[n].txLinks && x.dedicatedTxLinks == t[n].dedicatedTxLinks
    ensures Mirrors(links, t) <==> Mirrors(links, t[n := x])
  {
    OneSameCounts(t, n, x);
    SameCountsMirror(links, t, t[n := x]);
  }

  lemma {:induction false} RefreshKeepsCounts(t: Table, locked: bool, tm: Timer, k: Clock, ps: seq<Pass>)
    requires TableOk(t) && tm.modulus > 0
    ensures SameCounts(t, RefreshThrough(t, locked, tm, k, ps))
    decreases |ps|
  {
    if ps != [] {
      RefreshKeepsCounts(Refresh(t, locked, k), locked, tm, Advance(tm, k, ps[0]), ps[1..]);
    }
  }

  lemma TxEndKeepsCounts(m: Params, s: State, ok: bool, acked: bool, drift: int, random: nat)
    requires m.Valid() && TableOk(s.nbrs) && s.dequeued.Valid() && s.phase.TxSlot? && TxPointersLive(s)
    ensures SameCounts(s.nbrs, DoTxEnd(m, s, ok, acked, drift, random).nbrs)
  {
    var leaves := TxEndTable(m, s, ok, acked, drift, random);
  }

  lemma IrqKeepsCounts(m: Params, s: State, a: IrqAct)
    requires m.Valid() && Shape(s) && IrqEnabled(m, s, a)
    ensures SameCounts(s.nbrs, IrqStep(m, s, a).nbrs)
  {
    match a
    case Skip(ps) => RefreshKeepsCounts(s.nbrs, s.locked, m.tm, s.clk, ps);
    case End(ps) => RefreshKeepsCounts(s.nbrs, s.locked, m.tm, s.clk, ps);
    case TxEnd(ok, acked, drift, random) =>
      if TxPointersLive(s) {
        TxEndKeepsCounts(m, s, ok, acked, drift, random);
      }
    case Enter(first, _) => assert SameCounts(s.nbrs, TableAtEntry(s, first));
    case RxEnd(_) =>
  }

  lemma PacketsKeepCounts(s: State, a: PacketAct)
    requires TableOk(s.nbrs) && s.dequeued.Valid() && PacketEnabled(s, a)
    ensures SameCounts(s.nbrs, PacketStep(s, a).nbrs)
  {
    match a
    case AddWrite => WriteKeepsCounts(s);
    case AddCommit => CommitKeepsCounts(s);
    case FlushHead(n) => OneSameCounts(s.nbrs, n, PacketStep(s, a).nbrs[n]);
    case AddAlloc(_, _, _) =>
    case TakeDequeued => assert DoTakeDequeued(s).nbrs == s.nbrs;
    case FreePacket(_) =>
  }

  lemma WriteKeepsCounts(s: State)
    requires TableOk(s.nbrs) && s.adding.Allocated?
    ensures SameCounts(s.nbrs, DoAddWrite(s).nbrs)
  {
    var t, n := DoAddWrite(s).nbrs, s.adding.a;
    if t != s.nbrs {
      OneSameCounts(s.nbrs, n, t[n]);
    }
  }

  lemma CommitKeepsCounts(s: State)
    requires TableOk(s.nbrs) && s.adding.Written?
    ensures SameCounts(s.nbrs, DoAddCommit(s).nbrs)
  {
    var t, n := DoAddCommit(s).nbrs, s.adding.a;
    if t != s.nbrs {
      OneSameCounts(s.nbrs, n, t[n]);
    }
  }

  // ---- What changes them, or the schedule ----

  lemma InstallMirrors(c: Config, links: set<Link>, t: Table, n: Addr)
    requires c.Valid() && Mirrors(links, t) && n !in t
    ensures Mirrors(links, t[n := NewNbr(c, n)])
  {
    var u := t[n := NewNbr(c, n)];
    forall a ensures MirrorsAt(links, u, a) {
      assert MirrorsAt(links, t, a);
      assert DedicatedTo(links, a) <= TxTo(links, a);
    }
  }

  lemma SectionKeepsReflected(c: Config, s: State, a: SectionAct)
    requires c.Valid() && Shape(s) && OwedInv(s) && SectionEnabled(s, a) && Sequential(s, Section(a))
    ensures OwedInv(SectionStep(c, s, a)) && Reflected(SectionStep(c, s, a)) == Reflected(s)
  {
    if a.EndRemove? {
      RemovedLinks(s.sfs, s.removing.value);
    }
  }

  lemma SectionMirrors(c: Config, s: State, a: SectionAct)
    requires c.Valid() && Shape(s) && OwedInv(s) && SectionEnabled(s, a) && Sequential(s, Section(a))
    requires CountsMirror(s)
    ensures CountsMirror(SectionStep(c, s, a))
  {
    SectionKeepsReflected(c, s, a);
    if a.InstallNbr? {
      InstallMirrors(c, Reflected(s), s.nbrs, a.nbr);
    }
  }

  /** Counting the link brings the counters in step with the schedule, unless it is a Tx link
      without a neighbour. */
  lemma SettledMirrors(links: set<Link>, t: Table, o: Owed)
    requires if o.Gained? then o.link in links && Mirrors(links - {o.link}, t)
             else o.link !in links && Mirrors(links + {o.link}, t)
    ensures Mirrors(links, Settled(t, o)) <==> !(o.Gained? && o.link.tx && o.link.addr !in t)
  {
    var l := o.link;
    if o.Lost? {
      MirrorsRemove(links + {l}, t, l);
      assert links + {l} - {l} == links;
    } else {
      assert links - {l} + {l} == links;
      if l.tx && l.addr !in t {
        UncountedLink(links, t, l);
      } else {
        MirrorsAdd(links - {l}, t, l);
      }
    }
  }

  lemma DropMirrors(s: State, n: Addr)
    requires TableOk(s.nbrs) && CountsMirror(s) && UpkeepEnabled(s, DropNbr(n))
    ensures Mirrors(Reflected(s), s.nbrs - {n})
  {
    MirrorsFreed(Reflected(s), s.nbrs, s.nbrs - {n});
  }

  lemma UpkeepMirrors(m: Params, s: State, a: UpkeepAct)
    requires m.Valid() && Shape(s) && OwedInv(s) && MainEnabled(s, Upkeep(a)) && CountsMirror(s)
    ensures CountsMirror(UpkeepStep(m.q, s, a)) <==> !Miscounts(s, Main(Upkeep(a)))
  {
    if a.Settle? {
      SettleMirrors(m, s);
    } else {
      OtherUpkeepMirrors(m.q, s, a);
      assert Reflected(UpkeepStep(m.q, s, a)) == Reflected(s);
    }
  }

  lemma SettleMirrors(m: Params, s: State)
    requires m.Valid() && Shape(s) && OwedInv(s) && MainEnabled(s, Upkeep(Settle)) && CountsMirror(s)
    ensures CountsMirror(UpkeepStep(m.q, s, Settle)) <==> !Miscounts(s, Main(Upkeep(Settle)))
  {
    SettledMirrors(Links(s.sfs), s.nbrs, s.owed.value);
  }

  lemma OtherUpkeepMirrors(c: Config, s: State, a: UpkeepAct)
    requires TableOk(s.nbrs) && UpkeepEnabled(s, a) && !a.Settle? && CountsMirror(s)
    ensures Mirrors(Reflected(s), UpkeepStep(c, s, a).nbrs) && UpkeepStep(c, s, a).owed == s.owed
  {
    var t := UpkeepStep(c, s, a);
    match a
    case DropNbr(n) => DropMirrors(s, n);
    case ResetWindow(n) => OneMirrors(Reflected(s), s.nbrs, n, t.nbrs[n]);
    case ResetExponent => OneMirrors(Reflected(s), s.nbrs, s.resetting.value, t.nbrs[s.resetting.value]);
    case ClearApt(_) =>
  }

  lemma UpkeepKeepsOwed(c: Config, s: State, a: UpkeepAct)
    requires TableOk(s.nbrs) && OwedInv(s) && UpkeepEnabled(s, a)
    ensures OwedInv(UpkeepStep(c, s, a))
  {
    var t := UpkeepStep(c, s, a);
    assert t.removing == s.removing && t.sfs == s.sfs;
  }

  lemma PacketsKeepReflected(s: State, a: PacketAct)
    requires TableOk(s.nbrs) && s.dequeued.Valid() && PacketEnabled(s, a) && OwedInv(s)
    ensures OwedInv(PacketStep(s, a)) && Reflected(PacketStep(s, a)) == Reflected(s)
  {
    assert OnlyPackets(s, PacketStep(s, a));
  }

  lemma PacketsMirror(s: State, a: PacketAct)
    requires TableOk(s.nbrs) && s.dequeued.Valid() && PacketEnabled(s, a) && OwedInv(s) && CountsMirror(s)
    ensures CountsMirror(PacketStep(s, a))
  {
    PacketsKeepCounts(s, a);
    PacketsKeepReflected(s, a);
    SameCountsMirror(Reflected(s), s.nbrs, PacketStep(s, a).nbrs);
  }

  lemma MainMirrors(m: Params, s: State, a: MainAct)
    requires m.Valid() && Shape(s) && OwedInv(s) && MainEnabled(s, a) && CountsMirror(s)
    ensures OwedInv(MainStep(m, s, a))
    ensures CountsMirror(MainStep(m, s, a)) <==> !Miscounts(s, Main(a))
  {
    match a
    case Lock(l) => assert Reflected(LockStep(s, l)) == Reflected(s);
    case Section(e) =>
      SectionKeepsReflected(m.q, s, e);
      SectionMirrors(m.q, s, e);
    case Upkeep(u) =>
      UpkeepKeepsOwed(m.q, s, u);
      UpkeepMirrors(m, s, u);
    case Move(v) =>
      PacketsKeepReflected(s, v);
      PacketsMirror(s, v);
  }

  lemma IrqMirrors(m: Params, s: State, a: IrqAct)
    requires m.Valid() && Shape(s) && OwedInv(s) && IrqEnabled(m, s, a) && CountsMirror(s)
    ensures OwedInv(IrqStep(m, s, a)) && CountsMirror(IrqStep(m, s, a))
  {
    var t := IrqStep(m, s, a);
    IrqKeepsCounts(m, s, a);
    SameCountsMirror(Reflected(s), s.nbrs, t.nbrs);
    assert Reflected(t) == Reflected(s);
  }

  /** One step of either agent keeps the counters in step with the schedule exactly when it does
      not miscount. */
  lemma StepMirrors(m: Params, s: State, a: Act)
    requires m.Valid() && Shape(s) && OwedInv(s) && CountsMirror(s)
    ensures OwedInv(Next(m, s, a))
    ensures CountsMirror(Next(m, s, a)) <==> !Miscounts(s, a)
  {
    match a
    case Main(x) =>
      if MainEnabled(s, x) {
        MainMirrors(m, s, x);
      }
    case Irq(x) =>
      if IrqEnabled(m, s, x) {
        IrqMirrors(m, s, x);
      }
  }

  // ---- Runs ----

  /** The counters mirror the schedule, one link aside, in every state of the run. */
  ghost predicate AlwaysMirrors(m: Params, s: State, acts: seq<Act>)
    requires m.Valid()
    decreases |acts|
  {
    CountsMirror(s) && (acts == [] || AlwaysMirrors(m, Next(m, s, acts[0]), acts[1..]))
  }

  /** No Tx link of the run stays uncounted. */
  ghost predicate NeverMiscounts(m: Params, s: State, acts: seq<Act>)
    requires m.Valid()
    decreases |acts|
  {
    acts == [] || (!(Shape(s) && Miscounts(s, acts[0])) && NeverMiscounts(m, Next(m, s, acts[0]), acts[1..]))
  }

  lemma {:induction false} RunMirrorsIff(m: Params, s: State, acts: seq<Act>)
    requires m.Valid() && Sound(m, s) && OwedInv(s) && CountsMirror(s)
    ensures AlwaysMirrors(m, s, acts) <==> NeverMiscounts(m, s, acts)
    ensures NeverMiscounts(m, s, acts) ==> var t := Exec(m, s, acts); Sound(m, t) && OwedInv(t) && CountsMirror(t)
    decreases |acts|
  {
    if acts != [] {
      StepMirrors(m, s, acts[0]);
      StepKeepsSound(m, s, acts[0]);
      if CountsMirror(Next(m, s, acts[0])) {
        RunMirrorsIff(m, Next(m, s, acts[0]), acts[1..]);
      }
    }
  }

  /** On every run the counters mirror the schedule throughout, but for the link being counted,
      exactly when no Tx link stays uncounted. */
  lemma EveryRunMirrors(m: Params, asn0: nat, start0: nat, ps: seq<Pass>, s: State, acts: seq<Act>)
    requires Init(m, asn0, start0, ps, s)
    ensures AlwaysMirrors(m, s, acts) <==> NeverMiscounts(m, s, acts)
  {
    InitInv(m, asn0, start0, ps, s);
    RunMirrorsIff(m, s, acts);
  }

  /** The refresh after a slot of this link counts a down by one. */
  ghost predicate CountsDownOne(t: Table, link: Link, a: Addr)
    requires a in t
  {
    a in LinkTick(t, false, Some(link)) &&
    LinkTick(t, false, Some(link))[a].backoff.window == t[a].backoff.window - 1
  }

  /** The link is the first Tx link to a, and not yet counted. */
  ghost predicate FirstUncounted(s: State, link: Link, a: Addr) {
    s.owed == Some(Gained(link)) && link.addr == a && TxTo(Links(s.sfs), a) == {link}
  }

  lemma CountAt(s: State, link: Link, a: Addr)
    requires CountsMirror(s) && OwedInv(s) && a in s.nbrs && link in Links(s.sfs) && link.tx
    ensures s.nbrs[a].txLinks >= 0
    ensures link.addr == a ==> (s.nbrs[a].txLinks == 0 <==> FirstUncounted(s, link, a))
  {
    var r := TxTo(Reflected(s), a);
    assert MirrorsAt(Reflected(s), s.nbrs, a);
    if link.addr == a && s.owed != Some(Gained(link)) {
      assert link in r;
    } else if link.addr == a {
      assert r == TxTo(Links(s.sfs), a) - {link};
      assert link in TxTo(Links(s.sfs), a);
    }
  }

  lemma AgreesAt(s: State, link: Link, a: Addr)
    requires TableOk(s.nbrs) && CountsMirror(s) && OwedInv(s)
    requires link in Links(s.sfs) && link.tx && link.shared && link.kind != AdvertisingOnly
    requires a in s.nbrs && !s.nbrs[a].isBroadcast && s.nbrs[a].backoff.window != 0
    ensures (CountsDownOne(s.nbrs, link, a) <==> Selects(OnlyReady(s.nbrs, a), false, link, Some(a)))
      <==> !FirstUncounted(s, link, a)
  {
    CountAt(s, link, a);
    if FirstUncounted(s, link, a) {
      RefreshDisagreesUncounted(s.nbrs, link, a);
    } else {
      RefreshAgreesWithSelection(s.nbrs, link, a);
    }
  }

  /** On every run that miscounts no link: an installed shared Tx link counts a backing-off
      neighbour down exactly when it could have served it, except while it is the neighbour's first
      Tx link and not yet counted. */
  lemma EveryRunRefreshAgrees(m: Params, asn0: nat, start0: nat, ps: seq<Pass>, s: State, acts: seq<Act>,
      link: Link, a: Addr)
    requires Init(m, asn0, start0, ps, s) && NeverMiscounts(m, s, acts)
    requires var t := Exec(m, s, acts);
      && link in Links(t.sfs) && link.tx && link.shared && link.kind != AdvertisingOnly
      && a in t.nbrs && !t.nbrs[a].isBroadcast && t.nbrs[a].backoff.window != 0
    ensures var t := Exec(m, s, acts);
      && TableOk(t.nbrs)
      && ((CountsDownOne(t.nbrs, link, a) <==> Selects(OnlyReady(t.nbrs, a), false, link, Some(a)))
          <==> !FirstUncounted(t, link, a))
  {
    InitInv(m, asn0, start0, ps, s);
    RunMirrorsIff(m, s, acts);
    AgreesAt(Exec(m, s, acts), link, a);
  }

  lemma FirstLinked(m: Params, s: State, sfs: seq<Slotframe>, link: Link)
    requires m.Valid() && Sound(m, s) && OwedInv(s) && s.removing == None && s.owed == None
    requires SectionEnabled(s, Extend(sfs, Some(link))) && TxTo(Links(s.sfs), link.addr) == {} && link.tx
    ensures var t := Next(m, s, Main(Section(Extend(sfs, Some(link)))));
      t == s.(sfs := sfs, owed := Some(Gained(link))) && FirstUncounted(t, link, link.addr)
  {
    TxToAdd(Links(s.sfs), link, link.addr);
  }

  lemma Unlocks(m: Params, s: State)
    requires m.Valid() && Shape(s) && LockInv(s) && s.pc == Inside && s.removing == None
    ensures Next(m, s, Main(Lock(Unlock))) == s.(locked := false, pc := Outside)
  {
  }

  /** Link the first Tx link to a neighbour in backoff and release the lock: until the counters are
      updated the link's selection can pick the neighbour, and its refresh does not count it down. */
  lemma AnyFirstLinkDisagrees(m: Params, s: State, sfs: seq<Slotframe>, link: Link)
    requires m.Valid() && Sound(m, s) && OwedInv(s) && CountsMirror(s) && s.removing == None && s.owed == None
    requires SectionEnabled(s, Extend(sfs, Some(link))) && TxTo(Links(s.sfs), link.addr) == {}
    requires link.tx && link.shared && link.kind != AdvertisingOnly
    requires var a := link.addr; a in s.nbrs && !s.nbrs[a].isBroadcast && s.nbrs[a].backoff.window != 0
    ensures var a := link.addr;
      var t := Next(m, Next(m, s, Main(Section(Extend(sfs, Some(link))))), Main(Lock(Unlock)));
      && !t.locked && TableOk(t.nbrs) && a in t.nbrs && FirstUncounted(t, link, a)
      && Selects(OnlyReady(t.nbrs, a), false, link, Some(a)) && !CountsDownOne(t.nbrs, link, a)
  {
    FirstLinked(m, s, sfs, link);
    StepKeepsSound(m, s, Main(Section(Extend(sfs, Some(link)))));
    Unlocks(m, s.(sfs := sfs, owed := Some(Gained(link))));
    assert MirrorsAt(Links(s.sfs), s.nbrs, link.addr);
    RefreshDisagreesUncounted(s.nbrs, link, link.addr);
  }
}
