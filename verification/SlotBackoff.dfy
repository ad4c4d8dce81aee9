/** The backoff state of the slot machine. A reset stores the window and the exponent one
    after the other; a failed transmission in between can leave a window too large. */
module SlotBackoff {
  import opened Types
  import opened Rings
  import opened Queue
  import opened Lookup
  import opened Rescheduling
  import opened SlotMachine
  import opened SlotInvariants

  ghost predicate TableFits(c: Config, t: Table, strict: bool) {
    forall a | a in t :: BackoffFits(c, t[a], strict)
  }

  /** What holds whatever interleaves: the weaker window limit, and a reset under way has its
      neighbour. */
  ghost predicate BoundsInv(m: Params, s: State) {
    TableFits(m.q, s.nbrs, false) && (s.resetting.Some? ==> s.resetting.value in s.nbrs)
  }

  /** The second store of a reset finds a window too large for the least exponent. */
  ghost predicate Tears(m: Params, s: State, a: Act)
    requires m.Valid() && Shape(s)
  {
    && a == Main(Upkeep(ResetExponent)) && MainEnabled(s, a.m)
    && s.nbrs[s.resetting.value].backoff.window > Pow2(m.q.minBe)
  }

  lemma {:induction false} RefreshFits(c: Config, tm: Timer, t: Table, locked: bool,
      k: Clock, ps: seq<Pass>, strict: bool)
    requires c.Valid() && tm.modulus > 0 && TableOk(t) && TableFits(c, t, strict)
    ensures TableFits(c, RefreshThrough(t, locked, tm, k, ps), strict)
    decreases |ps|
  {
    if ps != [] {
      RefreshFits(c, tm, Refresh(t, locked, k), locked, Advance(tm, k, ps[0]), ps[1..], strict);
    }
  }

  // ---- Main thread ----

  /** What a main-thread action may do to a backoff: nothing, a reset, or half of one. */
  predicate Milder(c: Config, b: Backoff, was: Backoff) {
    b == was || b == BackoffReset(c) || b == was.(window := 0)
  }

  /** Each neighbour of u is new and reset, or one of t with a milder backoff. */
  ghost predicate MilderTable(c: Config, t: Table, u: Table) {
    forall n | n in u ::
      if n in t then u[n].isBroadcast == t[n].isBroadcast && Milder(c, u[n].backoff, t[n].backoff)
      else u[n].backoff == BackoffReset(c)
  }

  lemma MilderFits(c: Config, t: Table, u: Table, strict: bool)
    requires c.Valid() && TableFits(c, t, strict) && MilderTable(c, t, u)
    ensures TableFits(c, u, strict)
  {
    forall n | n in u ensures BackoffFits(c, u[n], strict) {
      assert n in t ==> BackoffFits(c, t[n], strict);
    }
  }

  lemma OneMilder(c: Config, t: Table, n: Addr, x: Nbr)
    requires n in t && x.isBroadcast == t[n].isBroadcast && Milder(c, x.backoff, t[n].backoff)
    ensures MilderTable(c, t, t[n := x])
  {
  }

  lemma WriteMilder(c: Config, s: State)
    requires TableOk(s.nbrs) && s.adding.Allocated?
    ensures MilderTable(c, s.nbrs, DoAddWrite(s).nbrs)
  {
    var t, n := DoAddWrite(s).nbrs, s.adding.a;
    if t != s.nbrs {
      OneMilder(c, s.nbrs, n, t[n]);
    }
  }

  lemma CommitMilder(c: Config, s: State)
    requires TableOk(s.nbrs) && s.adding.Written?
    ensures MilderTable(c, s.nbrs, DoAddCommit(s).nbrs)
  {
    var t, n := DoAddCommit(s).nbrs, s.adding.a;
    if t != s.nbrs {
      OneMilder(c, s.nbrs, n, t[n]);
    }
  }

  lemma SettledMilder(c: Config, t: Table, o: Owed)
    ensures MilderTable(c, t, Settled(t, o))
  {
    var u, n := Settled(t, o), o.link.addr;
    if u != t {
      OneMilder(c, t, n, u[n]);
    }
  }

  lemma UpkeepMilder(m: Params, s: State, a: UpkeepAct)
    requires m.Valid() && TableOk(s.nbrs) && UpkeepEnabled(s, a) && !a.ResetExponent?
    ensures MilderTable(m.q, s.nbrs, UpkeepStep(m.q, s, a).nbrs)
  {
    var t := UpkeepStep(m.q, s, a);
    match a
    case Settle => SettledMilder(m.q, s.nbrs, s.owed.value);
    case ResetWindow(n) => OneMilder(m.q, s.nbrs, n, t.nbrs[n]);
    case DropNbr(_) =>
    case ClearApt(_) =>
  }

  lemma PacketsMilder(c: Config, s: State, a: PacketAct)
    requires TableOk(s.nbrs) && s.dequeued.Valid() && PacketEnabled(s, a)
    ensures MilderTable(c, s.nbrs, PacketStep(s, a).nbrs)
  {
    match a
    case AddWrite => WriteMilder(c, s);
    case AddCommit => CommitMilder(c, s);
    case FlushHead(n) => OneMilder(c, s.nbrs, n, PacketStep(s, a).nbrs[n]);
    case AddAlloc(_, _, _) =>
    case TakeDequeued => assert DoTakeDequeued(s).nbrs == s.nbrs;
    case FreePacket(_) =>
  }

  lemma SectionMilder(c: Config, s: State, a: SectionAct)
    requires c.Valid() && SectionEnabled(s, a)
    ensures MilderTable(c, s.nbrs, SectionStep(c, s, a).nbrs)
  {
  }

  lemma MainMilder(m: Params, s: State, a: MainAct)
    requires m.Valid() && Shape(s) && MainEnabled(s, a) && a != Upkeep(ResetExponent)
    ensures MilderTable(m.q, s.nbrs, MainStep(m, s, a).nbrs)
  {
    match a
    case Lock(_) =>
    case Section(e) => SectionMilder(m.q, s, e);
    case Upkeep(u) => UpkeepMilder(m, s, u);
    case Move(v) => PacketsMilder(m.q, s, v);
  }

  /** The second store is fine exactly when the window is small enough for the least exponent. */
  lemma ExponentStore(c: Config, t: Table, n: Addr, strict: bool)
    requires c.Valid() && TableFits(c, t, strict) && n in t
    ensures TableFits(c, ExponentReset(c, t, n), strict) <==> !strict || t[n].backoff.window <= Pow2(c.minBe)
  {
    var u := ExponentReset(c, t, n);
    assert BackoffFits(c, t[n], strict);
    if t[n].backoff.window > Pow2(c.minBe) {
      assert strict ==> !BackoffFits(c, u[n], true);
    }
  }

  lemma MainFits(m: Params, s: State, a: MainAct, strict: bool)
    requires m.Valid() && Shape(s) && TableFits(m.q, s.nbrs, strict) && MainEnabled(s, a)
    ensures TableFits(m.q, MainStep(m, s, a).nbrs, strict) <==> !(strict && Tears(m, s, Main(a)))
  {
    if a == Upkeep(ResetExponent) {
      ExponentStore(m.q, s.nbrs, s.resetting.value, strict);
    } else {
      MainMilder(m, s, a);
      MilderFits(m.q, s.nbrs, MainStep(m, s, a).nbrs, strict);
    }
  }

  // ---- Interrupt ----

  lemma TxEndTable(m: Params, s: State, ok: bool, acked: bool, drift: int, random: nat) returns (leaves: bool)
    requires m.Valid() && TableOk(s.nbrs) && s.dequeued.Valid() && s.phase.TxSlot? && TxPointersLive(s)
    ensures var t, n := DoTxEnd(m, s, ok, acked, drift, random), s.nbr.value;
      var after := AfterSent(m.q, s.nbrs[n], s.locked, leaves, s.clk.current.value.shared, ok, random);
      && (t.nbrs == s.nbrs || t.nbrs == s.nbrs[n := after])
      && (s.phase.index < |s.dequeued.slots| ==> t.nbrs == s.nbrs[n := after])
  {
    var p := s.packet.value;
    leaves := Leaves(s.packets[p].(transmissions := s.packets[p].transmissions + 1), ok);
  }

  lemma TxEndFits(m: Params, s: State, ok: bool, acked: bool, drift: int, random: nat, strict: bool)
    requires m.Valid() && TableOk(s.nbrs) && s.dequeued.Valid() && s.phase.TxSlot? && TxPointersLive(s)
    requires TableFits(m.q, s.nbrs, strict)
    ensures TableFits(m.q, DoTxEnd(m, s, ok, acked, drift, random).nbrs, strict)
  {
    var leaves := TxEndTable(m, s, ok, acked, drift, random);
    var n, shared := s.nbr.value, s.clk.current.value.shared;
    BackoffPreserved(m.q, s.nbrs[n], n, n, s.locked, leaves, shared, ok, random, strict);
    ReplacedFits(m.q, s.nbrs, n, AfterSent(m.q, s.nbrs[n], s.locked, leaves, shared, ok, random), strict);
  }

  lemma ReplacedFits(c: Config, t: Table, n: Addr, x: Nbr, strict: bool)
    requires TableFits(c, t, strict) && BackoffFits(c, x, strict)
    ensures TableFits(c, t[n := x], strict)
  {
  }

  lemma IrqFits(m: Params, s: State, a: IrqAct, strict: bool)
    requires m.Valid() && Shape(s) && TableFits(m.q, s.nbrs, strict) && IrqEnabled(m, s, a)
    ensures TableFits(m.q, IrqStep(m, s, a).nbrs, strict)
  {
    match a
    case Skip(ps) => RefreshFits(m.q, m.tm, s.nbrs, s.locked, s.clk, ps, strict);
    case End(ps) => RefreshFits(m.q, m.tm, s.nbrs, s.locked, s.clk, ps, strict);
    case TxEnd(ok, acked, drift, random) =>
      if TxPointersLive(s) {
        TxEndFits(m, s, ok, acked, drift, random, strict);
      }
    case Enter(first, second) => assert DoEnter(s, first, second).nbrs == TableAtEntry(s, first);
    case RxEnd(_) =>
  }

  /** One step keeps every backoff within its limits exactly when it does not tear a reset. */
  lemma StepFits(m: Params, s: State, a: Act, strict: bool)
    requires m.Valid() && Shape(s) && TableFits(m.q, s.nbrs, strict)
    ensures TableFits(m.q, Next(m, s, a).nbrs, strict) <==> !(strict && Tears(m, s, a))
  {
    match a
    case Main(x) =>
      if MainEnabled(s, x) {
        MainFits(m, s, x, strict);
      }
    case Irq(x) =>
      if IrqEnabled(m, s, x) {
        IrqFits(m, s, x, strict);
      }
  }

  lemma IrqKeys(m: Params, s: State, a: IrqAct)
    requires m.Valid() && Shape(s) && IrqEnabled(m, s, a)
    ensures IrqStep(m, s, a).nbrs.Keys == s.nbrs.Keys
  {
    match a
    case Skip(ps) => RefreshKeepsRings(s.nbrs, s.locked, m.tm, s.clk, ps);
    case End(ps) => RefreshKeepsRings(s.nbrs, s.locked, m.tm, s.clk, ps);
    case TxEnd(ok, acked, drift, random) =>
      if TxPointersLive(s) {
        TxEndKeys(m, s, ok, acked, drift, random);
      }
    case Enter(first, second) => EntryKeys(s, first);
    case RxEnd(_) =>
  }

  lemma EntryKeys(s: State, first: Option<Addr>)
    requires TableOk(s.nbrs)
    ensures TableAtEntry(s, first).Keys == s.nbrs.Keys
  {
  }

  lemma TxEndKeys(m: Params, s: State, ok: bool, acked: bool, drift: int, random: nat)
    requires m.Valid() && TableOk(s.nbrs) && s.dequeued.Valid() && s.phase.TxSlot? && TxPointersLive(s)
    ensures var t := DoTxEnd(m, s, ok, acked, drift, random);
      t.nbrs.Keys == s.nbrs.Keys
  {
    var leaves := TxEndTable(m, s, ok, acked, drift, random);
  }

  lemma MainKeepsResetting(m: Params, s: State, a: MainAct)
    requires m.Valid() && Shape(s) && LockInv(s) && BoundsInv(m, s) && MainEnabled(s, a)
    ensures var t := MainStep(m, s, a); t.resetting.Some? ==> t.resetting.value in t.nbrs
  {
    match a
    case Lock(_) =>
    case Section(_) =>
    case Upkeep(_) =>
    case Move(v) =>
      assert s.resetting == None;
      assert OnlyPackets(s, PacketStep(s, v));
  }

  lemma StepKeepsBounds(m: Params, s: State, a: Act)
    requires m.Valid() && Shape(s) && LockInv(s) && BoundsInv(m, s)
    ensures BoundsInv(m, Next(m, s, a))
  {
    StepFits(m, s, a, false);
    match a
    case Main(x) =>
      if MainEnabled(s, x) {
        MainKeepsResetting(m, s, x);
      }
    case Irq(x) =>
      if IrqEnabled(m, s, x) {
        IrqKeys(m, s, x);
      }
  }

  // ---- The window between the two stores ----

  /** Does a refresh for this link count n down? */
  predicate Matches(x: Nbr, n: Addr, locked: bool, link: Option<Link>) {
    link.Some? && link.value.tx && link.value.shared && !locked && Ticks(x, n, link.value.addr)
  }

  function PassMatches(x: Nbr, n: Addr, locked: bool, tm: Timer, k: Clock, ps: seq<Pass>): nat
    requires tm.modulus > 0
    decreases |ps|
  {
    if ps == [] then 0
    else
      (if Matches(x, n, locked, k.current) then 1 else 0)
      + PassMatches(x, n, locked, tm, Advance(tm, k, ps[0]), ps[1..])
  }

  /** How often an action refreshes the backoff of n. */
  ghost function Refreshes(m: Params, s: State, a: Act, n: Addr): nat
    requires m.Valid() && Shape(s)
  {
    if a.Main? || n !in s.nbrs || !IrqEnabled(m, s, a.i) then 0
    else
      match a.i
      case Skip(ps) => PassMatches(s.nbrs[n], n, s.locked, m.tm, s.clk, ps)
      case End(ps) => PassMatches(s.nbrs[n], n, s.locked, m.tm, s.clk, ps)
      case Enter(first, _) => if SkipsBest(s.clk, first) && Matches(s.nbrs[n], n, s.locked, s.clk.current) then 1 else 0
      case _ => 0
  }

  /** A transmission to n, not a virtual neighbour, ends. */
  ghost predicate EndsFor(m: Params, s: State, a: Act, n: Addr)
    requires m.Valid() && Shape(s)
  {
    && a.Irq? && a.i.TxEnd? && IrqEnabled(m, s, a.i) && TxPointersLive(s)
    && s.nbr == Some(n) && !s.nbrs[n].isBroadcast
  }

  /** It fails, on a shared link. */
  ghost predicate FailsFor(m: Params, s: State, a: Act, n: Addr)
    requires m.Valid() && Shape(s)
  {
    EndsFor(m, s, a, n) && !a.i.ok && s.clk.current.value.shared
  }

  /** It succeeds, on a shared link or with the last packet. */
  ghost predicate ClearsFor(m: Params, s: State, a: Act, n: Addr)
    requires m.Valid() && Shape(s)
  {
    EndsFor(m, s, a, n) && a.i.ok && (s.clk.current.value.shared || s.nbrs[n].ring.put == s.nbrs[n].ring.get + 1)
  }

  /** The draw of a failed transmission. */
  function DrawnBy(c: Config, b: Backoff, random: nat): nat {
    Draw(BackoffInc(c, b, random).exponent, random)
  }

  function Minus(a: nat, b: nat): nat {
    if a >= b then a - b else 0
  }

  lemma {:induction false} RefreshedWindow(t: Table, locked: bool, tm: Timer, k: Clock, ps: seq<Pass>, n: Addr)
    requires TableOk(t) && tm.modulus > 0 && n in t
    ensures var u := RefreshThrough(t, locked, tm, k, ps);
      n in u && u[n].backoff.window == Minus(t[n].backoff.window, PassMatches(t[n], n, locked, tm, k, ps))
    decreases |ps|
  {
    if ps != [] {
      var u := Refresh(t, locked, k);
      SamePassMatches(t[n], u[n], n, locked, tm, Advance(tm, k, ps[0]), ps[1..]);
      RefreshedWindow(u, locked, tm, Advance(tm, k, ps[0]), ps[1..], n);
    }
  }

  lemma {:induction false} SamePassMatches(x: Nbr, y: Nbr, n: Addr, locked: bool, tm: Timer, k: Clock, ps: seq<Pass>)
    requires tm.modulus > 0 && x.txLinks == y.txLinks
    ensures PassMatches(x, n, locked, tm, k, ps) == PassMatches(y, n, locked, tm, k, ps)
    decreases |ps|
  {
    if ps != [] {
      SamePassMatches(x, y, n, locked, tm, Advance(tm, k, ps[0]), ps[1..]);
    }
  }

  lemma TxEndWindow(m: Params, s: State, ok: bool, acked: bool, drift: int, random: nat, n: Addr)
    requires m.Valid() && Shape(s) && LockInv(s) && TxInv(s) && s.phase.TxSlot? && n in s.nbrs
    ensures var t, b := DoTxEnd(m, s, ok, acked, drift, random), s.nbrs[n].backoff;
      var shared := s.clk.current.value.shared;
      && n in t.nbrs
      && t.nbrs[n].backoff.window ==
        if s.nbr != Some(n) || s.nbrs[n].isBroadcast then b.window
        else if !ok then if shared then DrawnBy(m.q, b, random) + 1 else b.window
        else if shared || s.nbrs[n].ring.put == s.nbrs[n].ring.get + 1 then 0
        else b.window
  {
    var leaves := TxEndTable(m, s, ok, acked, drift, random);
  }

  /** What an action does to n's window: a failure draws it anew, a success clears it, refreshes
      count it down. */
  ghost function WindowAfter(m: Params, s: State, a: Act, n: Addr): nat
    requires m.Valid() && Shape(s) && n in s.nbrs
  {
    if FailsFor(m, s, a, n) then DrawnBy(m.q, s.nbrs[n].backoff, a.i.random) + 1
    else if ClearsFor(m, s, a, n) then 0
    else Minus(s.nbrs[n].backoff.window, Refreshes(m, s, a, n))
  }

  lemma IrqWindow(m: Params, s: State, a: IrqAct, n: Addr)
    requires m.Valid() && Shape(s) && LockInv(s) && TxInv(s) && IrqEnabled(m, s, a) && n in s.nbrs
    ensures var t := IrqStep(m, s, a); n in t.nbrs && t.nbrs[n].backoff.window == WindowAfter(m, s, Irq(a), n)
  {
    match a
    case Skip(ps) => RefreshedWindow(s.nbrs, s.locked, m.tm, s.clk, ps, n);
    case End(ps) => RefreshedWindow(s.nbrs, s.locked, m.tm, s.clk, ps, n);
    case TxEnd(ok, acked, drift, random) => OutcomeWindow(m, s, ok, acked, drift, random, n);
    case Enter(first, second) => EntryWindow(m, s, first, second, n);
    case RxEnd(_) =>
  }

  lemma OutcomeWindow(m: Params, s: State, ok: bool, acked: bool, drift: int, random: nat, n: Addr)
    requires m.Valid() && Shape(s) && LockInv(s) && TxInv(s) && n in s.nbrs
    requires IrqEnabled(m, s, TxEnd(ok, acked, drift, random))
    ensures var a := TxEnd(ok, acked, drift, random);
      var t := IrqStep(m, s, a);
      n in t.nbrs && t.nbrs[n].backoff.window == WindowAfter(m, s, Irq(a), n)
  {
    TxEndWindow(m, s, ok, acked, drift, random, n);
  }

  lemma EntryWindow(m: Params, s: State, first: Option<Addr>, second: Option<Addr>, n: Addr)
    requires m.Valid() && Shape(s) && IrqEnabled(m, s, Enter(first, second)) && n in s.nbrs
    ensures var t := IrqStep(m, s, Enter(first, second));
      n in t.nbrs && t.nbrs[n].backoff.window == WindowAfter(m, s, Irq(Enter(first, second)), n)
  {
    assert DoEnter(s, first, second).nbrs == TableAtEntry(s, first);
    TableWindow(s, first, n);
  }

  lemma TableWindow(s: State, first: Option<Addr>, n: Addr)
    requires TableOk(s.nbrs) && n in s.nbrs
    ensures n in TableAtEntry(s, first)
    ensures TableAtEntry(s, first)[n].backoff.window == Minus(s.nbrs[n].backoff.window,
      if SkipsBest(s.clk, first) && Matches(s.nbrs[n], n, s.locked, s.clk.current) then 1 else 0)
  {
    TickWindow(s.nbrs, s.locked, s.clk.current, n);
  }

  lemma TickWindow(t: Table, locked: bool, link: Option<Link>, n: Addr)
    requires n in t
    ensures n in LinkTick(t, locked, link)
    ensures LinkTick(t, locked, link)[n].backoff.window
      == Minus(t[n].backoff.window, if Matches(t[n], n, locked, link) then 1 else 0)
  {
  }

  /** Between the two stores of a reset only the interrupt moves the window. */
  lemma WindowStep(m: Params, s: State, a: Act, n: Addr)
    requires m.Valid() && Shape(s) && LockInv(s) && TxInv(s) && s.resetting == Some(n) && n in s.nbrs
    requires a != Main(Upkeep(ResetExponent))
    ensures var t := Next(m, s, a);
      t.resetting == Some(n) && n in t.nbrs && t.nbrs[n].backoff.window == WindowAfter(m, s, a, n)
  {
    if a.Irq? && IrqEnabled(m, s, a.i) {
      IrqWindow(m, s, a.i, n);
    }
  }
}
