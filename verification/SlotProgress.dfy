/** The slot machine never gets stuck: in every phase of the interrupt each outcome its environment
    may choose has a step, and the main thread can finish what it has begun. */
module SlotProgress {
  import opened Types
  import opened Rings
  import opened Queue
  import opened Lookup
  import opened Rescheduling
  import opened SlotMachine
  import opened SlotInvariants
  import opened SlotRuns

  // ---- Every lookup has a result ----

  /** One more link: it is sooner than those seen, or later, or competes with the best of them. */
  lemma SummaryNext(packets: map<Addr, nat>, seen: set<Link>, asn: nat, best0: Option<Link>, offset0: nat,
      backup0: Option<Link>, l: Link) returns (best: Option<Link>, offset: nat, backup: Option<Link>)
    requires l.timeslot < l.period && forall x | x in seen :: x.timeslot < x.period
    requires Summary(packets, seen, asn, best0, offset0, backup0)
    ensures Summary(packets, seen + {l}, asn, best, offset, backup)
  {
    var time := TimeTo(asn, l);
    if best0 == None || time < offset0 {
      best, offset, backup := Some(l), time, None;
    } else if time > offset0 || l == best0.value {
      best, offset, backup := best0, offset0, backup0;
    } else {
      var stays := Dominates(packets, best0.value, l);
      var other := if stays then l else best0.value;
      best, offset := if stays then best0 else Some(l), offset0;
      var better := other.rx && (backup0 == None || other.sfHandle < backup0.value.sfHandle);
      backup := if better then Some(other) else backup0;
    }
  }

  lemma {:induction false} SummaryExists(packets: map<Addr, nat>, links: set<Link>, asn: nat)
      returns (best: Option<Link>, offset: nat, backup: Option<Link>)
    requires forall l | l in links :: l.timeslot < l.period
    ensures Summary(packets, links, asn, best, offset, backup)
  {
    if links == {} {
      best, offset, backup := None, 0, None;
    } else {
      var l :| l in links;
      best, offset, backup := SummaryExists(packets, links - {l}, asn);
      best, offset, backup := SummaryNext(packets, links - {l}, asn, best, offset, backup, l);
      assert links - {l} + {l} == links;
    }
  }

  lemma LinksFit(sfs: seq<Slotframe>)
    requires WellFormed(sfs)
    ensures forall l | l in Links(sfs) :: l.timeslot < l.period < 0x1_0000
  {
    forall l | l in Links(sfs) ensures l.timeslot < l.period < 0x1_0000 {
      var i := FindLink(sfs, l);
    }
  }

  lemma LookupExists(packets: map<Addr, nat>, sfs: seq<Slotframe>, asn: nat)
      returns (best: Option<Link>, offset: nat, backup: Option<Link>)
    requires WellFormed(sfs)
    ensures NextLink(packets, Links(sfs), asn, best, offset, backup)
  {
    LinksFit(sfs);
    best, offset, backup := SummaryExists(packets, Links(sfs), asn);
    SummaryIsNextLink(packets, Links(sfs), asn, best, offset, backup);
  }

  lemma RoundExists(sfs: seq<Slotframe>, t: Table, locked: bool, k: Clock, compensation: int) returns (p: Pass)
    requires WellFormed(sfs) && TableOk(t)
    ensures PassOk(sfs, t, locked, k, p) && p.compensation == compensation
  {
    if locked {
      p := Pass(None, 0, None, compensation);
    } else {
      var best, offset, backup := LookupExists(PacketCounts(t), sfs, k.asn);
      p := Pass(best, offset, backup, compensation);
    }
  }

  /** Rounds with these compensations. */
  predicate Compensated(ps: seq<Pass>, compensations: seq<int>) {
    |ps| == |compensations| && forall i | 0 <= i < |ps| :: ps[i].compensation == compensations[i]
  }

  lemma {:induction false} RoundsExist(sfs: seq<Slotframe>, t: Table, locked: bool, tm: Timer, k: Clock, cs: seq<int>)
      returns (ps: seq<Pass>)
    requires WellFormed(sfs) && TableOk(t) && tm.modulus > 0
    ensures PassesOk(sfs, t, locked, tm, k, ps) && Compensated(ps, cs)
    decreases |cs|
  {
    if cs == [] {
      ps := [];
    } else {
      var u := Refresh(t, locked, k);
      var p := RoundExists(sfs, u, locked, k, cs[0]);
      var rest := RoundsExist(sfs, u, locked, tm, Advance(tm, k, p), cs[1..]);
      ps := [p] + rest;
      assert ps[0] == p && ps[1..] == rest;
    }
  }

  lemma SelectionExists(t: Table, locked: bool, link: Link) returns (r: Option<Addr>)
    requires TableOk(t)
    ensures Selects(t, locked, link, r)
  {
    if locked || !link.tx {
      r := None;
    } else if link.kind != Normal && Offers(t, EbAddress, link) {
      r := Some(EbAddress);
    } else if link.kind == AdvertisingOnly {
      r := None;
    } else if Offers(t, link.addr, link) {
      r := Some(link.addr);
    } else if link.addr == Broadcast && exists a :: a in t && Unserved(t, a) && Offers(t, a, link) {
      var a :| a in t && Unserved(t, a) && Offers(t, a, link);
      r := Some(a);
    } else {
      r := None;
    }
  }

  // ---- The interrupt ----

  /** The next slot is run, unless there is no link for it or the lock has been requested; then it is
      skipped. */
  lemma IdleGoesOn(m: Params, s: State, cs: seq<int>) returns (a: IrqAct)
    requires m.Valid() && Shape(s) && s.phase == Idle && cs != []
    ensures IrqEnabled(m, s, a)
    ensures if s.clk.current == None || s.requested then a.Skip? && Compensated(a.passes, cs) else a.Enter?
  {
    if s.clk.current == None || s.requested {
      var ps := RoundsExist(s.sfs, s.nbrs, s.locked, m.tm, s.clk, cs);
      a := Skip(ps);
    } else {
      var first := SelectionExists(s.nbrs, s.locked, s.clk.current.value);
      var second := None;
      if SkipsBest(s.clk, first) {
        second := SelectionExists(TableAtEntry(s, first), s.locked, s.clk.backup.value);
      }
      a := Enter(first, second);
    }
  }

  /** After a slot any number of deadlines may be missed, with any compensations. */
  lemma SlotEndGoesOn(m: Params, s: State, cs: seq<int>) returns (ps: seq<Pass>)
    requires m.Valid() && Shape(s) && s.phase == SlotEnd && cs != []
    ensures IrqEnabled(m, s, End(ps)) && Compensated(ps, cs)
  {
    ps := RoundsExist(s.sfs, s.nbrs, s.locked, m.tm, s.clk, cs);
  }

  /** A Tx slot may succeed or fail, with any drift and draw; an Rx slot may hear any frame or none. */
  lemma SlotGoesOn(m: Params, s: State, ok: bool, acked: bool, drift: int, random: nat, frame: Option<Frame>)
    requires m.Valid() && Shape(s) && (acked ==> ok)
    ensures s.phase.TxSlot? ==> IrqEnabled(m, s, TxEnd(ok, acked, drift, random))
    ensures s.phase == RxSlot ==> IrqEnabled(m, s, RxEnd(frame))
  {
  }

  // ---- The main thread ----

  /** What the main thread does next with what it has begun, if anything. */
  function Pending(s: State): Option<MainAct> {
    if s.removing.Some? then Some(Section(EndRemove))
    else if s.resetting.Some? then Some(Upkeep(ResetExponent))
    else if s.adding.Allocated? then Some(Move(AddWrite))
    else if s.adding.Written? then Some(Move(AddCommit))
    else if s.owed.Some? && s.pc == Outside then Some(Upkeep(Settle))
    else if s.pc == Requesting then Some(Lock(Request))
    else if s.pc == Waiting then Some(Lock(Wait))
    else if s.pc == Rechecking then Some(Lock(Recheck))
    else if s.pc == Taking then Some(Lock(Take))
    else if s.pc == Clearing then Some(Lock(Clear))
    else if s.pc == Inside then Some(Lock(Unlock))
    else None
  }

  /** It can do that. */
  lemma MainGoesOn(m: Params, s: State)
    requires m.Valid() && Sound(m, s) && Pending(s).Some?
    ensures MainEnabled(s, Pending(s).value)
  {
    var a := Pending(s).value;
    assert Sequential(s, a);
  }

  /** With nothing under way it can ask for the lock, add a packet to any queue with room, flush one
      that is not empty outside Tx slots, take what was dequeued, and drop any neighbour that is not
      virtual, no time source, without a Tx link and without packets; and it can do none of these
      otherwise. */
  lemma MainStartsAnything(s: State, n: Addr, p: Pid, limit: nat)
    requires Shape(s) && LockInv(s) && Pending(s) == None
    ensures MainEnabled(s, Lock(Ask))
    ensures MainEnabled(s, Move(AddAlloc(n, p, limit))) <==>
      n in s.nbrs && |s.nbrs[n].ring.Contents()| < s.nbrs[n].ring.room && p !in s.packets
    ensures MainEnabled(s, Move(FlushHead(n))) <==>
      n in s.nbrs && s.nbrs[n].ring.Contents() != [] && !s.phase.TxSlot?
    ensures MainEnabled(s, Move(TakeDequeued)) <==> s.dequeued.Contents() != []
    ensures MainEnabled(s, Upkeep(ResetWindow(n))) <==> n in s.nbrs
    ensures MainEnabled(s, Upkeep(DropNbr(n))) <==>
      && n in s.nbrs && n.Node? && !s.nbrs[n].isTimeSource
      && s.nbrs[n].txLinks == 0 && s.nbrs[n].ring.Contents() == []
  {
    Free(s);
    if n in s.nbrs {
      GetDropsHead(s.nbrs[n].ring);
    }
    GetDropsHead(s.dequeued);
  }

  lemma Free(s: State)
    requires LockInv(s) && Pending(s) == None
    ensures s.pc == Outside && s.adding == NotAdding && s.removing == None && s.resetting == None && s.owed == None
  {
  }

  /** Once the slot in progress has ended, the wait for the lock is over in four steps of its own. */
  lemma WaitIsOver(m: Params, s: State)
    requires m.Valid() && Sound(m, s) && s.pc in {Waiting, Rechecking, Taking, Clearing} && !s.inSlot
    ensures var t := Next(m, s, Main(Pending(s).value));
      && t.pc == (if s.pc == Waiting then Rechecking else if s.pc == Rechecking then Taking
                  else if s.pc == Taking then Clearing else Inside)
      && (t.pc == Inside ==> t.locked && !t.requested)
  {
    MainGoesOn(m, s);
  }
}
