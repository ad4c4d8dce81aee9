/** What holds in every state of every run of the slot machine. */
module SlotRuns {
  import opened Types
  import opened Rings
  import opened Queue
  import opened Lookup
  import opened Rescheduling
  import opened SlotMachine
  import opened SlotInvariants
  import opened SlotClock
  import opened SlotBackoff

  /** The clock aside. */
  ghost predicate Sound(m: Params, s: State)
    requires m.Valid()
  {
    Shape(s) && LockInv(s) && QueueInv(s) && BoundsInv(m, s)
  }

  ghost predicate Inv(m: Params, asn0: nat, start0: nat, s: State)
    requires m.Valid()
  {
    Sound(m, s) && ClockInv(m, asn0, start0, s)
  }

  lemma StepKeepsSound(m: Params, s: State, a: Act)
    requires m.Valid() && Sound(m, s)
    ensures Sound(m, Next(m, s, a))
  {
    StepKeepsBounds(m, s, a);
    match a
    case Main(x) =>
      if MainEnabled(s, x) {
        LockKeptByMain(m, s, x);
        MainKeepsQueues(m, s, x);
      }
    case Irq(x) =>
      if IrqEnabled(m, s, x) {
        LockKeptByIrq(m, s, x);
        IrqKeepsQueues(m, s, x);
      }
  }

  lemma StepKeepsClock(m: Params, asn0: nat, start0: nat, s: State, a: Act)
    requires m.Valid() && Shape(s) && ClockInv(m, asn0, start0, s)
    ensures ClockInv(m, asn0, start0, Next(m, s, a))
  {
    match a
    case Main(x) =>
      if MainEnabled(s, x) {
        MainKeepsClock(m, asn0, start0, s, x);
      }
    case Irq(x) =>
      if IrqEnabled(m, s, x) {
        IrqKeepsClock(m, asn0, start0, s, x);
      }
  }

  /** Every step of either agent keeps every invariant. */
  lemma StepKeepsInv(m: Params, asn0: nat, start0: nat, s: State, a: Act)
    requires m.Valid() && Inv(m, asn0, start0, s)
    ensures Inv(m, asn0, start0, Next(m, s, a))
  {
    StepKeepsSound(m, s, a);
    StepKeepsClock(m, asn0, start0, s, a);
  }

  lemma {:induction false} RunKeepsSound(m: Params, s: State, acts: seq<Act>)
    requires m.Valid() && Sound(m, s)
    ensures Sound(m, Exec(m, s, acts))
    decreases |acts|
  {
    if acts != [] {
      StepKeepsSound(m, s, acts[0]);
      RunKeepsSound(m, Next(m, s, acts[0]), acts[1..]);
    }
  }

  lemma InitQueues(m: Params, asn0: nat, start0: nat, ps: seq<Pass>, s: State)
    requires Init(m, asn0, start0, ps, s)
    ensures Sound(m, s) && TableFits(m.q, s.nbrs, true)
  {
  }

  lemma InitInv(m: Params, asn0: nat, start0: nat, ps: seq<Pass>, s: State)
    requires Init(m, asn0, start0, ps, s)
    ensures Inv(m, asn0, start0, s)
  {
    InitClock(m, asn0, start0, ps, s);
    InitQueues(m, asn0, start0, ps, s);
  }

  /** Every run keeps every invariant. */
  lemma {:induction false} RunKeepsInv(m: Params, asn0: nat, start0: nat, s: State, acts: seq<Act>)
    requires m.Valid() && Inv(m, asn0, start0, s)
    ensures Inv(m, asn0, start0, Exec(m, s, acts))
    decreases |acts|
  {
    if acts != [] {
      StepKeepsInv(m, asn0, start0, s, acts[0]);
      RunKeepsInv(m, asn0, start0, Next(m, s, acts[0]), acts[1..]);
    }
  }
}
