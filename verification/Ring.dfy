/** The lock-free ring behind every packet queue: one producer writes the slot at the
    put index and then commits, one consumer reads the slot at the get index and then
    advances. Counters only grow; an index is a counter modulo the array length. */
module Rings {
  import opened Types
  import NumberTheory

  type Pid = nat

  /** `room` is how many elements the index arithmetic lets in (at most the array length). */
  datatype Ring = Ring(slots: seq<Pid>, get: nat, put: nat, room: nat) {
    predicate Valid() {
      0 < room <= |slots| && get <= put <= get + room
    }

    function Contents(): (c: seq<Pid>)
      requires Valid()
      ensures |c| == put - get
    {
      seq(put - get, k requires 0 <= k => slots[(get + k) % |slots|])
    }

    /** The index to write to, or None when the ring is full. */
    function PeekPut(): (i: Option<nat>)
      requires Valid()
      ensures i.Some? ==> i.value < |slots|
    {
      if put - get < room then Some(put % |slots|) else None
    }

    /** The producer's write: not visible before the commit. */
    function Write(index: nat, p: Pid): Ring
      requires Valid() && index < |slots|
    {
      this.(slots := slots[index := p])
    }

    function Commit(): Ring
      requires Valid()
    {
      if put - get < room then this.(put := put + 1) else this
    }

    function Head(): (h: Option<Pid>)
      requires Valid()
    {
      if get < put then Some(slots[get % |slots|]) else None
    }

    function Get(): Ring
      requires Valid()
    {
      if get < put then this.(get := get + 1) else this
    }
  }

  function EmptyRing(size: nat, room: nat): (r: Ring)
    requires 0 < room <= size
    ensures r.Valid() && r.Contents() == [] && r.room == room && |r.slots| == size
  {
    Ring(seq(size, _ => 0), 0, 0, room)
  }

  /** The slot about to be written holds no queued element. */
  lemma PutSlotIsFree(r: Ring, k: nat)
    requires r.Valid() && r.put - r.get < r.room && r.get <= k < r.put
    ensures k % |r.slots| != r.put % |r.slots|
  {
    var n := |r.slots|;
    if k % n == r.put % n {
      NumberTheory.ModEqual(r.put, k, n);
      NumberTheory.ModUnique(r.put - k, n, 0, r.put - k);
    }
  }

  /** Writing at the peeked index leaves the queue unchanged for the consumer. */
  lemma WriteInvisible(r: Ring, p: Pid)
    requires r.Valid() && r.PeekPut().Some?
    ensures r.Write(r.PeekPut().value, p).Valid()
    ensures r.Write(r.PeekPut().value, p).Contents() == r.Contents()
  {
    var w := r.Write(r.PeekPut().value, p);
    forall k | 0 <= k < r.put - r.get ensures w.Contents()[k] == r.Contents()[k] {
      PutSlotIsFree(r, r.get + k);
    }
  }

  /** A commit appends exactly what was written at the put index. */
  lemma CommitAppends(r: Ring)
    requires r.Valid() && r.PeekPut().Some?
    ensures r.Commit().Valid()
    ensures r.Commit().Contents() == r.Contents() + [r.slots[r.PeekPut().value]]
  {
  }

  lemma GetDropsHead(r: Ring)
    requires r.Valid()
    ensures r.Get().Valid()
    ensures r.Head().Some? <==> r.Contents() != []
    ensures r.Contents() != [] ==> r.Head() == Some(r.Contents()[0]) && r.Get().Contents() == r.Contents()[1..]
    ensures r.Contents() == [] ==> r.Get() == r
  {
    if r.get < r.put {
      assert r.Get().Contents() == r.Contents()[1..];
    }
  }
}
