/** The Q-learning node: Q-values over the unicast timeslots, and the scheduler that moves
    the one Tx cell of the unicast slotframe to the chosen timeslot. */
module QlNodes {
  import opened Types
  import opened Queue
  import opened Store
  import opened Lookup
  import opened QlSchedules
  import opened TschQueues
  import opened TschSchedules
  import SlotOperations
  import SlotSections

  const LEARNING_RATE := 0.1
  const DISCOUNT_FACTOR := 0.95
  const REWARD_SUCCESS := 1.0
  const REWARD_FAILURE := 0.0

  // ---- Q-values ----

  /** The new Q-value, from the old one, the reward, and the Q-value the index search found. */
  function Learned(q: real, reward: real, found: real): real {
    (1.0 - LEARNING_RATE) * q
      + LEARNING_RATE * (reward + DISCOUNT_FACTOR * (found + REWARD_SUCCESS) - q)
  }

  /** The value no Q-value passes: its own successor under success. */
  const LIMIT := 13.0 / 7.0

  predicate Bounded(q: seq<real>) {
    forall i | 0 <= i < |q| :: 0.0 <= q[i] <= LIMIT
  }

  /** One update: action, reward, and the index the search returned. */
  datatype Update = Update(action: nat, reward: real, found: nat)

  predicate Possible(u: Update, n: nat) {
    u.action < n && u.found < n && (u.reward == REWARD_SUCCESS || u.reward == REWARD_FAILURE)
  }

  function Applied(q: seq<real>, u: Update): (r: seq<real>)
    requires Possible(u, |q|)
    ensures |r| == |q|
  {
    q[u.action := Learned(q[u.action], u.reward, q[u.found])]
  }

  function AppliedAll(q: seq<real>, us: seq<Update>): (r: seq<real>)
    requires forall i | 0 <= i < |us| :: Possible(us[i], |q|)
    ensures |r| == |q|
    decreases |us|
  {
    if us == [] then q else AppliedAll(Applied(q, us[0]), us[1..])
  }

  /** Whatever the actions, rewards and search results, Q-values stay within [0, 13/7]. */
  lemma {:induction false} QValuesStayBounded(q: seq<real>, us: seq<Update>)
    requires Bounded(q) && forall i | 0 <= i < |us| :: Possible(us[i], |q|)
    ensures Bounded(AppliedAll(q, us))
    decreases |us|
  {
    if us != [] {
      QValuesStayBounded(Applied(q, us[0]), us[1..]);
    }
  }

  /** A gap multiplied by 0.895, k times. */
  function Shrunk(gap: real, k: nat): real
    decreases k
  {
    if k == 0 then gap else Shrunk(0.895 * gap, k - 1)
  }

  /** Where an entry that only ever gets this reward, from its own value, ends up. */
  function FixedPoint(reward: real): real {
    if reward == REWARD_SUCCESS then 13.0 / 7.0 else 19.0 / 21.0
  }

  /** What one update does to a value, in numbers. The value found pulls it up by 0.095 of the
      difference, and failure costs exactly 0.1. */
  lemma LearnedInNumbers(q: real, found: real)
    ensures Learned(q, 1.0, found) == 0.895 * q + 0.195 + 0.095 * (found - q)
    ensures 13.0 / 7.0 - Learned(q, 1.0, found) == 0.895 * (13.0 / 7.0 - q) - 0.095 * (found - q)
    ensures Learned(q, 0.0, found) == Learned(q, 1.0, found) - 0.1
    ensures REWARD_SUCCESS == 1.0 && REWARD_FAILURE == 0.0
  {
  }

  /** The same reward again and again for an action whose own value the search finds each time. */
  predicate Repeats(q: seq<real>, action: nat, reward: real, us: seq<Update>)
    requires action < |q|
    decreases |us|
  {
    us == [] ||
    (Possible(us[0], |q|) && us[0].action == action && us[0].reward == reward
     && q[us[0].found] == q[action] && Repeats(Applied(q, us[0]), action, reward, us[1..]))
  }

  function AfterRepeats(q: seq<real>, action: nat, reward: real, us: seq<Update>): (r: seq<real>)
    requires action < |q| && Repeats(q, action, reward, us)
    ensures |r| == |q|
    decreases |us|
  {
    if us == [] then q else AfterRepeats(Applied(q, us[0]), action, reward, us[1..])
  }

  lemma OwnGapShrinks(q: real, reward: real)
    requires reward == REWARD_SUCCESS || reward == REWARD_FAILURE
    ensures FixedPoint(reward) - Learned(q, reward, q) == 0.895 * (FixedPoint(reward) - q)
  {
  }

  lemma {:induction false} RepeatClosesTheGap(q: seq<real>, action: nat, reward: real, us: seq<Update>)
    requires action < |q| && Repeats(q, action, reward, us)
    requires reward == REWARD_SUCCESS || reward == REWARD_FAILURE
    ensures FixedPoint(reward) - AfterRepeats(q, action, reward, us)[action] ==
      Shrunk(FixedPoint(reward) - q[action], |us|)
    decreases |us|
  {
    if us != [] {
      RepeatClosesTheGap(Applied(q, us[0]), action, reward, us[1..]);
      OwnGapShrinks(q[action], reward);
    }
  }

  /** The gap to 13/7 shrinks by exactly 0.895 with each success. */
  lemma SuccessClosesTheGap(q: seq<real>, action: nat, us: seq<Update>)
    requires action < |q| && Repeats(q, action, 1.0, us)
    ensures 13.0 / 7.0 - AfterRepeats(q, action, 1.0, us)[action] == Shrunk(13.0 / 7.0 - q[action], |us|)
  {
    RepeatClosesTheGap(q, action, 1.0, us);
  }

  /** And the gap to 19/21 with each failure. */
  lemma FailureClosesTheGap(q: seq<real>, action: nat, us: seq<Update>)
    requires action < |q| && Repeats(q, action, 0.0, us)
    ensures 19.0 / 21.0 - AfterRepeats(q, action, 0.0, us)[action] == Shrunk(19.0 / 21.0 - q[action], |us|)
  {
    RepeatClosesTheGap(q, action, 0.0, us);
  }

  /** The index the source's search for the largest entry ends with, having `max` before entry i. */
  function MaxScan(q: seq<real>, max: nat, i: nat): (r: nat)
    requires max < |q|
    ensures r < |q|
    decreases |q| - i
  {
    if i >= |q| then max else MaxScan(q, if q[i] > q[max] then i else max, i + 1)
  }

  /** The same for the smallest. */
  function MinScan(a: seq<nat>, min: nat, i: nat): (r: nat)
    requires min < |a|
    ensures r < |a|
    decreases |a| - i
  {
    if i >= |a| then min else MinScan(a, if a[i] < a[min] then i else min, i + 1)
  }

  /** The updates of an action that gets the same reward each time, the search started at `starts`
      in turn. */
  function Rewarded(q: seq<real>, action: nat, reward: real, starts: seq<nat>): (us: seq<Update>)
    requires action < |q| && forall i | 0 <= i < |starts| :: starts[i] < |q|
    requires reward == REWARD_SUCCESS || reward == REWARD_FAILURE
    decreases |starts|
  {
    if starts == [] then []
    else
      var u := Update(action, reward, MaxScan(q, starts[0], 1));
      [u] + Rewarded(Applied(q, u), action, reward, starts[1..])
  }

  predicate Largest(q: seq<real>, action: nat)
    requires action < |q|
  {
    forall i | 0 <= i < |q| :: q[i] <= q[action]
  }

  /** A largest entry that the search can meet is as good as what it finds. */
  lemma {:induction false} ScanFindsLargest(q: seq<real>, action: nat, max: nat, i: nat)
    requires action < |q| && Largest(q, action) && max < |q| && (i <= action || q[max] == q[action])
    ensures q[MaxScan(q, max, i)] == q[action]
    decreases |q| - i
  {
    if i < |q| {
      ScanFindsLargest(q, action, if q[i] > q[max] then i else max, i + 1);
    }
  }

  /** Only the action's value has changed, and it still is the largest of a bounded table. */
  predicate StillLargest(q: seq<real>, action: nat, r: seq<real>)
    requires action < |q| == |r|
  {
    Bounded(r) && Largest(r, action) && r == q[action := r[action]]
  }

  /** Does the largest entry stay so whatever number of times it gets this reward? Failure moves it
      towards 19/21, past the entries above that. */
  predicate StaysLargest(q: seq<real>, action: nat, reward: real)
    requires action < |q|
  {
    && Largest(q, action)
    && (reward == REWARD_FAILURE && q[action] > 19.0 / 21.0 ==>
          forall i | 0 <= i < |q| && i != action :: q[i] <= 19.0 / 21.0)
  }

  lemma OneReward(q: seq<real>, action: nat, u: Update)
    requires Bounded(q) && action < |q| && StaysLargest(q, action, u.reward)
    requires Possible(u, |q|) && u.action == action && q[u.found] == q[action]
    ensures StillLargest(q, action, Applied(q, u)) && StaysLargest(Applied(q, u), action, u.reward)
  {
    OwnGapShrinks(q[action], u.reward);
  }

  lemma {:induction false} LargestRewarded(q: seq<real>, action: nat, reward: real, starts: seq<nat>)
    requires Bounded(q) && action < |q| && StaysLargest(q, action, reward)
    requires reward == REWARD_SUCCESS || reward == REWARD_FAILURE
    requires forall i | 0 <= i < |starts| :: starts[i] < |q| && (action > 0 || starts[i] == 0)
    ensures var us := Rewarded(q, action, reward, starts); |us| == |starts| && Repeats(q, action, reward, us)
    ensures StillLargest(q, action, AfterRepeats(q, action, reward, Rewarded(q, action, reward, starts)))
    decreases |starts|
  {
    if starts != [] {
      var u := Update(action, reward, MaxScan(q, starts[0], 1));
      var q', us := Applied(q, u), Rewarded(q, action, reward, starts);
      ScanFindsLargest(q, action, starts[0], 1);
      OneReward(q, action, u);
      LargestRewarded(q', action, reward, starts[1..]);
      assert us[0] == u && us[1..] == Rewarded(q', action, reward, starts[1..]);
    }
  }

  /** A bounded table's largest entry stays its largest under success, the search finds its value
      each time, and its gap to 13/7 closes; entry 0 if it is where every search starts. */
  lemma SuccessOfTheLargest(q: seq<real>, action: nat, starts: seq<nat>)
    requires Bounded(q) && action < |q| && Largest(q, action)
    requires forall i | 0 <= i < |starts| :: starts[i] < |q| && (action > 0 || starts[i] == 0)
    ensures var us := Rewarded(q, action, 1.0, starts);
      && |us| == |starts| && Repeats(q, action, 1.0, us)
      && (var r := AfterRepeats(q, action, 1.0, us);
          StillLargest(q, action, r) && 13.0 / 7.0 - r[action] == Shrunk(13.0 / 7.0 - q[action], |starts|))
  {
    LargestRewarded(q, action, 1.0, starts);
    SuccessClosesTheGap(q, action, Rewarded(q, action, 1.0, starts));
  }

  /** Under failure it does so if it is at most 19/21, or every other entry is; and its gap to 19/21
      closes, from below or from above. */
  lemma FailureOfTheLargest(q: seq<real>, action: nat, starts: seq<nat>)
    requires Bounded(q) && action < |q| && Largest(q, action)
    requires q[action] <= 19.0 / 21.0 || forall i | 0 <= i < |q| && i != action :: q[i] <= 19.0 / 21.0
    requires forall i | 0 <= i < |starts| :: starts[i] < |q| && (action > 0 || starts[i] == 0)
    ensures var us := Rewarded(q, action, 0.0, starts);
      && |us| == |starts| && Repeats(q, action, 0.0, us)
      && (var r := AfterRepeats(q, action, 0.0, us);
          StillLargest(q, action, r) && 19.0 / 21.0 - r[action] == Shrunk(19.0 / 21.0 - q[action], |starts|))
  {
    LargestRewarded(q, action, 0.0, starts);
    FailureClosesTheGap(q, action, Rewarded(q, action, 0.0, starts));
  }

  /** Search for the largest entry, from a random start; index 0 is looked at only as the start. */
  method MaxIndex(values: array<real>, start: nat) returns (max: nat)
    requires start < values.Length
    ensures max == MaxScan(values[..], start, 1)
    ensures max < values.Length && values[max] >= values[start]
    ensures max == start || (values[max] > values[start] && forall i | 1 <= i < max :: values[i] < values[max])
    ensures forall i | 1 <= i < values.Length :: values[max] >= values[i]
    ensures (forall i | 0 <= i < values.Length :: values[max] >= values[i])
      <==> start == 0 || exists i | 1 <= i < values.Length :: values[i] >= values[0]
  {
    max := start;
    var i := 1;
    while i < values.Length
      invariant 1 <= i && max < values.Length && (max == start || 1 <= max < i)
      invariant MaxScan(values[..], max, i) == MaxScan(values[..], start, 1)
      invariant values[max] >= values[start]
      invariant max == start || (values[max] > values[start] && forall j | 1 <= j < max :: values[j] < values[max])
      invariant forall j | 1 <= j < i && j < values.Length :: values[max] >= values[j]
    {
      if values[i] > values[max] {
        max := i;
      }
      i := i + 1;
    }
  }

  /** The same search for the smallest entry of the APT table. */
  method MinIndex(values: array<nat>, start: nat) returns (min: nat)
    requires start < values.Length
    ensures min == MinScan(values[..], start, 1)
    ensures min < values.Length && values[min] <= values[start]
    ensures min == start || (values[min] < values[start] && forall i | 1 <= i < min :: values[i] > values[min])
    ensures forall i | 1 <= i < values.Length :: values[min] <= values[i]
    ensures (forall i | 0 <= i < values.Length :: values[min] <= values[i])
      <==> start == 0 || exists i | 1 <= i < values.Length :: values[i] <= values[0]
  {
    min := start;
    var i := 1;
    while i < values.Length
      invariant 1 <= i && min < values.Length && (min == start || 1 <= min < i)
      invariant MinScan(values[..], min, i) == MinScan(values[..], start, 1)
      invariant values[min] <= values[start]
      invariant min == start || (values[min] < values[start] && forall j | 1 <= j < min :: values[j] > values[min])
      invariant forall j | 1 <= j < i && j < values.Length :: values[min] <= values[j]
    {
      if values[i] < values[min] {
        min := i;
      }
      i := i + 1;
    }
  }

  /** Entry 0 is the largest, and the smallest, and both searches miss it when started at 1. */
  lemma SearchesMissEntryZero()
    ensures MaxScan([1.0, 0.0], 1, 1) == 1 && [1.0, 0.0][1] < [1.0, 0.0][0]
    ensures MinScan([0, 1], 1, 1) == 1 && [0, 1][1] > [0, 1][0]
  {
  }

  /** What a turn learns: nothing without a Tx slot, else one update of the current action. */
  predicate Earned(us: seq<Update>, status: nat, action: nat, n: nat) {
    && |us| == (if status == 0 then 0 else 1)
    && forall i | 0 <= i < |us| ::
        && Possible(us[i], n) && us[i].action == action
        && us[i].reward == if status == 1 then REWARD_SUCCESS else REWARD_FAILURE
  }

  /** The same in numbers: nothing without a Tx slot, else 0.8 of the action's value, 0.095 of the
      largest found, and 0.195 for a success or 0.095 for a failure. */
  function Taught(q: seq<real>, action: nat, status: nat, start: nat): (r: seq<real>)
    requires action < |q| && start < |q|
    ensures |r| == |q|
  {
    if status == 0 then q
    else q[action := 0.8 * q[action] + 0.095 * q[MaxScan(q, start, 1)] + if status == 1 then 0.195 else 0.095]
  }

  lemma AppliedIsTaught(q: seq<real>, u: Update, status: nat, start: nat)
    requires start < |q| && Possible(u, |q|) && u.found == MaxScan(q, start, 1) && status != 0
    requires u.reward == if status == 1 then 1.0 else 0.0
    ensures Applied(q, u) == Taught(q, u.action, status, start)
  {
    LearnedInNumbers(q[u.action], q[u.found]);
  }

  /** The slotframe with handle h exists and has this size. */
  ghost predicate Sized(sfs: seq<Slotframe>, h: nat, size: nat) {
    Has(sfs, h) && forall i | 0 <= i < |sfs| && sfs[i].handle == h :: sfs[i].size == size
  }

  lemma SizedKept(sfs: seq<Slotframe>, now: seq<Slotframe>, h: nat, size: nat)
    requires Sized(sfs, h, size) && |now| == |sfs|
    requires forall i | 0 <= i < |sfs| :: now[i].handle == sfs[i].handle && now[i].size == sfs[i].size
    ensures Sized(now, h, size)
  {
    var i :| 0 <= i < |sfs| && sfs[i].handle == h;
    assert now[i].handle == h;
  }

  lemma SizedAdded(s: Snapshot, h: nat, gone: set<Link>, l: Link, size: nat)
    requires Sized(s.sfs, h, size)
    ensures Sized(Added(s, h, l).sfs, h, size) && Sized(Added(Removed(s, h, gone), h, l).sfs, h, size)
  {
    SizedKept(s.sfs, Added(s, h, l).sfs, h, size);
    SizedKept(s.sfs, Added(Removed(s, h, gone), h, l).sfs, h, size);
  }

  lemma SizedInFrame(sfs: seq<Slotframe>, h: nat, size: nat, timeslot: nat)
    requires Sized(sfs, h, size) && timeslot < size
    ensures InFrame(sfs, h, timeslot)
  {
    var i :| 0 <= i < |sfs| && sfs[i].handle == h;
  }

  lemma SizedPeriod(sfs: seq<Slotframe>, h: nat, size: nat, l: Link)
    requires WellFormed(sfs) && Sized(sfs, h, size) && l in Links(sfs) && l.sfHandle == h
    ensures l.period == size
  {
    var i := LinkPlace(sfs, l);
  }

  /** What the node asks for at timeslot i of the unicast slotframe. */
  function UnicastRequest(i: nat, tx: bool): Request {
    Request(tx, !tx, true, Normal, Some(Broadcast), i, 0)
  }

  /** Swapping the link of timeslot i for a new one, as tsch_schedule_add_link does. */
  lemma ReplacedAt(n: Lengths, s: Snapshot, b: Link, cells: seq<Link>, i: nat, tx: bool, other: nat,
      nullAddr: Addr, now: seq<Slotframe>, l: Link)
    requires Sized(s.sfs, 1, n.q) && other != i && i < |cells|
    requires Installed(n, Links(s.sfs), b, cells, other, if tx then other else i)
    requires var gone := AtSlot(Links(s.sfs), 1, i, 0);
      now == Added(Removed(s, 1, gone), 1, l).sfs && Links(now) == Links(s.sfs) - gone + {l}
    requires Made(l, 1, UnicastRequest(i, tx), nullAddr) && WellFormed(now)
    ensures Sized(now, 1, n.q)
    ensures Installed(n, Links(now), b, cells[i := l], if tx then i else other, other)
  {
    OneCellPerSlot(n, Links(s.sfs), b, cells, other, if tx then other else i, i);
    assert AtSlot(Links(s.sfs), 1, i, 0) == {cells[i]};
    SizedAdded(s, 1, {cells[i]}, l, n.q);
    SizedPeriod(now, 1, n.q, l);
    ReplaceCell(n, Links(s.sfs), b, cells, i, l, tx, other);
  }

  /** Giving timeslot i its first link. */
  lemma AppendedAt(n: Lengths, s: Snapshot, b: Link, cells: seq<Link>, i: nat, tx: bool,
      nullAddr: Addr, now: seq<Slotframe>, l: Link)
    requires Sized(s.sfs, 1, n.q) && Installed(n, Links(s.sfs), b, cells, 0, 0)
    requires i == |cells| < n.q && tx == (i == 0)
    requires now == Added(Removed(s, 1, {}), 1, l).sfs && Links(now) == Links(s.sfs) - {} + {l}
    requires Made(l, 1, UnicastRequest(i, tx), nullAddr) && WellFormed(now)
    ensures Sized(now, 1, n.q) && Installed(n, Links(now), b, cells + [l], 0, 0)
  {
    SizedAdded(s, 1, {}, l, n.q);
    SizedPeriod(now, 1, n.q, l);
    AppendCell(n, Links(s.sfs), b, cells, 0, 0, l);
    assert Links(s.sfs) - {} == Links(s.sfs);
  }

  lemma FirstLink(n: Lengths, s: Snapshot, nullAddr: Addr, now: seq<Slotframe>, l: Link)
    requires n.Valid() && Links(s.sfs) == {} && Sized(s.sfs, 0, n.p) && Sized(s.sfs, 1, n.q)
    requires now == Added(Removed(s, 0, {}), 0, l).sfs && Links(now) == Links(s.sfs) - {} + {l}
    requires Made(l, 0, BroadcastRequest(), nullAddr) && WellFormed(now)
    ensures Sized(now, 1, n.q) && Installed(n, Links(now), l, [], 0, 0)
  {
    SizedAdded(s, 0, {}, l, n.p);
    SizedPeriod(now, 0, n.p, l);
    SizedKept(s.sfs, now, 1, n.q);
    assert Links(now) == {l} + Listed([]);
  }

  lemma RoomForNext(n: Lengths, links: set<Link>, b: Link, cells: seq<Link>, free: set<nat>, linkPool: nat)
    requires Installed(n, links, b, cells, 0, 0) && |cells| < n.q
    requires PoolOk(links, free, linkPool) && linkPool >= 1 + n.q
    ensures free + Cells({}) != {}
  {
    CellsFit(b, cells);
    assert |free| > 0;
  }

  /** The same slotframes, by handle. */
  ghost predicate SameHandles(sfs: seq<Slotframe>, now: seq<Slotframe>) {
    |now| == |sfs| && forall i | 0 <= i < |sfs| :: now[i].handle == sfs[i].handle
  }

  /** One empty slotframe more, at the end. */
  ghost predicate LastIs(sfs: seq<Slotframe>, now: seq<Slotframe>, handle: nat, size: nat) {
    |now| == |sfs| + 1 && now[..|sfs|] == sfs && now[|sfs|].handle == handle && now[|sfs|].size == size
  }

  lemma FramesMade(sfs: seq<Slotframe>, n: Lengths, b: bool, u: bool)
    requires |sfs| == (if b then 1 else 0) + if u then 1 else 0
    requires b ==> sfs[0].handle == 0 && sfs[0].size == n.p
    requires u ==> sfs[|sfs| - 1].handle == 1 && sfs[|sfs| - 1].size == n.q
    ensures (b ==> Sized(sfs, 0, n.p)) && (u ==> Sized(sfs, 1, n.q))
  {
    assert b ==> sfs[0].handle == 0;
    assert u ==> sfs[|sfs| - 1].handle == 1;
  }

  lemma HandlesKept(s: Snapshot, h: nat, r: Option<Link>)
    ensures SameHandles(s.sfs, Removed(s, h, {}).sfs)
    ensures r.Some? ==> SameHandles(s.sfs, Added(Removed(s, h, {}), h, r.value).sfs)
  {
  }

  lemma NoCells(free: set<nat>)
    ensures free + Cells({}) == free
  {
  }

  lemma {:induction false} CountListed(b: Link, cells: seq<Link>)
    requires b !in cells && NoRepeats(cells)
    ensures |{b} + Listed(cells)| == 1 + |cells|
  {
    if cells == [] {
      assert {b} + Listed(cells) == {b};
    } else {
      var rest, last := cells[..|cells| - 1], cells[|cells| - 1];
      CountListed(b, rest);
      ListedNext(cells, |cells| - 1);
      assert cells[..|cells|] == cells;
      assert {b} + Listed(cells) == {b} + Listed(rest) + {last};
    }
  }

  lemma DistinctCells(n: Lengths, links: set<Link>, b: Link, cells: seq<Link>, action: nat)
    requires QlOk(n, links, b, cells, action)
    ensures b !in cells && NoRepeats(cells)
  {
    forall i, j | 0 <= i < j < |cells| ensures cells[i] != cells[j] {
      assert UnicastCell(n, cells[i], i, i == action) && UnicastCell(n, cells[j], j, j == action);
    }
    forall i | 0 <= i < |cells| ensures cells[i] != b {
      assert UnicastCell(n, cells[i], i, i == action);
    }
  }

  lemma CellsCount(n: Lengths, links: set<Link>, b: Link, cells: seq<Link>, action: nat)
    requires QlOk(n, links, b, cells, action)
    ensures |links| == 1 + n.q
  {
    DistinctCells(n, links, b, cells, action);
    CountListed(b, cells);
  }

  lemma {:induction false} TwoFrames(n: Lengths, sfs: seq<Slotframe>, b: Link, cells: seq<Link>, action: nat)
    requires WellFormed(sfs) && QlOk(n, Links(sfs), b, cells, action)
    ensures |sfs| >= 2
  {
    ActiveCells(n, Links(sfs), b, cells, action, action);
    var i := LinkPlace(sfs, b);
    var j := LinkPlace(sfs, cells[action % n.q]);
  }

  function BroadcastRequest(): Request {
    Request(true, true, true, Advertising, Some(Broadcast), 0, 0)
  }

  /** All cells hop together: nodes that agree on the ASN agree on the channel, whatever cell each
      of them uses. */
  lemma CellsShareChannel(n: Lengths, links: set<Link>, b: Link, cells: seq<Link>, action: nat, l: Link,
      asn: nat, length: nat)
    requires QlOk(n, links, b, cells, action) && l in links && length > 0
    ensures SlotOperations.ChannelIndex(asn, SlotOperations.ChannelOffset(l), length) == asn % length
  {
    if l != b {
      var i :| 0 <= i < |cells| && cells[i] == l;
      assert UnicastCell(n, l, i, i == action);
    }
    SlotOperations.OffsetsSeparateChannels(asn, 0, 0, length);
  }

  /** What the node learns from: a frame received in a unicast cell is counted for the action of that
      cell, and one received in the broadcast cell for none. */
  lemma CellsFeedTheTable(n: Lengths, links: set<Link>, b: Link, cells: seq<Link>, action: nat, i: nat, j: nat)
    requires QlOk(n, links, b, cells, action) && i < n.q
    ensures SlotSections.Counts(Some(cells[i]), j) <==> i == j
    ensures !SlotSections.Counts(Some(b), j)
  {
    assert UnicastCell(n, cells[i], i, i == action);
  }

  lemma RoomAtSlot(n: Lengths, links: set<Link>, b: Link, cells: seq<Link>, x: nat, y: nat, i: nat, free: set<nat>)
    requires Installed(n, links, b, cells, x, y) && i < |cells|
    ensures free + Cells(AtSlot(links, 1, i, 0)) != {}
  {
    OneCellPerSlot(n, links, b, cells, x, y, i);
    assert AtSlot(links, 1, i, 0) == {cells[i]};
    assert cells[i].cell in Cells(AtSlot(links, 1, i, 0));
  }

  class QlNode {
    const n: Lengths
    const schedule: TschSchedule
    const qValues: array<real>
    const unicastLinks: array<Option<Link>>
    var currentAction: nat
    ghost var broadcastLink: Link
    ghost var cells: seq<Link>

    /** The parts fit together, TSCH is unlocked, and the neighbour counters mirror the links. */
    ghost predicate Ready()
      reads schedule, schedule.g, schedule.queue
    {
      && n.Valid() && schedule.Valid() && !schedule.g.locked && schedule.Mirrored()
      && qValues.Length == n.q && unicastLinks.Length == n.q
    }

    /** Besides the broadcast link, the installed links are `links`, one per timeslot of the
        unicast slotframe, the Tx ones at timeslots x and y. */
    ghost predicate Holds(links: seq<Link>, x: nat, y: nat)
      reads `broadcastLink, schedule, schedule.g, schedule.queue
    {
      && Ready() && Sized(schedule.slotframes, 1, n.q) && |links| <= n.q
      && Installed(n, Links(schedule.slotframes), broadcastLink, links, x, y)
    }

    /** The link array points to the installed unicast links. */
    ghost predicate Points()
      reads `cells, unicastLinks
    {
      && unicastLinks.Length == n.q && |cells| <= n.q
      && forall i | 0 <= i < |cells| :: unicastLinks[i] == Some(cells[i])
    }

    /** The state between two updates. */
    ghost predicate Valid()
      reads `broadcastLink, `cells, `currentAction, schedule, schedule.g, schedule.queue, unicastLinks
    {
      Holds(cells, currentAction, currentAction) && Points() && |cells| == n.q && currentAction < n.q
    }

    /** Between updates two installed links transmit to the broadcast address, none dedicated. */
    lemma CountsTwo()
      requires Valid()
      ensures Broadcast in schedule.queue.nbrs
      ensures var b := schedule.queue.nbrs[Broadcast]; b.txLinks == 2 && b.dedicatedTxLinks == 0
    {
      QlCountsTwo(n, Links(schedule.slotframes), broadcastLink, cells, currentAction, schedule.queue.nbrs);
    }

    /** Whatever the lookup returns between updates, it is the very next slot. */
    lemma NextSlotIsUsed(packets: map<Addr, nat>, asn: nat, best: Option<Link>, offset: nat, backup: Option<Link>)
      requires Valid() && NextLink(packets, Links(schedule.slotframes), asn, best, offset, backup)
      ensures offset == 1 && best.Some?
      ensures best == if (asn + 1) % n.p == 0 then Some(broadcastLink) else unicastLinks[(asn + 1) % n.q]
      ensures best.value.tx <==> (asn + 1) % n.p == 0 || (asn + 1) % n.q == currentAction
    {
      QlLookup(n, Links(schedule.slotframes), broadcastLink, cells, currentAction, packets, asn, best, offset, backup);
      ActiveCells(n, Links(schedule.slotframes), broadcastLink, cells, currentAction, asn + 1);
    }

    constructor (n: Lengths, schedule: TschSchedule)
      requires n.Valid()
      ensures qValues.Length == n.q && unicastLinks.Length == n.q && this.n == n && this.schedule == schedule
      ensures currentAction == 0 && cells == []
      ensures fresh(qValues) && fresh(unicastLinks) && Bounded(qValues[..])
    {
      this.n, this.schedule, currentAction := n, schedule, 0;
      qValues := new real[n.q](i => 0.0);
      unicastLinks := new Option<Link>[n.q](i => None);
      cells := [];
    }

    /** Do the pools hold the two slotframes and all their links? */
    predicate HasRoom() {
      schedule.sfPool >= 2 && schedule.linkPool >= 1 + n.q
    }

    ghost predicate Known(sf: Option<nat>)
      reads schedule
    {
      sf.Some? ==> Has(schedule.slotframes, sf.value)
    }

    /** Two empty slotframes, whatever was there before, as far as the pool goes. */
    method MakeFrames() returns (bSf: Option<nat>, uSf: Option<nat>)
      requires Ready()
      modifies schedule`slotframes, schedule`freeLinks, schedule`freeSlotframes, schedule.g, schedule.queue`nbrs
      ensures Ready() && Links(schedule.slotframes) == {} && |schedule.freeLinks| == schedule.linkPool
      ensures Known(bSf) && Known(uSf)
      ensures HasRoom() ==> bSf == Some(0) && uSf == Some(1)
      ensures HasRoom() ==> Sized(schedule.slotframes, 0, n.p) && Sized(schedule.slotframes, 1, n.q)
    {
      NoFrames();
      bSf := NewFrame(0, n.p);
      uSf := NewFrame(1, n.q);
      FramesMade(schedule.slotframes, n, bSf.Some?, uSf.Some?);
    }

    method NoFrames()
      requires Ready()
      modifies schedule`slotframes, schedule`freeLinks, schedule`freeSlotframes, schedule.g, schedule.queue`nbrs
      ensures Ready() && schedule.slotframes == [] && |schedule.freeLinks| == schedule.linkPool
    {
      var ok := schedule.RemoveAllSlotframes();
    }

    /** A new slotframe, if the pool has one and the handle is free. */
    method NewFrame(handle: nat, size: nat) returns (sf: Option<nat>)
      requires Ready() && size < 0x1_0000
      modifies schedule`slotframes, schedule`freeSlotframes, schedule.g`locked
      ensures Ready() && Links(schedule.slotframes) == Links(old(schedule.slotframes))
      ensures sf == None <==>
        (size == 0 || Has(old(schedule.slotframes), handle) || |old(schedule.slotframes)| == schedule.sfPool)
      ensures sf == None ==> schedule.slotframes == old(schedule.slotframes)
      ensures sf.Some? ==> sf.value == handle && LastIs(old(schedule.slotframes), schedule.slotframes, handle, size)
    {
      var added := schedule.AddSlotframe(handle, size);
      sf := if added then Some(handle) else None;
    }

    /** Adds a link, nothing being removed for it, if there is a slotframe and room. */
    method TryLink(sf: Option<nat>, req: Request) returns (r: Option<Link>)
      requires Ready() && Known(sf) && req.addr == Some(Broadcast)
      modifies schedule`slotframes, schedule`freeLinks, schedule`linkCount, schedule.g
      modifies schedule.queue`order, schedule.queue`nbrs
      ensures Ready() && SameHandles(old(schedule.slotframes), schedule.slotframes)
      ensures sf.Some? && InFrame(old(schedule.slotframes), sf.value, req.timeslot) && old(schedule.freeLinks) != {} ==>
        && r.Some? && Made(r.value, sf.value, req, schedule.nullAddr)
        && schedule.slotframes == Added(Removed(old(schedule.Now()), sf.value, {}), sf.value, r.value).sfs
        && Links(schedule.slotframes) == Links(old(schedule.slotframes)) - {} + {r.value}
    {
      ghost var s := schedule.Now();
      NoCells(s.freeLinks);
      r := schedule.AddLink(sf, req, false, false);
      if sf.Some? {
        HandlesKept(s, sf.value, r);
      }
    }

    method AddBroadcastLink(sf: Option<nat>) returns (r: Option<Link>)
      requires Ready() && Known(sf) && |schedule.freeLinks| == schedule.linkPool && Links(schedule.slotframes) == {}
      requires HasRoom() ==>
        sf == Some(0) && Sized(schedule.slotframes, 0, n.p) && Sized(schedule.slotframes, 1, n.q)
      modifies schedule`slotframes, schedule`freeLinks, schedule`linkCount, schedule.g
      modifies schedule.queue`order, schedule.queue`nbrs
      ensures Ready() && SameHandles(old(schedule.slotframes), schedule.slotframes)
      ensures HasRoom() ==> Sized(schedule.slotframes, 1, n.q) && r.Some?
      ensures HasRoom() ==> Installed(n, Links(schedule.slotframes), r.value, [], 0, 0)
    {
      ghost var s := schedule.Now();
      if HasRoom() {
        SizedInFrame(s.sfs, 0, n.p, 0);
      }
      r := TryLink(sf, BroadcastRequest());
      if HasRoom() {
        FirstLink(n, s, schedule.nullAddr, schedule.slotframes, r.value);
      }
    }

    ghost method NoteBroadcast(b: Link)
      requires Ready() && cells == [] && Sized(schedule.slotframes, 1, n.q)
      requires Installed(n, Links(schedule.slotframes), b, cells, 0, 0)
      modifies `broadcastLink
      ensures Holds(cells, 0, 0)
    {
      broadcastLink := b;
    }

    /** Adds a link of the unicast slotframe, the links `gone` making place for it. */
    method AddUnicastLink(i: nat, tx: bool, doRemove: bool, ghost gone: set<Link>) returns (r: Option<Link>)
      requires Ready() && InFrame(schedule.slotframes, 1, i)
      requires gone == if doRemove then AtSlot(Links(schedule.slotframes), 1, i, 0) else {}
      requires schedule.freeLinks + Cells(gone) != {}
      modifies schedule`slotframes, schedule`freeLinks, schedule`linkCount, schedule.g
      modifies schedule.queue`order, schedule.queue`nbrs
      ensures Ready() && r.Some? && Made(r.value, 1, UnicastRequest(i, tx), schedule.nullAddr)
      ensures schedule.slotframes == Added(Removed(old(schedule.Now()), 1, gone), 1, r.value).sfs
      ensures Links(schedule.slotframes) == Links(old(schedule.slotframes)) - gone + {r.value}
    {
      r := schedule.AddLink(Some(1), UnicastRequest(i, tx), doRemove, false);
    }

    lemma RoomHere(links: seq<Link>, i: nat)
      requires HasRoom() && Holds(links, 0, 0) && i == |links| < n.q
      ensures InFrame(schedule.slotframes, 1, i) && schedule.freeLinks != {}
    {
      SizedInFrame(schedule.slotframes, 1, n.q, i);
      RoomForNext(n, Links(schedule.slotframes), broadcastLink, links, schedule.freeLinks, schedule.linkPool);
      NoCells(schedule.freeLinks);
    }

    lemma AppendedHere(s: Snapshot, links: seq<Link>, i: nat, l: Link)
      requires Ready() && Sized(s.sfs, 1, n.q) && Installed(n, Links(s.sfs), broadcastLink, links, 0, 0)
      requires i == |links| < n.q && Made(l, 1, UnicastRequest(i, i == 0), schedule.nullAddr)
      requires schedule.slotframes == Added(Removed(s, 1, {}), 1, l).sfs
      requires Links(schedule.slotframes) == Links(s.sfs) - {} + {l}
      ensures Holds(links + [l], 0, 0)
    {
      AppendedAt(n, s, broadcastLink, links, i, i == 0, schedule.nullAddr, schedule.slotframes, l);
    }

    /** Gives timeslot i of the unicast slotframe its first link. */
    method AppendLink(sf: Option<nat>, i: nat, tx: bool, ghost links: seq<Link>) returns (r: Option<Link>)
      requires Ready() && Known(sf) && i < n.q && tx == (i == 0)
      requires HasRoom() ==> sf == Some(1) && i == |links| && Holds(links, 0, 0)
      modifies schedule`slotframes, schedule`freeLinks, schedule`linkCount, schedule.g
      modifies schedule.queue`order, schedule.queue`nbrs
      ensures Ready() && SameHandles(old(schedule.slotframes), schedule.slotframes)
      ensures HasRoom() ==> r.Some? && Holds(links + [r.value], 0, 0)
    {
      ghost var s := schedule.Now();
      if HasRoom() {
        RoomHere(links, i);
      }
      r := TryLink(sf, UnicastRequest(i, tx));
      if HasRoom() {
        AppendedHere(s, links, i, r.value);
      }
    }

    /** The first k timeslots have their cells. */
    ghost predicate UpTo(k: nat)
      reads this, schedule, schedule.g, schedule.queue, unicastLinks
    {
      Holds(cells, 0, 0) && Points() && |cells| == k && currentAction == 0
    }

    /** Writes an entry of the link array. */
    method Store(i: nat, l: Option<Link>, ghost links: seq<Link>)
      requires Ready() && i < n.q && currentAction == 0
      requires HasRoom() ==> l.Some? && Points() && i == |cells| && links == cells + [l.value] && Holds(links, 0, 0)
      modifies `cells, unicastLinks
      ensures Ready() && unicastLinks[i] == l
      ensures HasRoom() ==> UpTo(i + 1)
    {
      unicastLinks[i] := l;
      if HasRoom() {
        cells := links;
      }
    }

    method AppendCell(sf: Option<nat>, i: nat, tx: bool)
      requires Ready() && Known(sf) && i < n.q && tx == (i == 0) && currentAction == 0
      requires HasRoom() ==> sf == Some(1) && UpTo(i)
      modifies `cells, unicastLinks, schedule`slotframes, schedule`freeLinks, schedule`linkCount, schedule.g
      modifies schedule.queue`order, schedule.queue`nbrs
      ensures Ready() && Known(sf)
      ensures HasRoom() ==> UpTo(i + 1)
    {
      ghost var sfs := schedule.slotframes;
      var r := AppendLink(sf, i, tx, cells);
      StillKnown(sf, sfs);
      Store(i, r, if r.Some? then cells + [r.value] else cells);
    }

    method PutBroadcast(sf: Option<nat>)
      requires Ready() && Known(sf) && |schedule.freeLinks| == schedule.linkPool && Links(schedule.slotframes) == {}
      requires cells == []
      requires HasRoom() ==>
        sf == Some(0) && Sized(schedule.slotframes, 0, n.p) && Sized(schedule.slotframes, 1, n.q)
      modifies `broadcastLink, schedule`slotframes, schedule`freeLinks, schedule`linkCount, schedule.g
      modifies schedule.queue`order, schedule.queue`nbrs
      ensures Ready() && SameHandles(old(schedule.slotframes), schedule.slotframes)
      ensures HasRoom() ==> Holds(cells, 0, 0)
    {
      var r := AddBroadcastLink(sf);
      if HasRoom() {
        NoteBroadcast(r.value);
      }
    }

    lemma StillKnown(sf: Option<nat>, sfs: seq<Slotframe>)
      requires SameHandles(sfs, schedule.slotframes) && (sf.Some? ==> Has(sfs, sf.value))
      ensures Known(sf)
    {
      if sf.Some? {
        var i :| 0 <= i < |sfs| && sfs[i].handle == sf.value;
        assert schedule.slotframes[i].handle == sf.value;
      }
    }

    /** Empty slotframes and the broadcast link. */
    method AddFirst() returns (sf: Option<nat>)
      requires Ready() && currentAction == 0 && cells == []
      modifies `broadcastLink, schedule, schedule.g, schedule.queue
      ensures Ready() && Known(sf)
      ensures HasRoom() ==> sf == Some(1) && Holds(cells, 0, 0)
    {
      var bSf;
      bSf, sf := MakeFrames();
      ghost var sfs := schedule.slotframes;
      PutBroadcast(bSf);
      StillKnown(sf, sfs);
    }

    /** The initial schedule: a shared broadcast cell, and a unicast slotframe of Rx cells with
        the one Tx cell at timeslot 0; complete exactly when the pools have the room. */
    method InitTschSchedule()
      requires Ready() && currentAction == 0 && cells == []
      modifies this, unicastLinks, schedule, schedule.g, schedule.queue
      ensures Ready() && currentAction == 0
      ensures Valid() <==> HasRoom()
    {
      var sf := AddFirst();
      AppendCells(sf);
      ValidNeedsRoom();
    }

    /** The Tx link of timeslot 0, and the others. */
    method AppendCells(sf: Option<nat>)
      requires Ready() && Known(sf) && currentAction == 0 && cells == []
      requires HasRoom() ==> sf == Some(1) && Holds(cells, 0, 0)
      modifies `cells, unicastLinks, schedule`slotframes, schedule`freeLinks, schedule`linkCount, schedule.g
      modifies schedule.queue`order, schedule.queue`nbrs
      ensures Ready() && (HasRoom() ==> UpTo(n.q))
    {
      AppendCell(sf, 0, true);
      AppendRest(sf);
    }

    method AppendRest(sf: Option<nat>)
      requires Ready() && Known(sf) && currentAction == 0
      requires HasRoom() ==> sf == Some(1) && UpTo(1)
      modifies `cells, unicastLinks, schedule`slotframes, schedule`freeLinks, schedule`linkCount, schedule.g
      modifies schedule.queue`order, schedule.queue`nbrs
      ensures Ready() && (HasRoom() ==> UpTo(n.q))
    {
      var i := 1;
      while i < n.q
        invariant 1 <= i <= n.q && Ready() && Known(sf)
        invariant HasRoom() ==> UpTo(i)
      {
        AppendCell(sf, i, false);
        i := i + 1;
      }
    }

    lemma ValidNeedsRoom()
      ensures Valid() ==> HasRoom()
    {
      if Valid() {
        CellsCount(n, Links(schedule.slotframes), broadcastLink, cells, currentAction);
        TwoFrames(n, schedule.slotframes, broadcastLink, cells, currentAction);
      }
    }

    /** Replaces the link at timeslot i of the unicast slotframe; the pool always has a cell
        for the new one, the one just freed. */
    method ReplaceLink(i: nat, tx: bool, ghost links: seq<Link>, ghost other: nat) returns (r: Option<Link>)
      requires Holds(links, other, if tx then other else i) && i < |links| && other != i
      modifies schedule`slotframes, schedule`freeLinks, schedule`linkCount, schedule.g
      modifies schedule.queue`order, schedule.queue`nbrs
      ensures r.Some? && Holds(links[i := r.value], if tx then i else other, other)
    {
      ghost var s := schedule.Now();
      SizedInFrame(s.sfs, 1, n.q, i);
      RoomAtSlot(n, Links(s.sfs), broadcastLink, links, other, if tx then other else i, i, s.freeLinks);
      r := AddUnicastLink(i, tx, true, AtSlot(Links(s.sfs), 1, i, 0));
      ReplacedAt(n, s, broadcastLink, links, i, tx, other, schedule.nullAddr, schedule.slotframes, r.value);
    }

    /** Puts the Tx link at timeslot `action`, and an Rx link where it was. */
    method MoveTx(from: nat, action: nat, ghost links: seq<Link>) returns (x: Option<Link>, y: Option<Link>)
      requires Holds(links, from, from) && from < |links| && action < |links| && action != from
      modifies schedule`slotframes, schedule`freeLinks, schedule`linkCount, schedule.g
      modifies schedule.queue`order, schedule.queue`nbrs
      ensures x.Some? && y.Some? && Holds(links[action := x.value][from := y.value], action, action)
    {
      x := ReplaceLink(action, true, links, from);
      y := ReplaceLink(from, false, links[action := x.value], action);
    }

    /** The link array follows. */
    method Point(i: nat, l: Link, ghost links: seq<Link>, ghost x: nat)
      requires Points() && i < |cells| && Holds(links, x, x)
      modifies `cells, unicastLinks
      ensures Points() && cells == old(cells)[i := l] && Holds(links, x, x)
    {
      unicastLinks[i] := Some(l);
      cells := cells[i := l];
    }

    /** Both entries of the link array follow. */
    method PointBoth(action: nat, x: Link, y: Link)
      requires Points() && |cells| == n.q && action < n.q && currentAction < n.q
      requires Holds(cells[action := x][currentAction := y], action, action)
      modifies `cells, unicastLinks
      ensures Points() && |cells| == n.q && Holds(cells, action, action)
    {
      ghost var links := cells[action := x][currentAction := y];
      Point(action, x, links, action);
      Point(currentAction, y, links, action);
    }

    /** The current action follows. */
    method SetAction(action: nat)
      requires Points() && |cells| == n.q && Holds(cells, action, action) && action < n.q
      modifies `currentAction
      ensures Valid() && currentAction == action
    {
      currentAction := action;
    }

    /** Moves the Tx link to the timeslot of the chosen action. */
    method SetUpNewSchedule(action: nat)
      requires Valid() && action < n.q
      modifies `currentAction, `cells, unicastLinks
      modifies schedule`slotframes, schedule`freeLinks, schedule`linkCount, schedule.g
      modifies schedule.queue`order, schedule.queue`nbrs
      ensures Valid() && currentAction == action
    {
      if action != currentAction {
        var x, y := MoveTx(currentAction, action, cells);
        PointBoth(action, x.value, y.value);
        SetAction(action);
      }
    }

    /** The least APT entry when exploring, the largest Q-value otherwise; index 0 takes part only
        if the random start was 0. */
    predicate Best(explore: bool, apt: array<nat>, start: nat, action: nat)
      requires qValues.Length == n.q == apt.Length
      reads apt, qValues
    {
      && action < n.q
      && forall i | 0 <= i < n.q && (i > 0 || start == 0) ::
          if explore then apt[action] <= apt[i] else qValues[action] >= qValues[i]
    }

    /** A choice of action: explore, for a slot in which few packets are heard, or exploit. */
    method Choose(explore: bool, apt: array<nat>, start: nat) returns (action: nat)
      requires qValues.Length == n.q == apt.Length && start < n.q
      ensures Best(explore, apt, start, action)
    {
      if explore {
        action := MinIndex(apt, start);
      } else {
        action := MaxIndex(qValues, start);
      }
    }

    method UpdateQTable(action: nat, reward: real, start: nat) returns (ghost u: Update)
      requires qValues.Length == n.q && action < n.q && start < n.q
      requires reward == REWARD_SUCCESS || reward == REWARD_FAILURE
      modifies qValues
      ensures Possible(u, n.q) && u.action == action && u.reward == reward
      ensures forall i | 0 <= i < n.q && (i > 0 || start == 0) :: old(qValues[u.found]) >= old(qValues[i])
      ensures qValues[..] == Applied(old(qValues[..]), u) && u.found == MaxScan(old(qValues[..]), start, 1)
      ensures qValues[action] == 0.895 * old(qValues[action]) + 0.095 + 0.1 * reward
        + 0.095 * (old(qValues[u.found]) - old(qValues[action]))
      ensures old(Bounded(qValues[..])) ==> Bounded(qValues[..])
    {
      var max := MaxIndex(qValues, start);
      u := Update(action, reward, max);
      LearnedInNumbers(qValues[action], qValues[max]);
      qValues[action] := Learned(qValues[action], reward, qValues[max]);
    }

    /** Learning from the status of the last Tx slot: 0 when there was none. */
    method Learn(status: nat, start: nat) returns (ghost us: seq<Update>)
      requires qValues.Length == n.q && currentAction < n.q && start < n.q
      modifies qValues
      ensures Earned(us, status, currentAction, n.q)
      ensures qValues[..] == AppliedAll(old(qValues[..]), us)
      ensures qValues[..] == Taught(old(qValues[..]), currentAction, status, start)
      ensures old(Bounded(qValues[..])) ==> Bounded(qValues[..])
    {
      us := [];
      if status != 0 {
        ghost var u;
        if status == 1 {
          u := UpdateQTable(currentAction, REWARD_SUCCESS, start);
        } else {
          u := UpdateQTable(currentAction, REWARD_FAILURE, start);
        }
        us := [u];
        AppliedOne(old(qValues[..]), u);
        AppliedIsTaught(old(qValues[..]), u, status, start);
      }
    }

    /** The part of a turn under the lock: learn, then choose. */
    method Decide(status: nat, explore: bool, apt: array<nat>, learnStart: nat, start: nat)
      returns (action: nat, ghost us: seq<Update>)
      requires Valid() && apt.Length == n.q && learnStart < n.q && start < n.q
      modifies qValues, schedule.g`locked
      ensures Valid()
      ensures Earned(us, status, currentAction, n.q)
      ensures qValues[..] == AppliedAll(old(qValues[..]), us)
      ensures qValues[..] == Taught(old(qValues[..]), currentAction, status, learnStart)
      ensures old(Bounded(qValues[..])) ==> Bounded(qValues[..])
      ensures Best(explore, apt, start, action)
    {
      var taken := schedule.g.GetLock();
      us := Learn(status, learnStart);
      action := Choose(explore, apt, start);
      schedule.g.ReleaseLock();
    }

    /** Moves the Tx link; the Q-values stand. */
    method Adopt(action: nat)
      requires Valid() && action < n.q
      modifies `currentAction, `cells, unicastLinks
      modifies schedule`slotframes, schedule`freeLinks, schedule`linkCount, schedule.g
      modifies schedule.queue`order, schedule.queue`nbrs
      ensures Valid() && currentAction == action && qValues[..] == old(qValues[..])
    {
      SetUpNewSchedule(action);
    }

    /** One turn of the scheduler: decide, then move the Tx link. */
    method Turn(status: nat, explore: bool, apt: array<nat>, learnStart: nat, start: nat)
      returns (ghost us: seq<Update>)
      requires Valid() && apt.Length == n.q && learnStart < n.q && start < n.q
      modifies `currentAction, `cells, qValues, unicastLinks
      modifies schedule`slotframes, schedule`freeLinks, schedule`linkCount, schedule.g
      modifies schedule.queue`order, schedule.queue`nbrs
      ensures Valid()
      ensures Earned(us, status, old(currentAction), n.q)
      ensures qValues[..] == AppliedAll(old(qValues[..]), us)
      ensures qValues[..] == Taught(old(qValues[..]), old(currentAction), status, learnStart)
      ensures old(Bounded(qValues[..])) ==> Bounded(qValues[..])
      ensures explore ==> forall i | 0 <= i < n.q && (i > 0 || start == 0) :: apt[currentAction] <= apt[i]
      ensures !explore ==> forall i | 0 <= i < n.q && (i > 0 || start == 0) :: qValues[currentAction] >= qValues[i]
    {
      var action;
      action, us := Decide(status, explore, apt, learnStart, start);
      Adopt(action);
    }
  }

  lemma AppliedOne(q: seq<real>, u: Update)
    requires Possible(u, |q|)
    ensures AppliedAll(q, [u]) == Applied(q, u)
  {
    assert AppliedAll(Applied(q, u), []) == Applied(q, u);
    assert [u][1..] == [];
  }

  /** A fresh unlocked node whose pools hold one slotframe and one link. */
  method SmallNode() returns (node: QlNode)
    ensures fresh(node) && fresh(node.schedule) && fresh(node.schedule.g) && fresh(node.schedule.queue)
    ensures fresh(node.unicastLinks) && node.Ready() && node.currentAction == 0 && node.cells == [] && !node.HasRoom()
  {
    var g := new Globals();
    var queue := new TschQueue(Config(1, 5, 4, 4), g, {});
    var schedule := new TschSchedule(queue, Broadcast, {0}, {0});
    BootMirrors(queue.nbrs, queue.c);
    assert Links([]) == {};
    node := new QlNode(PROJECT_LENGTHS, schedule);
  }

  /** Its initial schedule is incomplete. */
  method IncompleteSchedule() returns (node: QlNode)
    ensures fresh(node) && node.Ready() && !node.Valid()
  {
    node := SmallNode();
    node.InitTschSchedule();
  }
}
