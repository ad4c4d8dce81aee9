# A verified model of the QL-TSCH node

The repository runs a Time Slotted Channel Hopping MAC (IEEE Std 802.15.4-2015) with a
Q-learning scheduler on top. This project models its four linked parts and proves what they
keep, on every input and on every run.

- **Schedule and lookup** (`Types`, `Lookup`, `Store`, `Schedule`). Slotframes and links live in
  fixed pools. Adding and removing keep pools, lists, neighbour counters and the current link in
  step. The next-link lookup, a nested loop over both list levels, is proved against the
  statement "least d >= 1 such that some link is active at ASN + d".
- **Queues and backoff** (`Ring`, `Queue`, `TschQueue`). Each neighbour has a ring with a
  main-thread producer and an interrupt consumer, a packet pool behind it, and exponential backoff
  on shared links (section 6.2.5.3 of IEEE Std 802.15.4-2015).
- **Slot operation and the lock** (`Rescheduling`, `SlotOperation`, `SlotMachine`,
  `SlotInvariants`, `SlotClock`, `SlotBackoff`, `SlotRuns`, `SlotFaults`, `SlotCounts`,
  `SlotSections`, `SlotHistory`, `SlotTheorems`, `SlotProgress`, `SlotExamples`). The main thread
  moves in small steps, those of the lock, of a link's removal, of counting it, of a backoff reset
  and of adding a packet one by one; the slot interrupt is atomic between its yields and may be
  suspended inside a Tx or Rx slot. Runs are arbitrary interleavings of both. Radio outcomes, drift
  and deadlines are free choices. What the machine holds is proved twice over: as invariants, and
  against a history told from the actions of the run alone.
- **Q-learning node** (`QlSchedule`, `QlNode`). It moves the one Tx cell of the unicast slotframe,
  and learns from the last Tx slot.

`NumberTheory` holds the modular arithmetic both the hopping and the two-slotframe results use.

Objects the source updates in place are classes (`Globals`, `TschQueue`, `TschSchedule`,
`SlotOperation`, `QlNode`): methods follow the source's statements and loops, and their contracts
give the new state as a function of the old one. `SlotMachine` restates the same steps as a
transition function, because the interleaving is the point there; both use the same functions
for what a step does (`LinkTick`, `Selects`, `AfterSent`, `Executed`, `Advance`, `Cut`, `Recount`).

## What the code does not keep

These hold only under a condition. The named members give an input or a run on which each fails,
and the exact condition.

- **Link pointers are not always good.** A slot scheduled before the lock was taken may listen
  under it. `tsch_schedule_remove_link` meanwhile sets the current link to null
  (tsch/tsch-schedule.c:301-303), which a received frame then goes through
  (tsch/tsch-slot-operation.c:1124-1125); it never clears the backup link, which the next slot may
  fall back to (1213-1224) and so make current again before the removal has unlinked it. Runs:
  `NullLinkRun`, `FreedBackupRun`. `EveryRunIsSafe`: these uses, and no others, are faults.
  `CarelessIffFaultPossible`: an action leaves an interrupt step that can fault exactly when it
  begins the removal of the link a slot is listening on, or ends that of the current link or of the
  backup of a pending slot. `LinkNullIffCleared` gives the condition for one receiving slot.
- **A critical section does not see a still APT table.** The scheduler reads it under the lock
  (node.c:347), where a listening slot may count a reception. Run: `ReceptionSeenRun`.
  `ReadIsUndisturbedIff`: what it reads of an entry is undisturbed exactly when the receptions
  counted there since the section began are a multiple of 256. All else is undisturbed
  (`CriticalSectionIsAtomic`).
- **Backoff windows may exceed 2^exponent.** A reset stores window and exponent one after the other
  (tsch/tsch-queue.c:513-514); a failed transmission in between can leave a large window.
  `AnyFailureCanTear`: so it does during any Tx slot on a shared link, with the largest draw.
  `EveryRunKeepsBackoff`: windows fit throughout a run exactly when each second store finds a
  window of at most 2^minBe. `ResetTornIff`: it finds more exactly when a transmission to that
  neighbour fails on a shared link between the stores, with draw r, no later one decides the window,
  and the refreshes that follow leave more than 2^minBe of r + 1. Two functions reset a known
  neighbour without the lock, `tsch_queue_reset` and `custom_reset_all_backoff_exponents`
  (tsch/tsch-queue.c:380, 397); the node's call of the second is commented out (node.c:278).
- **A restart may break alignment.** Start-up does not reset the burst count
  (tsch/tsch-slot-operation.c:1337-1362). Run: `BurstRun` leaves a count of 1, with which
  `RestartOutOfStep` starts up out of step. `RestartDueIff`: the link it finds is due, as the slot
  loop counts, exactly when the count left over is a multiple of the link's slotframe size.
- **Entry 0 may be missed.** The Q-value and APT searches start at index 1 (node.c:147,
  tsch/tsch-slot-operation.c:216). Input: `SearchesMissEntryZero`. `MaxIndex` and `MinIndex` return
  a global optimum exactly when the start is 0 or some other entry is at least as good as entry 0.
- **The scheduled channel offset may be cut.** Offsets have 16 bits, but the function that returns
  the one for the slot has 8 (tsch/tsch-slot-operation.c:361-373). Input: `OffsetTruncated`.
  `ScheduledOffsetHonoured`: the scheduled offset is used exactly when the sequence length divides
  its high part.
- **A Tx link may go uncounted**, when the neighbour table is full
  (tsch/tsch-schedule.c:270-272). Input: `FullTableLosesCount`. `AddLink`: the counters still mirror
  the schedule exactly when the link is no Tx link, its neighbour is known, or the table has room.
  `EveryRunMirrors`: on a run they mirror it throughout, the link being counted aside, exactly when
  none stays uncounted.
- **Refresh and selection may disagree** between the linking of a link and its counting, for which
  the lock is not held (tsch/tsch-schedule.c:267-278). `AnyFirstLinkDisagrees`: so they do about
  the first Tx link to any neighbour in backoff, as soon as the lock is released.
  `EveryRunRefreshAgrees`: on runs that leave no link uncounted they agree about an installed link
  and a neighbour exactly unless it is the neighbour's first Tx link and not yet counted.
- **The initial schedule may be incomplete.** Input: `IncompleteSchedule`. `InitTschSchedule`: it is
  complete exactly when the pools hold two slotframes and all the links.

## Model

| member | source | states |
|---|---|---|
| Lookup.GetNextActiveLink | tsch/tsch-schedule.c:405-484 | unlocked: the best link is active at the least future slot in which any link is, at most one slotframe ahead; it is optimal there (Tx, then lowest handle, then longest queue); the backup can receive in that slot and no other receiving link has a lower handle; no result only without links, or under the lock |
| Lookup.Consider | tsch/tsch-schedule.c:427-470 | one loop body keeps the fold invariant: best, distance and backup summarise all links seen, also when an earlier slot resets the backup |
| Lookup.TimeToIsNext | tsch/tsch-schedule.c:420-426 | the 16-bit distance computed from the ASN modulo the slotframe size is the one distance within a period at which the link is active |
| Lookup.OffsetIsLeast | tsch/tsch-schedule.c:416-430 | the result is null exactly for an empty schedule; the offset is the least of the links' 16-bit distances, and no occurrence of any link comes sooner |
| Lookup.PriorityIndependentOfOrder | tsch/tsch-schedule.c:431-450 | slot, Tx option, handle and (for Tx) queue length of the best link do not depend on list order |
| Lookup.ListensOnLowestHandle | tsch/tsch-slot-operation.c:1207-1226 | with no packet for the best link, the executed link has the lowest handle among all links that can receive in that slot, whenever one exists |
| TschSchedules.TschSchedule.AddSlotframe | tsch/tsch-schedule.c:72-100 | succeeds exactly for non-zero size, unlocked, new handle and free pool entry; then the empty slotframe is last in the list |
| TschSchedules.TschSchedule.GetSlotframeByHandle | tsch/tsch-schedule.c:138-152 | finds a slotframe of that handle exactly when there is one and TSCH is unlocked |
| TschSchedules.TschSchedule.AddLink | tsch/tsch-schedule.c:215-283 | rejects bad timeslots and a lock with nothing changed; otherwise removes what stood there if asked, fails only on an empty pool, else appends a fresh link with what was asked, the last of its list and, if asked, alone at its place; handles are consecutive modulo 2^16; an installed current link stays or is cleared; counters keep mirroring the schedule exactly when the link's neighbour is known or can be added |
| TschSchedules.TschSchedule.RemoveLink | tsch/tsch-schedule.c:286-334 | succeeds exactly for a link of this slotframe, unlocked; the link leaves its list, its cell is free, its neighbour counts one less; the current link becomes null exactly if it was this one, so an installed current link never dangles |
| TschSchedules.TschSchedule.RemoveLinkByTimeslot | tsch/tsch-schedule.c:337-358 | removes all links of the slotframe at that timeslot and offset, and no others; an installed current link never dangles |
| TschSchedules.TschSchedule.RemoveSlotframe | tsch/tsch-schedule.c:116-136 | terminates; unlocked it frees exactly the links of the slotframe and its entry, the other slotframes stand, and the current link is cleared if it was one of them; under the lock, or without a slotframe, it fails and changes nothing |
| TschSchedules.TschSchedule.RemoveAllSlotframes | tsch/tsch-schedule.c:103-113 | terminates; unlocked with an empty list, both pools full, no current link if it was installed, and every Tx-link counter at 0 if the counters mirrored the schedule; under the lock it succeeds only on an empty list and changes nothing |
| TschSchedules.RemovedCurrent | tsch/tsch-schedule.c:299-312 | unlinking any links clears the current link exactly when it is one of them, and leaves it installed otherwise |
| Store.CutKeepsStore | tsch/tsch-schedule.c:311-312 | unlinking and freeing a link keeps the store: handles and cells unique, each live link in one list with its slotframe's handle and a timeslot in range, pool size constant |
| Store.AppendKeepsStore | tsch/tsch-schedule.c:238-253 | so does linking a new one |
| Store.MirrorsAdd | tsch/tsch-schedule.c:269-278 | counting a new Tx link keeps both counters equal to the number of installed Tx links, and of unshared ones, to each address |
| Store.MirrorsRemove | tsch/tsch-schedule.c:317-326 | so does uncounting a removed one |
| Store.MirrorsFreed | tsch/tsch-queue.c:414-430 | freeing neighbours with count 0 keeps the mirror: no installed Tx link loses its neighbour |
| Store.UncountedLink | tsch/tsch-schedule.c:269-278 | a Tx link whose neighbour could not be added breaks the mirror |
| TschSchedules.FullTableLosesCount | tsch/tsch-schedule.c:269-278 | on a fresh node with a full neighbour table, adding a dedicated Tx link to an unknown neighbour installs it and leaves the counters wrong |
| Store.InstalledRefreshAgrees | tsch/tsch-slot-operation.c:460-503 | with mirrored counters, for a unicast neighbour in backoff and an installed shared Tx link that is not advertising-only, the refresh counts the neighbour down if and only if that link's selection could pick it |
| Rings.PutSlotIsFree | tsch/tsch-queue.c:248-262 | the index the producer peeks is none of the queued ones |
| Rings.WriteInvisible | tsch/tsch-queue.c:260-261 | the producer's write at the peeked index leaves the consumer's queue as it was |
| TschQueues.TschQueue.AddNbr | tsch/tsch-queue.c:80-106 | a new neighbour is empty, out of backoff and without links; an existing one is left as it is |
| TschQueues.TschQueue.AddPacket | tsch/tsch-queue.c:228-275 | succeeds exactly when unlocked with a neighbour, a free ring place, a pool packet and a buffer; then one packet leaves the pool and joins the end of that neighbour's queue; otherwise no queue and no pool changes, though the neighbour may have been added |
| TschQueues.TschQueue.RemovePacketFromQueue | tsch/tsch-queue.c:295-310 | removes and returns the head, nothing under the lock |
| TschQueues.TschQueue.PacketSent | tsch/tsch-queue.c:336-376 | the packet leaves its queue exactly on success or when attempts are used up; success on a shared link or with the last packet leaves the least exponent and window 0; failure on a shared link raises the exponent by one up to the limit and draws the window; all else, and virtual neighbours, keep theirs; other neighbours stand |
| TschQueues.TschQueue.FreeUnusedNeighbors | tsch/tsch-queue.c:413-430 | removes exactly the non-virtual, non-time-source neighbours with no Tx link and no packet queued |
| TschQueues.TschQueue.GetPacketForNbr | tsch/tsch-queue.c:440-465 | returns the first queued packet, and none only when locked, for an unknown neighbour, on an empty queue, or in backoff on a shared link |
| TschQueues.TschQueue.GetUnicastPacketForAny | tsch/tsch-queue.c:479-500 | the first neighbour in table order without a Tx link of its own that offers a packet; none exactly when there is none |
| TschQueues.TschQueue.GetPacketAndNeighborForLink | tsch/tsch-slot-operation.c:459-492 | returns the head of an eligible queue: an eligible beacon first on advertising links; the link's own neighbour exactly if it is eligible and no beacon precedes it; any other only on broadcast links with no eligible broadcast packet, and without a Tx link of its own |
| TschQueues.TschQueue.UpdateAllBackoffWindows | tsch/tsch-queue.c:533-548 | one pass over the table decrements exactly the non-zero windows the link's address counts for |
| TschQueues.TschQueue.UpdateLinkBackoff | tsch/tsch-slot-operation.c:494-503 | refreshes for shared Tx links only |
| Queue.BackoffPreserved | tsch/tsch-queue.c:344-373 | any outcome and any refresh keep the exponent within its limits, the window within 2^exponent (and within 2^maxBe), and virtual neighbours out of backoff |
| Queue.SharedSendsOnlyAfterBackoff | tsch/tsch-queue.c:441-465 | what a shared link sends is the head of its neighbour's queue, and that neighbour's window is 0 |
| Queue.ServedInOrder | tsch/tsch-slot-operation.c:459-492 | the order of service in terms of queue contents and windows, both when something is chosen and when nothing is |
| Queue.DrawTakesAll | tsch/tsch-queue.c:519-530 | every wait below 2^exponent is drawn, each by 64 random numbers in a row |
| Queue.RefreshAgreesWithSelection | tsch/tsch-queue.c:480-548 | refresh and selection agree, from what the counters say about this link alone |
| Queue.RefreshDisagreesUncounted | tsch/tsch-schedule.c:267-278 | before an installed link to a neighbour is counted, its selection can pick the neighbour but its refresh does not count it down |
| Queue.CountsDown | tsch/tsch-queue.c:533-548 | over any sequence of slots the window falls by one per matching slot, to zero, and nothing else of the neighbour changes |
| Queue.EligibleAfterDraw | tsch/tsch-queue.c:519-530 | after a failure with draw r the neighbour may use a shared link again if and only if r + 1 matching slots have passed, that slot included |
| SlotInvariants.LockKeptByMain | tsch/tsch-slot-operation.c:312-355 | every main-thread statement keeps the lock invariant: flags follow the program counter, no Tx slot under the lock, no slot between the end of the wait and the fall of the request |
| SlotInvariants.LockKeptByIrq | tsch/tsch-slot-operation.c:1184-1207 | so does every step of the interrupt; the already scheduled slot that may run under the lock never transmits |
| SlotInvariants.WriteKeepsQueues | tsch/tsch-queue.c:260-261 | a producer's write, at any point of a Tx slot, loses and moves no packet and leaves the index it will commit valid |
| SlotInvariants.CommitKeepsQueues | tsch/tsch-queue.c:262-262 | a commit moves exactly the packet written to the end of its queue, the other queues stand, and every queue invariant is kept |
| SlotInvariants.TxEndKeepsQueues | tsch/tsch-slot-operation.c:835-874 | the end of a Tx slot keeps conservation, retry bound, order, and the producer's unfinished add |
| SlotClock.RescheduleKeepsTime | tsch/tsch-slot-operation.c:1285-1324 | the rounds at the end of a slot keep the time account, the drift correction entering it once |
| SlotRuns.StepKeepsInv | tsch/tsch-slot-operation.c:1179-1332 | every step of either agent keeps lock, queue, backoff-bound, alignment and time invariants |
| SlotBackoff.StepFits | tsch/tsch-queue.c:511-548 | a step keeps every window within 2^exponent exactly when it is not the second store of a reset that finds a window above 2^minBe |
| SlotBackoff.WindowStep | tsch/tsch-queue.c:511-548 | between the two stores a step of either agent changes the neighbour's window in three ways only: a failure on a shared link draws it anew, a success on one or with the last packet clears it, refreshes count it down |
| SlotTheorems.EveryRunIsSafe | tsch/tsch-slot-operation.c:617-622 | on every run: a null or freed pointer is used exactly when a slot step outside Tx slots uses the current or the backup link after its removal; no Tx slot runs under the lock; the request flag is up only inside tsch_get_lock; the index peeked at Tx start is still the free one |
| SlotFaults.CarelessIffFaultPossible | tsch/tsch-schedule.c:299-312 | while all link pointers are good, a main-thread action leaves an interrupt step that can use a bad one exactly when it begins the removal of the link being listened on, or ends that of the current link or of a pending slot's backup |
| SlotFaults.CarefulRunsNeverFault | tsch/tsch-slot-operation.c:1186-1302 | a run without such a removal never uses a null or freed pointer |
| SlotFaults.LinkNullIffCleared | tsch/tsch-slot-operation.c:1122-1127 | until an Rx slot ends, its current link is null exactly if the removal of that link has begun since |
| SlotExamples.NullLinkRun | tsch/tsch-slot-operation.c:1122-1127 | a run from boot on which a received frame is counted through a null current link |
| SlotExamples.FreedBackupRun | tsch/tsch-slot-operation.c:1209-1224 | a run from boot on which a slot falls back to a removed backup link |
| SlotTheorems.EveryRunConservesPackets | tsch/tsch-queue.c:229-320 | on every run each allocated packet is in exactly one place of one queue, the dequeued ring, or with the main thread; nothing else is anywhere |
| SlotTheorems.EveryRunBoundsAttemptsInOrder | tsch/tsch-queue.c:337-376 | on every run a queued packet has an attempt left, none has more than max(1, limit), and each queue and the dequeued ring give packets back in the order they got them |
| SlotTheorems.EveryRunBoundsBackoff | tsch/tsch-queue.c:511-548 | on every run the exponent is within its limits, the window at most 2^maxBe, and virtual neighbours never back off |
| SlotTheorems.EveryRunKeepsBackoff | tsch/tsch-queue.c:511-548 | the window is at most 2^exponent in every state of a run exactly when every reset's second store finds a window of at most 2^minBe |
| SlotTheorems.ResetTornIff | tsch/tsch-queue.c:511-548 | a reset's second store finds a larger window exactly when, between the stores, a transmission to that neighbour fails on a shared link with draw r, none after it decides the window, and the refreshes that follow leave more than 2^minBe of r + 1 |
| SlotExamples.AnyFailureCanTear | tsch/tsch-queue.c:511-530 | during any Tx slot on a shared link, a failure with the largest draw between the stores leaves a window above 2^exponent |
| SlotCounts.SettledMirrors | tsch/tsch-schedule.c:269-331 | counting a link linked or unlinked before makes the counters mirror the schedule, if and only if it is not a new Tx link whose neighbour is missing |
| SlotCounts.StepMirrors | tsch/tsch-schedule.c:267-278 | every step of either agent keeps the counters a mirror of the installed links, but for one link that has come or gone and is not yet counted, exactly when it does not leave a Tx link uncounted |
| SlotCounts.EveryRunMirrors | tsch/tsch-schedule.c:267-331 | the counters mirror the schedule in that sense in every state of a run exactly when no Tx link of the run stays uncounted |
| SlotCounts.AnyFirstLinkDisagrees | tsch/tsch-schedule.c:267-278 | once the first Tx link to a neighbour in backoff is linked and the lock released, that link's selection can pick the neighbour but its refresh does not count it down |
| SlotCounts.EveryRunRefreshAgrees | tsch/tsch-slot-operation.c:459-503 | on every such run an installed shared Tx link counts a backing-off neighbour down if and only if it could have served it, unless it is that neighbour's first Tx link and not yet counted, when exactly one of the two holds |
| SlotTheorems.EveryRunIsAligned | tsch/tsch-slot-operation.c:1219-1324 | on every run, through bursts, skips, fallbacks and missed deadlines, (ASN - burst count) mod slotframe size is the current link's timeslot, and the slot start is the first one plus whole timeslots, the compensations, and every drift an ACK or an unlocked reception brought before its slot was rescheduled, modulo the timer |
| SlotHistory.EveryRunTells | tsch/tsch-slot-operation.c:780-866 | on every run the drift to be applied, the burst flag, the Tx status the scheduler will read, and the sum of corrections are what the slots of the run last reported, status until it is taken |
| SlotHistory.EveryRunCountsFailures | tsch/tsch-queue.c:511-548 | on every run a neighbour is in the table exactly if last added, not dropped; its exponent is min(minBe + k, maxBe) after k failures on shared links in a row; its window is the last draw plus one less the refreshes since, 0 after a success or reset |
| SlotHistory.EveryRunCountsAttempts | tsch/tsch-slot-operation.c:802-872 | on every run a packet is allocated exactly if last added, not freed, keeps its limit, and counts the Tx slots that ended with it |
| SlotHistory.EveryRunCountsReceptions | tsch/tsch-slot-operation.c:1122-1127 | on every run an APT entry is the number of frames received on that timeslot of slotframe 1 since it was cleared, modulo 256 |
| SlotTheorems.EveryRunJumpsNothing | tsch/tsch-slot-operation.c:1290-1324 | from every reachable state, no slot strictly between two rounds of the loop holds a link of the schedule consulted |
| SlotSections.InterruptInvisibleUnderLock | tsch/tsch-slot-operation.c:1186-1302 | while TSCH is locked no interrupt step changes links, neighbours, queues, windows or the Tx status; the APT table is not among these |
| SlotSections.CriticalSectionIsAtomic | tsch/tsch-slot-operation.c:312-355 | in a critical section, dropping all interrupt steps from any interleaving gives the main thread the same state, the APT table and what it read of it left aside |
| SlotSections.ReadIsUndisturbedIff | tsch/tsch-slot-operation.c:213-222 | the APT entry read in a critical section is the one read without the interrupt exactly when the frames received on that timeslot of slotframe 1 since the section began number a multiple of 256 |
| SlotExamples.ReceptionSeenRun | tsch/tsch-slot-operation.c:1122-1127 | a critical section, reached from boot, that reads 1 where it would read 0 without the interrupt |
| SlotSections.InterruptIgnoresScheduleUnderLock | tsch/tsch-schedule.c:235-267 | under the lock the schedule decides neither which interrupt steps are possible nor what they do, faults aside |
| SlotTheorems.TxSlotUndisturbed | tsch/tsch-slot-operation.c:320-328 | during a Tx slot no main-thread statement changes the schedule or the current link, nor which packet heads the queue being served |
| SlotTheorems.SlotSendsHead | tsch/tsch-slot-operation.c:1207-1250 | a Tx slot starts unlocked, on a Tx link, with the head of its neighbour's queue, and on a shared link only with window 0 |
| SlotTheorems.SlotServesInOrder | tsch/tsch-slot-operation.c:1203-1262 | a slot transmits exactly if a packet is chosen and the dequeued ring has room, and listens exactly if none is and its link receives; the packet is the head of an eligible queue, a beacon first on advertising links, then the link's own neighbour |
| SlotTheorems.SuccessStartsAfresh | tsch/tsch-queue.c:344-355 | a Tx slot that succeeds on a shared link, or with the last packet, leaves the least exponent and window 0 |
| SlotTheorems.TxEndMovesThePacketSent | tsch/tsch-slot-operation.c:867-874 | when the packet leaves, the head removed is the packet sent and it joins the dequeued ring once; otherwise every queue stands; the status the scheduler reads is set for links of slotframe 1 only |
| SlotTheorems.NextSlotListensOnLowestHandle | tsch/tsch-slot-operation.c:1207-1302 | a slot ends or is skipped, the main thread takes any steps that leave the schedule as it is, the next slot has nothing to send: the link it executes is the lowest-handle receiving link of that slot |
| SlotTheorems.FirstSlotListensOnLowestHandle | tsch/tsch-slot-operation.c:1343-1361 | the same for the slot start-up schedules |
| SlotTheorems.NextSlotHasPriority | tsch/tsch-schedule.c:431-450 | after rescheduling, the next slot's link is the one of those due that transmits, then has the lowest handle, then serves the longest queue |
| SlotProgress.LookupExists | tsch/tsch-schedule.c:405-484 | every well-formed schedule has a lookup result, from every ASN |
| SlotProgress.IdleGoesOn | tsch/tsch-slot-operation.c:1186-1207 | the slot interrupt can always go on: it runs the slot, unless there is no link or the lock is requested, and then skips it |
| SlotProgress.SlotEndGoesOn | tsch/tsch-slot-operation.c:1285-1324 | after a slot any number of deadlines may be missed, with any compensations |
| SlotProgress.SlotGoesOn | tsch/tsch-slot-operation.c:770-866 | a Tx slot may end with any outcome, drift and draw, an Rx slot with any frame or none |
| SlotProgress.MainGoesOn | tsch/tsch-slot-operation.c:312-355 | whatever the main thread has begun, of the lock, a removal, a count, a reset or an enqueue, its next statement is possible |
| SlotProgress.MainStartsAnything | tsch/tsch-queue.c:228-430 | with nothing under way it can ask for the lock, and exactly so enqueue where there is room, flush a queue outside Tx slots, take what was dequeued, reset a neighbour, and drop one that the source's test lets go |
| SlotProgress.WaitIsOver | tsch/tsch-slot-operation.c:320-345 | once the slot in progress has ended, the main thread's own steps alone bring it the lock |
| Rescheduling.PassesAlign | tsch/tsch-slot-operation.c:1290-1324 | any number of rounds, bursts and empty lookups included, keeps alignment and jumps over no active link |
| Rescheduling.BurstReplays | tsch/tsch-slot-operation.c:1293-1299 | a burst lasts for a whole rescheduling: each round replays the current link one timeslot on, counts it, and has no backup |
| Rescheduling.RestartDueIff | tsch/tsch-slot-operation.c:1337-1362 | the link start-up finds is due, counted with the burst count left over, exactly when that count is a multiple of its slotframe size |
| SlotExamples.BurstRun | tsch/tsch-slot-operation.c:1293-1312 | a run from boot, on one receiving link of period 2, that ends with a burst count of 1 |
| SlotExamples.RestartOutOfStep | tsch/tsch-slot-operation.c:1337-1362 | start-up on that schedule with that count left over finds a link that is not due |
| Rescheduling.PassesKeepTime | tsch/tsch-slot-operation.c:1314-1324 | however many deadlines are missed, the slot start moves by whole timeslots, the drift correction once, and every round's compensation |
| SlotOperations.SlotOperation.PickNext | tsch/tsch-slot-operation.c:1293-1312 | a burst replays the current link without a lookup; a lookup sets current, backup and burst count |
| SlotOperations.SlotOperation.Reschedule | tsch/tsch-slot-operation.c:1285-1324 | the loop equals the rounds of the specification one by one, keeps alignment and jumps over nothing |
| SlotOperations.SlotOperation.EnterSlot | tsch/tsch-slot-operation.c:1203-1226 | the link executed, the packet chosen and the refresh of a skipped best link |
| SlotOperations.TimerMissIsElapsedTime | tsch/tsch-slot-operation.c:398-415 | for every modulus the two-overflow-flag test is true if and only if the elapsed time modulo the timer is at least the offset |
| SlotOperations.OffsetsSeparateChannels | tsch/tsch-slot-operation.c:384-391 | the index is (asn + offset) mod L, in range; at one ASN two offsets share it if and only if they agree modulo L |
| SlotOperations.EveryChannelOnce | tsch/tsch-slot-operation.c:360-391 | slotframe size and L coprime: in L consecutive occurrences of a link, the offset its slots use takes every index exactly once |
| SlotOperations.ScheduledOffsetHonoured | tsch/tsch-slot-operation.c:360-391 | the slot uses the scheduled 16-bit offset if and only if L divides its high part |
| SlotOperations.OffsetTruncated | tsch/tsch-slot-operation.c:360-391 | it does not for offset 256 and three channels |
| QlSchedules.ReplaceCell | node.c:93-103 | replacing the cell of one timeslot changes that cell only, with another Tx cell present or not |
| QlSchedules.QlLookup | tsch/tsch-schedule.c:406-484 | on the node's schedule the next offset is always 1, and the best link is the broadcast cell exactly when the new ASN is 0 modulo the broadcast length |
| QlSchedules.QlCountsTwo | node.c:67-103 | two installed links transmit to the broadcast address, none dedicated |
| QlSchedules.NodeServes | node.c:67-103 | beacons go out in broadcast slots exactly when eligible, before anything else; broadcast packets, then those of neighbours without a Tx link, in broadcast slots and in the Tx slot only, and nothing eligible is left out |
| QlSchedules.NodeListens | node.c:67-103 | without a packet the node listens in every slot but the Tx slot, when that is not a broadcast slot |
| QlSchedules.ChosenIff | tsch/tsch-schedule.c:406-484 | for each slot exactly one link can be the best of the lookup before it: the broadcast cell or the slot's own unicast cell |
| QlSchedules.TxCellPreEmptedOnce | project-conf.h:28-29 | for coprime lengths p and q every window of p * q slots holds the Tx cell p times, and for exactly one of them the lookup chooses another link, the broadcast cell |
| QlSchedules.ProjectTxCell | project-conf.h:28-29 | with the configured lengths: 7 times in 105 slots, once lost |
| QlSchedules.ProjectLengthsCoprime | project-conf.h:28-29 | the configured lengths 7 and 15 are coprime |
| QlNodes.QlNode.InitTschSchedule | node.c:67-90 | from any unlocked schedule: one broadcast cell, one unicast cell per timeslot, the Tx cell at timeslot 0, the array pointing at them, exactly when the pools have the room for them |
| QlNodes.IncompleteSchedule | node.c:67-90 | on a fresh node whose pools hold one slotframe and one link the initial schedule is not complete |
| QlNodes.QlNode.SetUpNewSchedule | node.c:93-103 | keeps that invariant for every action below the slotframe length, with the Tx cell at the new action, whatever the pool holds besides |
| QlNodes.QlNode.Turn | node.c:319-377 | one scheduler turn: without a Tx status no Q-value changes, else only the old action's, to 0.8 of it plus 0.095 of the largest found plus 0.195 for a success, 0.095 for a failure; Q-values stay bounded; the schedule invariant holds with the Tx cell at the action the search found, at least as good as every index from 1 and its random start |
| QlNodes.QlNode.NextSlotIsUsed | node.c:67-103 | between turns the lookup always returns the very next slot, with the broadcast link or the array's link of that slot, transmitting exactly at the current action or the broadcast cell |
| QlNodes.QlNode.CountsTwo | node.c:67-103 | between turns the broadcast neighbour counts two Tx links |
| QlNodes.CellsFeedTheTable | tsch/tsch-slot-operation.c:1122-1127 | a frame received in the unicast cell of action i is counted in APT entry i and in no other, one received in the broadcast cell in none |
| QlNodes.CellsShareChannel | tsch/tsch-slot-operation.c:360-391 | whatever its cell, a node's channel index is the ASN modulo the sequence length, so nodes that agree on the ASN meet |
| QlNodes.QlNode.UpdateQTable | node.c:158-165 | changes the action's Q-value only, to 0.895 of it plus 0.095 and 0.1 of the reward, plus 0.095 of what the largest value found has over it; stays in [0, 13/7] |
| QlNodes.LearnedInNumbers | node.c:158-165 | the value found pulls the new value up by 0.095 of the difference, and failure costs exactly 0.1 |
| QlNodes.MaxIndex | node.c:144-155 | at least as good as the random start and every index from 1, the start itself on a tie with it and else the first such index; the global maximum if and only if the start is 0 or some other entry reaches entry 0 |
| QlNodes.MinIndex | tsch/tsch-slot-operation.c:213-222 | the same for the minimum of the APT table |
| QlNodes.SearchesMissEntryZero | node.c:144-155 | started at 1, both searches miss entry 0 of two when it is the better one |
| QlNodes.QValuesStayBounded | node.c:117-165 | from values in [0, 13/7], so from any in [0, 1], every sequence of updates stays in [0, 13/7] |
| QlNodes.SuccessClosesTheGap | node.c:158-165 | k successes of an action whose own value the search finds multiply its gap to 13/7 by exactly 0.895, k times |
| QlNodes.SuccessOfTheLargest | node.c:144-165 | in a bounded table, k successes of the largest entry, the searches started anywhere, or at 0 for entry 0: each search finds its value, it stays the largest, nothing else changes, and its gap closes so |
| QlNodes.FailureClosesTheGap | node.c:158-165 | k failures of an action whose own value the search finds multiply its gap to 19/21 by exactly 0.895, k times |
| QlNodes.FailureOfTheLargest | node.c:144-165 | so it goes for the largest entry, the searches started as above, if it is at most 19/21 or all others are: it stays the largest and nothing else changes |

## Left out

- Radio driver, CCA, frame parsing and building, ACKs, EBs, security, RPL, UDP, logging, LEDs and
  statistics: their outcomes are free choices (Tx status, frame received or not, frame pending,
  drift, compensation, deadline met or missed).
- Code compiled out by the configuration: `RL_TSCH_ENABLED`, link-layer security, and the link
  selector.
- Desynchronisation, disassociation and re-association, but for `RestartDueIff`; runs start after
  boot, with queues empty, counters that mirror the schedule, and no burst behind them.
- That a burst stays on its channel; the hopping results are about slots outside bursts.
- ASN wrap-around at 40 bits and link counters of 8 bits; a link's handle does wrap at 16 bits.
- The input ring, and the bounds of the APT array: an entry exists for every timeslot.
- Float rounding, the epsilon schedule and its cycle counter; Q-values are reals and exploring is
  a free choice. Random draws are parameters.
- Contents of `ringbufindex`, `memb`, `list`, `nbr_table` and the ASN macros, which are not part
  of this model: a FIFO ring with a symbolic array length and capacity, pools, append-at-tail
  lists, a finite map with an iteration order, and natural-number ASNs.
- Pointers are values: a link is named by its pool cell and carries its contents, a neighbour by
  its address. The use of a null or freed link is recorded as a fault and the run goes on as if it
  did no damage; a freed link keeps its contents, and reuse of its memory is not modelled. A link
  carries the size of the slotframe its handle names.
- The virtual neighbours (broadcast, EB) are always present and never evicted.
- TschQueues.Globals.GetLock: the case no slot interrupts; the full protocol, with its busy wait,
  is in SlotMachine.
- TschSchedules.TschSchedule.RemoveSlotframe: excludes a lock held while the slotframe has links,
  because there the source spins for ever.
- TschSchedules.TschSchedule.RemoveAllSlotframes: excludes the same for the first slotframe.
- TschQueues.TschQueue.FreeUnusedNeighbors: the lock taken and released before each removal, and
  the flush of a queue just found empty, are not separate steps.
- SlotRuns.StepKeepsInv: some statements of the main thread are merged into one step: the two
  counter updates of a link (Settle), peeking, allocating and initialising a packet (AddAlloc),
  freeing a neighbour (DropNbr), reading and dropping the head of the dequeued ring (TakeDequeued),
  flushing one packet (FlushHead), and linking a new link or slotframe (Extend), which
  InterruptIgnoresScheduleUnderLock justifies. Flushing does not happen during a Tx slot, and
  packet callbacks enqueue nothing. The packet pool of the machine gives out any unused packet,
  without a size, and its neighbour table any unused address or none.
- SlotTheorems.NextSlotListensOnLowestHandle: the schedule does not change between the lookup and
  the slot, and the last round is a lookup, not the replay of a burst.
- Queue.EligibleAfterDraw: the neighbour's link count is fixed meanwhile.
- QlNodes.QlNode.Turn: the status of the last Tx slot and the APT table are parameters, and the
  table stands still during the turn, though an Rx slot can count a reception in it even under the
  lock (SlotSections.ReadIsUndisturbedIff); the main thread finds TSCH unlocked.
- QlNodes.SuccessClosesTheGap: only while the search finds the action's own value, as when it is
  the maximum (SuccessOfTheLargest).
- QlNodes.FailureClosesTheGap: the same (FailureOfTheLargest).
- SlotProgress.WaitIsOver: that the slot in progress ends, and that both agents keep taking steps, is
  not promised.
