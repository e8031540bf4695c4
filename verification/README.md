# A verified model of kclpp

kclpp lets workers share the shards of a stream through leases in a DynamoDB table, and runs its
callbacks on event loops fed by lock-free queues and timers. This project models the parts of it
that hold hard state and proves what they promise. `dafny verify dfyconfig.toml` checks everything.

**Leases.** `LeaseTable` is the table and `LeaseManager`: conditional writes on attributes, proved
to be writes on rows that pass exactly for copies with the owner and counter of the row.
`LeaseProtocol` lets any number of workers read, renew, take, evict, update and create in any
interleaving, with answers late, reordered or lost, and proves fencing. `LeaseRenewer` keeps the
copies a worker holds, through rounds of renewals. `LeaseScans` and `LeaseTaker` merge scans, judge
expiry and decide what to take; `Balance` (on vectors of loads) and `Rebalancing` (on lease tables
and the decisions made from them) show that the decisions end, and exactly when they end balanced. A
steal or take is shown to be as large as the rules allow. `LeaseCodec` and `Decimals` are the items
of the table and the decimal numbers in them.

**Timers.** `WheelTiming` is the arithmetic of the hierarchical wheel, `WheelBuffer` the turning
ring of slots, `TimerWheel` the wheel itself as a class, with a history of what was added and what
ran. The clock is ideal: the timer of a level fires at each multiple of its resolution, each
resolution divides the next, every level has two slots or more, and callbacks do not add timers. No
order of capacities is assumed. An entry is stamped with the time the wheel last looked at the
clock; the bounds are proved from that stamp and, one bottom resolution wider, from the call. The
index in `initLevels` is never incremented (include/kclpp/async/wheel/HTimerWheel.h:364-370), so
every level rounds as a bottom level; the bounds are for that code.

**Queues.** `SpscQueue` is the single-producer queue of ring blocks in a ring, `SpscRuns` its
construction and whole runs and `SpscCalls` its calls one by one, `TicketDequeue` the
optimistic-count and overcommit protocol of the multi-consumer queue, `BlockDrain` the release of
its drained blocks, `MultiQueue` and `MultiRuns` these put together with free list and block index
into the sub-queue of one producer, `RingQueue` and `RingRuns` the same with the lookup of a block
taken access by access, `FreeList` the reference-counted lock-free list of free blocks with the
initial pool and `FreeRuns` what its calls come to, `BlockIndex` the circular index from bases to
blocks, `Semaphore` and `SemaphoreRuns` the lightweight semaphore with the blocking queue on it,
`ControlChannel` the eventfd-signalled channel of an event loop around a `SpscQueue`, and
`AsyncGroup` the election of the callback that reports a joint result. These are state machines in
which each atomic access is one step and steps of all threads interleave freely, under sequential
consistency. Beside what every run keeps, it is proved what a call comes to: why it may return
without an element, block or permit, that no thread is stuck, and within how many of its own steps
it ends, where the code has such a bound.

Five results say where the code does less than one might expect. Rebalancing ends balanced only if
the steal limit times the number of workers reaches the number of leases but one; with the default
limit of one (include/kclpp/leases/LeaseTaker.h:30) it often does not, because the limit also caps
the target (`Balance.BalancedExactlyIf`, `Rebalancing.RestIsBalancedExactlyIf`). An evicted lease
has no `leaseOwner` attribute and so cannot be read back (`LeaseCodec.RoundTrip`); `listLeases`
skips it, and no worker ever writes to it again (`LeaseProtocol.EvictionIsForGood`). `takeLease` and
`updateLease` return the copy they wrote from, whose counter is already out of date, so that the
next renewal from it fails (`LeaseTable.LeaseManager.TakeLease`). Renewing does not keep a lease:
the renewed copy keeps the time at which its counter was last seen to change, so that it is dropped
at the first round later than the lease duration after that time, however often it was renewed
(`LeaseRenewer.RenewalKeepsNoLease`). `safeStrToUll` does not clear `errno`, which makes 2^64-1
unreadable after an earlier range error (`Decimals.ReadsBack`).

The files `Words`, `Bits` and `Options` hold machine words, bit tricks and optional values.

## Model

| member | source | states |
|---|---|---|
| `LeaseProtocol.AtMostOneCurrent` | src/kclpp/leases/LeaseRenewer.cpp:86-112 | in every run of reads, renewals, takes, evictions, updates and creations by any workers, with late or lost answers, at most one worker holds (or is being sent) a copy of a lease with the table's counter, and that worker made the last write, a renewal |
| `LeaseProtocol.NeverAgain` | src/kclpp/leases/LeaseManager.cpp:308-364 | once another worker has made a conditional write on a lease, no copy a worker had at that moment passes a conditional write ever again |
| `LeaseProtocol.CountersCount` | src/kclpp/leases/dynamo_helpers.cpp:78-113 | the counter of every row a lease has had is the one it was created with plus the number of writes since; its owner switches are those it was created with plus the number of takes since after which the row had another owner than before |
| `LeaseProtocol.WritesMake` | src/kclpp/leases/dynamo_helpers.cpp:69-115 | in every run each write made of the row before it just what it is for: a take gives it to the taker and counts a switch only if it had another owner, an eviction leaves it to nobody, only an update touches the checkpoint, and every one counts up |
| `LeaseProtocol.TakerOwns` | src/kclpp/leases/LeaseManager.cpp:347-364 | in every run a take that succeeds makes the taker the owner of the row and is its last write, one that fails changes nothing |
| `LeaseProtocol.RenewerIsCurrent` | src/kclpp/leases/LeaseManager.cpp:308-324 | in every run a renewal that succeeds and is answered leaves the renewer with a current copy, held or under way to it, from which the next write succeeds; one that fails leaves the table as it was and tells the renewer |
| `LeaseProtocol.AnswerArrives` | src/kclpp/leases/LeaseRenewer.cpp:86-112 | in every run, when a renewal is answered and the lease has not been written to since, the worker holds a copy from which its next write succeeds; told that it was not renewed it drops the lease; no other lease it holds is touched |
| `LeaseProtocol.CurrentCopiesAgree` | src/kclpp/leases/Lease.cpp:224-232 | whatever a worker has read or holds of a lease, if its counter is the table's, agrees with the row on owner and owner switches |
| `LeaseProtocol.UnownedForever` | src/kclpp/leases/LeaseManager.cpp:96-119 | once the row of a lease has no owner it stays as it is in every run, since scans skip its item: no copy anybody has passes its condition |
| `LeaseProtocol.EvictionIsForGood` | src/kclpp/leases/LeaseManager.cpp:328-345 | an eviction that succeeds is the last write its lease ever sees |
| `LeaseProtocol.StepKeepsInv` | src/kclpp/leases/LeaseManager.cpp:170-193 | every step keeps the invariant behind these results: each copy is what the row of its counter said, and a held copy at the newest row comes from the holder's own renewal |
| `LeaseProtocol.WriteGrows` | src/kclpp/leases/dynamo_helpers.cpp:69-115 | a write from a matching copy that makes of the row what it is for extends the history of the lease by that row |
| `LeaseTable.ConditionIsMatch` | src/kclpp/leases/dynamo_helpers.cpp:36-66 | the expectation on attributes holds of an item exactly if the copy has the owner and the counter of its row, numbers being compared as decimal text |
| `LeaseTable.WriteIsRowAfter` | src/kclpp/leases/dynamo_helpers.cpp:69-115 | applying the attribute updates of a passing write yields the item of the row after it |
| `LeaseTable.CheckpointWrite` | src/kclpp/leases/LeaseManager.cpp:197-220 | the two checkpoint attributes added to the updates change the checkpoint of the row and nothing else |
| `LeaseTable.MakeCasExpectation` | src/kclpp/leases/dynamo_helpers.cpp:36-66 | the branches build an expectation on owner and counter, of absence where the copy has none |
| `LeaseTable.MakeUpdateValues` | src/kclpp/leases/dynamo_helpers.cpp:69-115 | the branches build the updates: owner deleted or replaced only if it changes, switches counted up with a new owner, counter always counted up |
| `LeaseTable.LeaseManager.InternalUpdateLease` | src/kclpp/leases/LeaseManager.cpp:170-193 | the table changes in the one row of the copy, to the row after the write, and exactly if the copy passes |
| `LeaseTable.LeaseManager.RenewLease` | src/kclpp/leases/LeaseManager.cpp:308-324 | a successful renewal returns a copy that matches the row it made |
| `LeaseTable.LeaseManager.TakeLease` | src/kclpp/leases/LeaseManager.cpp:347-364 | a successful take makes the taker the owner, counting a switch only if it was not the owner before (else the row is the old one with the counter one higher), and returns the copy as it was, which no longer passes |
| `LeaseTable.LeaseManager.EvictLease` | src/kclpp/leases/LeaseManager.cpp:328-345 | a successful eviction leaves the row without an owner, the copy no longer passes, and the item can no longer be read as a lease |
| `LeaseTable.LeaseManager.UpdateLease` | src/kclpp/leases/LeaseManager.cpp:197-235 | a successful update counts up and writes the checkpoint of the copy as far as it has one, changing nothing else; the copy no longer passes |
| `LeaseTable.LeaseManager.CreateLeaseIfNotExists` | src/kclpp/leases/LeaseManager.cpp:250-281 | a row is created exactly if there is none, and represents the lease |
| `LeaseRenewer.LeaseRenewer.AddLeasesToRenew` | src/kclpp/leases/LeaseRenewer.cpp:38-50 | leases are added in order, those without a recorded time skipped, and no held lease is replaced |
| `LeaseRenewer.LeaseRenewer.DropLease` | src/kclpp/leases/LeaseRenewer.cpp:56-61 | whatever is held under the key is dropped |
| `LeaseRenewer.LeaseRenewer.RenewLease` | src/kclpp/leases/LeaseRenewer.cpp:86-112 | a lease that is not expired (or need not be) and passes is replaced by a copy that matches the row again; any other is dropped |
| `LeaseRenewer.LeaseRenewer.RenewLeases` | src/kclpp/leases/LeaseRenewer.cpp:117-155 | with nobody else writing, a round of renewals keeps exactly the held leases that were not expired and whose condition the table meets (a lease without owner and counter meets it where there is no row), each matching its row again; it counts up the rows of these and changes nothing else |
| `LeaseRenewer.RenewalKeepsNoLease` | src/kclpp/leases/Lease.cpp:224-232 | a renewed copy keeps its recorded time: after any rounds of renewals at times that do not go back, nobody else writing, a lease is still held exactly if it passed at the start and had not expired at the last round by the time recorded at the start |
| `LeaseRenewer.HeldAfterRounds` | src/kclpp/leases/LeaseRenewer.cpp:86-155 | after rounds at any times a lease is held exactly if it passed at the start and had not expired at any of them by its recorded time; it has then been counted up once a round and matches its row |
| `LeaseCodec.RoundTrip` | src/kclpp/leases/Lease.cpp:60-208 | reading back what was written gives the lease again (absent numbers as 0, token and parents lost) if and only if key and owner are non-empty and no number is 2^64-1 while errno is stale; a lease without an owner never reads back |
| `LeaseCodec.MissingNumbersAreZero` | src/kclpp/leases/Lease.cpp:97-148 | an item of a lease in which any of the three numbers are missing and any are empty texts is read as the lease with 0 for the former and none for the latter |
| `LeaseCodec.ToDynamoDict` | src/kclpp/leases/Lease.cpp:153-208 | the attributes written step by step are the item of the lease |
| `LeaseCodec.FromDynamoDict` | src/kclpp/leases/Lease.cpp:60-151 | the attributes read step by step give the lease of the item, or fail where a key, an owner or a readable number is missing |
| `Decimals.ReadsBack` | src/kclpp/util/util.cpp:28-43 | a written number is read back as itself, except that 2^64-1 fails while errno is stale |
| `Decimals.DecimalInjective` | src/kclpp/leases/dynamo_helpers.cpp:52-58 | different counters are never written alike |
| `Decimals.DecimalValue` | src/kclpp/leases/Lease.cpp:176-181 | the decimal text of a number has that number as its value |
| `LeaseScans.ScansRefineHistory` | src/kclpp/leases/LeaseTaker.cpp:75-121 | after any history of table scans, what is known is exactly the keys and contents of the last scan, each lease with the time since when its counter has stood still, or none if it was first seen unowned |
| `LeaseScans.ExpiredExactly` | src/kclpp/leases/Lease.cpp:29-57 | with a clock that does not go back, the expired leases are exactly those that stood still for more than the smaller of lease duration and 365 days (31 536 000 000 000 000 ns), and those without a recorded time |
| `LeaseScans.RunStartIs` | src/kclpp/leases/LeaseTaker.cpp:92-110 | the recorded scan is the first of the unbroken run of scans with the same counter |
| `LeaseScans.ScanMergesEach` | src/kclpp/leases/LeaseTaker.cpp:87-118 | one scan leaves exactly the scanned keys, each merged with what was known under it |
| `LeaseTaker.LeaseTaker.UpdateAllLeases` | src/kclpp/leases/LeaseTaker.cpp:75-121 | the loops over the scan and over the keys not seen leave exactly the merged scan, and what is known stays what the history of scans shows |
| `LeaseTaker.LeaseTaker.RemoveAll` | src/kclpp/leases/LeaseTaker.cpp:115-118 | the keys not seen in the scan are removed, and no others |
| `LeaseTaker.LeaseTaker.GetExpiredLeases` | src/kclpp/leases/LeaseTaker.cpp:124-137 | each known lease that is expired as of the last scan occurs once, and no other |
| `LeaseTaker.LeaseTaker.ComputeLeaseCounts` | src/kclpp/leases/LeaseTaker.cpp:140-161 | each owner of an unexpired lease is counted with the number of such leases it has, and the worker itself at least with 0 |
| `LeaseTaker.LeaseTaker.MostLoaded` | src/kclpp/leases/LeaseTaker.cpp:166-172 | the worker found has the highest count, whatever the order of the counts |
| `LeaseTaker.LeaseTaker.Candidates` | src/kclpp/leases/LeaseTaker.cpp:191-200 | all leases of the victim, each once |
| `LeaseTaker.LeaseTaker.ChooseLeasesToSteal` | src/kclpp/leases/LeaseTaker.cpp:164-214 | the leases chosen are distinct, all belong to one most loaded worker, and are as many as the steal count allows |
| `LeaseTaker.LeaseTaker.SomeExpired` | src/kclpp/leases/LeaseTaker.cpp:246-252 | as many expired leases as wanted or there are, none twice |
| `LeaseTaker.LeaseTaker.ComputeLeasesToTake` | src/kclpp/leases/LeaseTaker.cpp:216-260 | the decision takes nothing at the target, expired leases first, and steals only if there are none |
| `LeaseTaker.CountOne` | include/kclpp/util/util.h:75-86 | counting one lease more raises the count of its owner by one and no other |
| `Balance.StealIsFair` | src/kclpp/leases/LeaseTaker.cpp:179-187 | a worker that steals ends with no more leases than its victim keeps |
| `Balance.StealIsFull` | src/kclpp/leases/LeaseTaker.cpp:174-236 | a worker steals whenever it may, and as much as the rules allow: with the even share of leases among workers, rounded up and capped by the limit, as the aim, it takes the limit, or reaches the aim, or leaves the victim just the aim, or takes one from a victim that has just the aim |
| `Balance.NeverFromItself` | src/kclpp/leases/LeaseTaker.cpp:164-190 | a worker that decides to steal is never its own victim |
| `Balance.StealEvensOut` | src/kclpp/leases/LeaseTaker.cpp:179-187 | a steal keeps the number of leases and lowers the sum of the squared loads |
| `Balance.RebalancingEnds` | src/kclpp/leases/LeaseTaker.cpp:164-214 | a run of steals on load vectors is no longer than the sum of the squared loads |
| `Balance.QuietIsBalanced` | src/kclpp/leases/LeaseTaker.cpp:216-260 | where no worker steals and the leases are at most the limit times the workers plus one, loads differ by at most one |
| `Balance.BalancedExactlyIf` | src/kclpp/leases/LeaseTaker.cpp:227-236 | for n workers, all quiet loads are balanced if and only if n is 1 or the leases are at most n times the steal limit plus one; beyond that a stuck, unbalanced assignment exists |
| `Rebalancing.DecisionTakes` | src/kclpp/leases/LeaseTaker.cpp:216-260 | with every lease owned and the list of expired leases empty, a decision takes as many leases as the load vector says, from a most loaded other worker |
| `Rebalancing.DecisionIsFull` | src/kclpp/leases/LeaseTaker.cpp:216-260 | with every lease owned and none expired, the number of leases a decision takes from the most loaded worker is the largest that the limit, the even share and the load of the victim allow, and is not zero if it need not be |
| `Rebalancing.ExpiredAreTaken` | src/kclpp/leases/LeaseTaker.cpp:227-253 | with leases expired, a worker below its share takes only of them, each once, never ends above its share, and reaches it or has taken all of them; one that has its share takes nothing |
| `Rebalancing.TakingIsStealing` | src/kclpp/leases/LeaseTaker.cpp:164-214 | the leases taken move from the victim to the thief and nothing else moves |
| `Rebalancing.RunsEnd` | src/kclpp/leases/LeaseTaker.cpp:164-214 | any run of non-empty decisions, each at its own time on the current assignment with no lease expired then, the owners renewing in between, ends within the sum of the squared loads |
| `Rebalancing.RestIsBalancedExactlyIf` | src/kclpp/leases/LeaseTaker.cpp:216-260 | for distinct workers, any lease duration and any time: every table of so many owned leases, none of them expired then, at which all decisions are empty is balanced if and only if there is one worker or the leases are at most the workers times the steal limit plus one; beyond that there is such a table that is not balanced |
| `Rebalancing.RestIsForced` | src/kclpp/leases/LeaseTaker.cpp:216-260 | where each worker may take nothing and no lease is expired, no decision of any worker can take anything |
| `Rebalancing.RestIsBalanced` | src/kclpp/leases/LeaseTaker.cpp:140-161 | when no lease is expired and no decision takes anything, all loads differ by at most one, for a steal limit that is not too small |
| `TimerWheel.HTimerWheel.Accurate` | include/kclpp/async/wheel/HTimerWheel.h:219-234 | every run so far came less than one bottom resolution before its deadline and less than two resolutions of the level first used after it, through any number of cascades, and if that level was the bottom one, at exactly the instant its interval and the time it was added determine; no entry still in the wheel is late |
| `TimerWheel.HTimerWheel.Conserved` | include/kclpp/async/wheel/HTimerWheel.h:241-308 | what was added, by the user or again by the run of a repeating entry at the instant of that run, is as a multiset exactly what ran and what is in the slots |
| `TimerWheel.HTimerWheel.OneShotRunsOnce` | include/kclpp/async/wheel/HTimerWheel.h:241-251 | a one-shot entry never runs more often than it was added, and exactly so often once it is two resolutions late |
| `TimerWheel.HTimerWheel.RepeatingRunsOn` | include/kclpp/async/wheel/HTimerWheel.h:253-258 | each run of a repeating entry put it back from that instant, and that one runs in time too |
| `TimerWheel.HTimerWheel.Odometer` | include/kclpp/async/wheel/HTimerWheel.h:329-354 | when all timers of an instant have fired, each ring has advanced exactly floor(T / resolution) times |
| `TimerWheel.EveryRun` | include/kclpp/async/wheel/HTimerWheel.h:335-378 | any events, with simultaneous timers firing in any order, leave a wheel in which all of this holds and which has taken exactly the events the clock allows: its clock, waiting timers, cached time and accepted entries are those of an independent replay of the events |
| `TimerWheel.HTimerWheel.AccurateForCaller` | include/kclpp/async/wheel/HTimerWheel.h:386-407 | measured from the call itself, which the cached time lags by up to one bottom resolution, a run comes less than two bottom resolutions before the deadline and less than two resolutions of the level first used after it |
| `TimerWheel.HTimerWheel.OnLevelTick` | include/kclpp/async/wheel/HTimerWheel.h:335-354 | the tick of the one level that is not skipped at an instant processes and advances all levels below it; every other tick only counts |
| `TimerWheel.HTimerWheel.CountTick` | include/kclpp/async/wheel/HTimerWheel.h:341-346 | a tick is skipped exactly if the level above ticks at the same instant |
| `TimerWheel.HTimerWheel.OnLevelTickImpl` | include/kclpp/async/wheel/HTimerWheel.h:310-320 | the front slots of the level and of all below are emptied, what is due has run, and the other slots are untouched |
| `TimerWheel.HTimerWheel.ProcessUpperBucketSlots` | include/kclpp/async/wheel/HTimerWheel.h:274-290 | each entry goes to exactly one list: to the one to run exactly if less than half a bottom resolution is left until its deadline, else to the one to place again, in order; those to run are in time, the others have a future deadline |
| `TimerWheel.HTimerWheel.ExecutePendingEntries` | include/kclpp/async/wheel/HTimerWheel.h:241-251 | each pending entry runs once, now, and exactly the repeating ones are queued to be added again |
| `TimerWheel.HTimerWheel.AddSubEntries` | include/kclpp/async/wheel/HTimerWheel.h:265-270 | every entry taken from a higher level is placed again; none is refused |
| `TimerWheel.HTimerWheel.ReAddRepeatingEntries` | include/kclpp/async/wheel/HTimerWheel.h:253-258 | every repeating entry that ran is added from the instant it ran; none is refused |
| `TimerWheel.HTimerWheel.AddEntry` | include/kclpp/async/wheel/HTimerWheel.h:219-234 | the entry lands in the wheel exactly if some level has room for its remaining time, in the lowest such level, in a slot that comes up in time |
| `TimerWheel.HTimerWheel.Add` | include/kclpp/async/wheel/HTimerWheel.h:386-407 | adding fails exactly if no level has room for the interval, and an accepted entry is stamped with the cached time |
| `TimerWheel.HTimerWheel.AdvanceBuckets` | include/kclpp/async/wheel/HTimerWheel.h:329-333 | exactly the rings of levels 0 to the given one advance by one |
| `TimerWheel.HTimerWheel.PassTime` | include/kclpp/async/wheel/HTimerWheel.h:409-421 | the ideal clock: the next instant makes exactly the timers due whose resolution divides it |
| `TimerWheel.MakeLevels` | include/kclpp/async/wheel/HTimerWheel.h:362-371 | every level is made a bottom level, since the index is never incremented |
| `TimerWheel.SetSkipTicks` | include/kclpp/async/wheel/HTimerWheel.h:372-377 | the skip count is the ratio of neighbouring resolutions |
| `TimerWheel.TimingAdvance` | include/kclpp/async/wheel/HTimerWheel.h:329-333 | advancing a ring whose front slot is empty leaves the time at which each entry comes up as it was |
| `TimerWheel.SortedOut` | include/kclpp/async/wheel/HTimerWheel.h:274-290 | an entry whose slot comes up now is in time if it is to run, and otherwise has a deadline in the future |
| `TimerWheel.TickMeans` | include/kclpp/async/wheel/HTimerWheel.h:335-354 | the skip count is reached exactly when the next resolution divides the time |
| `WheelTiming.GetSlotIdx` | include/kclpp/async/wheel/HTimerWheel.h:124-166 | the counting loop yields the closed form, and the range error exactly beyond the capacity |
| `WheelTiming.DueExactly` | include/kclpp/async/wheel/HTimerWheel.h:124-166 | at a multiple of the resolution the slot found for a delay comes up exactly: one resolution late if the delay is a multiple, early by the rest if it is two resolutions or more, at the nearer multiple between one and two, and below one after one resolution or, beyond half of one, after two; so no delay below two resolutions is more than half a resolution early |
| `WheelTiming.LevelForIsLowest` | include/kclpp/async/wheel/HTimerWheel.h:219-234 | a delay goes to a level if and only if that level has room for it and no lower one has |
| `WheelTiming.SlotIdxInRange` | include/kclpp/async/wheel/HTimerWheel.h:124-166 | the index is that of a slot for every delay below the capacity if and only if there are two slots, or the resolution is at most two |
| `WheelTiming.SlotComesUp` | include/kclpp/async/wheel/HTimerWheel.h:170-174 | the slot of a delay comes up less than two resolutions from the deadline, and at a multiple of the resolution less than one before it |
| `WheelTiming.LevelForMonotone` | include/kclpp/async/wheel/HTimerWheel.h:219-234 | a shorter remaining time never needs a higher level |
| `WheelTiming.QuotientTick` | include/kclpp/async/wheel/HTimerWheel.h:329-354 | between two instants a ring turns on exactly if its resolution divides the later one |
| `WheelTiming.SkippedTick` | include/kclpp/async/wheel/HTimerWheel.h:335-346 | the ticks of a level are a multiple of its skip count exactly if the level above ticks |
| `WheelBuffer.DynamicWheelBuffer.Advance` | include/kclpp/async/wheel/DynamicWheelBuffer.h:77-79 | advancing rotates the contents by one slot |
| `WheelBuffer.DynamicWheelBuffer.GetAt` | include/kclpp/async/wheel/DynamicWheelBuffer.h:80-82 | reading a position gives the slot that many places ahead |
| `WheelBuffer.DynamicWheelBuffer.SetAt` | include/kclpp/async/wheel/DynamicWheelBuffer.h:83-85 | writing a position changes that slot only |
| `WheelBuffer.DynamicWheelBuffer.RealIndexIsPosition` | include/kclpp/async/wheel/DynamicWheelBuffer.h:52-54 | the real index stays in the vector and holds the slot of the position |
| `TicketDequeue.EveryRunIsSafe` | include/kclpp/async/vendored/concurrentqueue/concurrentqueue.h:2463-2533 | in every interleaving of one producer and any single and bulk consumers the head never passes the tail, every index below the head is claimed by exactly one dequeue and no other index by any, and with no consumer in flight optimistic count minus overcommit is the head |
| `TicketDequeue.StepKeepsInv` | include/kclpp/async/vendored/concurrentqueue/concurrentqueue.h:2685-2786 | every load and fetch_add keeps the invariant: each won ticket is still backed by an element |
| `TicketDequeue.LoneDequeue` | include/kclpp/async/vendored/concurrentqueue/concurrentqueue.h:2685-2704 | alone on a quiescent queue a dequeue claims as many elements as it wants, or all there are |
| `TicketDequeue.DequeueIsWaitFree` | include/kclpp/async/vendored/concurrentqueue/concurrentqueue.h:2685-2786 | in every interleaving a dequeue takes at most six steps of its own after its first load, can always take the next, claims nothing before its last one and then one range of at most what it asked for |
| `TicketDequeue.TiledClaimsOnce` | include/kclpp/async/vendored/concurrentqueue/concurrentqueue.h:2706-2708 | claims that start where the last one ended cover each index once |
| `TicketDequeue.InvMeans` | include/kclpp/async/vendored/concurrentqueue/concurrentqueue.h:2463-2533 | what the invariant says of head, tail, claims and counts |
| `TicketDequeue.AvailableIsDifference` | include/kclpp/async/vendored/concurrentqueue/concurrentqueue.h:2685-2701 | the wrapped difference compares and counts as the true one |
| `Words.CircularLessIsLess` | include/kclpp/async/vendored/concurrentqueue/concurrentqueue.h:399-410 | the circular comparison is the comparison of the true values if they are less than half the word range apart |
| `BlockDrain.ReleasedWhenDrained` | include/kclpp/async/vendored/concurrentqueue/concurrentqueue.h:1517-1531 | however the reports of disjoint stretches interleave, a block is released exactly when each of its indices has been read, and once |
| `BlockDrain.Stretches` | include/kclpp/async/vendored/concurrentqueue/concurrentqueue.h:2710-2779 | the bulk loop cuts the claim into stretches that make it up exactly, none across a block boundary and each reaching to the end of its block or of the claim |
| `BlockDrain.ReportKeepsInv` | include/kclpp/async/vendored/concurrentqueue/concurrentqueue.h:1535-1556 | the counter of a block counts the indices read of it |
| `MultiRuns.DeliveredOnce` | include/kclpp/async/vendored/concurrentqueue/concurrentqueue.h:2399-2533 | in every run of producer, consumers and other users of the free list, each delivery is of the element put in at its index, to the consumer whose dequeue claimed the index, and no index is delivered twice; with no claim left to work through, exactly the indices below the head have been delivered |
| `MultiRuns.NotReusedUnread` | include/kclpp/async/vendored/concurrentqueue/concurrentqueue.h:2463-2533 | in every run the block of an element not yet read is out of the free list, is in the index under its number, holds the element in its slot, and serves under no other number |
| `MultiRuns.ConsumersFind` | include/kclpp/async/vendored/concurrentqueue/concurrentqueue.h:2706-2779 | in every run a consumer finds the block it looks up, the stretch it reports has been reported by nobody else and fills the counter exactly if it drains the block, and a block it gives back is its to give |
| `MultiRuns.ProducerFinds` | include/kclpp/async/vendored/concurrentqueue/concurrentqueue.h:2456-2460 | in every run the block the producer writes its next element to is still out of the free list |
| `MultiRuns.DrainedIsGiven` | include/kclpp/async/vendored/concurrentqueue/concurrentqueue.h:2497-2522 | in every run a drained block has been given back or its last reader is about to, and no other has been; with no claim left to work through, the index holds exactly the blocks not given back |
| `MultiRuns.ClaimIsWorkedOff` | include/kclpp/async/vendored/concurrentqueue/concurrentqueue.h:2706-2779 | in every run a consumer works off its claim within five steps of its loop for each index whatever the others do, and can always take the next one, but for an add of an earlier block it may have to finish first |
| `MultiRuns.ProducerCanGoOn` | include/kclpp/async/vendored/concurrentqueue/concurrentqueue.h:2399-2680 | in every run the producer can put any element into a block it has started and not filled, can publish what it has put in, and can give back the newest block as long as it has put nothing into it |
| `MultiQueue.StepKeepsInv` | include/kclpp/async/vendored/concurrentqueue/concurrentqueue.h:2399-2786 | every step of producer, ticket protocol, reading loop and free list keeps the claims, blocks, contents and deliveries in agreement |
| `RingRuns.LookupFinds` | include/kclpp/async/vendored/concurrentqueue/concurrentqueue.h:2840-2863 | in every run in which a consumer loads the ring, its tail, the key there and the slot one after the other, while the producer stores keys, moves the tail on and back and replaces the ring, the key is valid, the slot holds the block of the claimed element under its number, and so does each next slot of a bulk claim and the cell a drained block is taken out of |
| `RingRuns.LookupCanGoOn` | include/kclpp/async/vendored/concurrentqueue/concurrentqueue.h:2840-2863 | in every run a consumer that looks up a block can make its next access, whatever the producer has done to the rings |
| `RingRuns.ProducerCanGoOn` | include/kclpp/async/vendored/concurrentqueue/concurrentqueue.h:2807-2850 | in every run the producer can go on with the index, to a new block, a wider ring or back, if and only if it is not that the next cell is of a block in use and the ring as wide as it can be |
| `RingRuns.RefinesMultiQueue` | include/kclpp/async/vendored/concurrentqueue/concurrentqueue.h:2714-2776 | the queue of such a run is the queue of a run of MultiQueue, where a lookup is one step, so that all that is proved of those runs holds |
| `RingRuns.WiderHasRoom` | include/kclpp/async/vendored/concurrentqueue/concurrentqueue.h:2821-2831 | after the ring was replaced the cell after the tail has no valid key, as the code asserts |
| `RingQueue.StepKeepsInv` | include/kclpp/async/vendored/concurrentqueue/concurrentqueue.h:2807-2907 | every access of producer and consumers keeps blocks, cells, rings and what consumers have loaded of them in agreement |
| `RingQueue.KeyAtTail` | include/kclpp/async/vendored/concurrentqueue/concurrentqueue.h:2853-2856 | the key at a tail loaded earlier is still that of the block that was newest then, although the tail may have moved and the ring may have been replaced |
| `FreeList.NeverHandedOutTwice` | include/kclpp/async/vendored/concurrentqueue/concurrentqueue.h:1355-1456 | in every interleaving the hand-outs and returns of each block alternate, starting with a hand-out |
| `FreeList.NoBlockIsLost` | include/kclpp/async/vendored/concurrentqueue/concurrentqueue.h:2955-3007 | every block is in exactly one of pool, in use, or free; free blocks hang on the list or a thread in a call holds a reference to them or has them in service, and with no call in progress all of them hang on the list |
| `FreeRuns.NothingMeansEmpty` | include/kclpp/async/vendored/concurrentqueue/concurrentqueue.h:1379-1416 | in every interleaving a requisition comes away without a block only if the pool is used up and the list was empty at an instant of that very call |
| `FreeRuns.RequisitionAlone` | include/kclpp/async/vendored/concurrentqueue/concurrentqueue.h:2955-3007 | at any instant of any run, wherever the other threads stand, a requisition that nobody disturbs returns the next block of the pool in three steps, or else the first block of the list in eight, which is then off the list; it finds nothing if and only if there is neither |
| `FreeRuns.AddAlone` | include/kclpp/async/vendored/concurrentqueue/concurrentqueue.h:1365-1456 | at any instant of any run an add that nobody disturbs puts its block in front of the list in five steps if no getter references it, and otherwise leaves the flagged block to the last of them |
| `FreeRuns.NobodyIsStuck` | include/kclpp/async/vendored/concurrentqueue/concurrentqueue.h:1355-1456 | in every run a thread inside a call can take its next step if and only if it does not yet have its block and does not yet know that there is none |
| `FreeRuns.LeftAloneEnds` | include/kclpp/async/vendored/concurrentqueue/concurrentqueue.h:1355-1456 | from any instant of any run, however far its call has got and wherever the others stand, a thread left alone is done within nineteen steps |
| `FreeList.ReachesChain` | include/kclpp/async/vendored/concurrentqueue/concurrentqueue.h:1421-1456 | following next pointers from the head visits exactly the listed blocks, in order |
| `FreeList.StepKeepsInv` | include/kclpp/async/vendored/concurrentqueue/concurrentqueue.h:1355-1456 | every load, compare-and-swap and fetch_add keeps reference counts, list and duties of the threads in agreement |
| `FreeList.UnlinkEffect` | include/kclpp/async/vendored/concurrentqueue/concurrentqueue.h:1381-1403 | the head is swapped for the next pointer read under the reference, which is still the right one |
| `FreeList.DropEffect` | include/kclpp/async/vendored/concurrentqueue/concurrentqueue.h:1404-1414 | dropping a reference hands the block to the list exactly if it was the last one and the flag was set |
| `BlockIndex.LookupFindsSlot` | include/kclpp/async/vendored/concurrentqueue/concurrentqueue.h:2847-2861 | the unsigned division of a negative distance still finds the slot of every base within the ring, for power-of-two capacities up to 2^59 |
| `BlockIndex.CapacityLimit` | include/kclpp/async/vendored/concurrentqueue/concurrentqueue.h:2855-2859 | 2^59 is exact: some lookup goes wrong if and only if the capacity is larger |
| `BlockIndex.Doubled` | include/kclpp/async/vendored/concurrentqueue/concurrentqueue.h:2877-2893 | the two loops put the old entries in order from the oldest on, then as many new ones |
| `BlockIndex.Index.NewBlockIndex` | include/kclpp/async/vendored/concurrentqueue/concurrentqueue.h:2863-2907 | doubling keeps the map, the newest base and all entries |
| `BlockIndex.Index.InsertEntry` | include/kclpp/async/vendored/concurrentqueue/concurrentqueue.h:2807-2832 | an entry for the next base is found unless the ring is full of blocks in use and cannot grow |
| `BlockIndex.Index.RewindTail` | include/kclpp/async/vendored/concurrentqueue/concurrentqueue.h:2834-2838 | rewinding undoes the insertion of a base that has no block yet |
| `BlockIndex.Index.StartBlock` | include/kclpp/async/vendored/concurrentqueue/concurrentqueue.h:2414-2455 | starting a block is one update of a plain map from base to block, or none; it fails exactly without a block or without room |
| `BlockIndex.Index.Lookup` | include/kclpp/async/vendored/concurrentqueue/concurrentqueue.h:2840-2861 | the lookup returns what the plain map has for the block of the element |
| `BlockIndex.Index.Release` | include/kclpp/async/vendored/concurrentqueue/concurrentqueue.h:2479-2520 | clearing the entry of a drained block removes its base from the map |
| `BlockIndex.Index.RoomIsSpare` | include/kclpp/async/vendored/concurrentqueue/concurrentqueue.h:2811-2814 | the next slot may be taken exactly if the oldest base of the ring is not in use |
| `SpscRuns.EveryRunIsFifo` | include/kclpp/async/vendored/readerwriterqueue/readerwriterqueue.h:206-297 | in every interleaving of producer and consumer the queue holds what was accepted and not dequeued, each dequeue or peek answers with the oldest of these, and emptiness is reported only if the queue was empty at an instant of the call |
| `SpscRuns.RejectedOnlyWhenFull` | include/kclpp/async/vendored/readerwriterqueue/readerwriterqueue.h:433-528 | an enqueue that may not allocate fails only if at an instant of the call the queue held at least the size it was built for |
| `SpscCalls.EnqueueIsWaitFree` | include/kclpp/async/vendored/readerwriterqueue/readerwriterqueue.h:433-528 | in every interleaving an enqueue takes at most six steps of its own, can always take the next, and ends with the very element of the call accepted; only one that may not allocate can be rejected |
| `SpscCalls.DequeueIsWaitFree` | include/kclpp/async/vendored/readerwriterqueue/readerwriterqueue.h:206-297 | in every interleaving a dequeue or peek takes at most eight steps of its own, can always take the next, and ends with an element, taken or only looked at as asked, or with none |
| `SpscCalls.EmptyMeansEmpty` | include/kclpp/async/vendored/readerwriterqueue/readerwriterqueue.h:206-297 | an answer that the queue is empty means that at an instant of that very call it was |
| `SpscCalls.RejectedMeansFull` | include/kclpp/async/vendored/readerwriterqueue/readerwriterqueue.h:433-528 | a rejection means that at an instant of that very call the queue held at least as many elements as it was built for |
| `SpscCalls.BlocksDouble` | include/kclpp/async/vendored/readerwriterqueue/readerwriterqueue.h:490-500 | in every run the size of the newest block is the first size doubled once for each allocation, as long as that is at most the largest allowed, and that from then on |
| `SpscRuns.BlocksStayInOrder` | include/kclpp/async/vendored/readerwriterqueue/readerwriterqueue.h:233-297 | blocks between front and tail block are full, blocks beyond the tail block are empty but for an unpublished element, and the block advanced into is never empty |
| `SpscQueue.StepKeepsInv` | include/kclpp/async/vendored/readerwriterqueue/readerwriterqueue.h:433-528 | every access keeps the invariant, with stale index copies, splicing in of a new block, peeks and dequeues |
| `SpscQueue.NextBlockNotEmpty` | include/kclpp/async/vendored/readerwriterqueue/readerwriterqueue.h:247-283 | when the front block is used up, the block after it holds an element |
| `SpscQueue.NoBlockLeft` | include/kclpp/async/vendored/readerwriterqueue/readerwriterqueue.h:463-523 | with no free block left after a full tail block, the queue holds at least the size it was built for |
| `SpscRuns.Construct` | include/kclpp/async/vendored/readerwriterqueue/readerwriterqueue.h:80-133 | the constructor leaves an empty queue of empty blocks linked in a ring: one block, of the least power of two above the size, if and only if the size is below two of the largest blocks, and else as many of the largest blocks as leave room without one of them but not without two |
| `SpscRuns.EnoughBlocks` | include/kclpp/async/vendored/readerwriterqueue/readerwriterqueue.h:94-99 | the block count leaves room for all elements even without one block, but not without two |
| `SpscRuns.SizeApprox` | include/kclpp/async/vendored/readerwriterqueue/readerwriterqueue.h:414-427 | with no other call in progress the sum over the ring is the number of elements |
| `SpscRuns.MaskedDistance` | include/kclpp/async/vendored/readerwriterqueue/readerwriterqueue.h:414-427 | the masked wrapped difference of two indices is their distance in the block |
| `Bits.CeilToPow2` | include/kclpp/async/vendored/readerwriterqueue/readerwriterqueue.h:539-551 | the result is the least power of two not below the argument |
| `Bits.MaskIsMod` | include/kclpp/async/vendored/readerwriterqueue/readerwriterqueue.h:242-245 | masking with a power of two less one is the remainder |
| `Semaphore.PermitsAreConserved` | include/kclpp/async/vendored/concurrentqueue/blockingconcurrentqueue.h:257-402 | in every interleaving, with timeouts, permits granted and available are the initial ones and those signalled, and the sleepers without a posted or promised permit are as many as the count is below zero |
| `SemaphoreRuns.CallsEnd` | include/kclpp/async/vendored/concurrentqueue/blockingconcurrentqueue.h:257-402 | in every interleaving a wait without a limit ends with a permit, one with a limit ends with none only after its kernel wait timed out, and no call ends with more than it asked for, nor with less unless at an instant of the call no permit was in the count |
| `SemaphoreRuns.TryTakes` | include/kclpp/async/vendored/concurrentqueue/blockingconcurrentqueue.h:363-374 | a plain try that gets permits takes at its last step all it asked for or all that are there |
| `SemaphoreRuns.TryAlone` | include/kclpp/async/vendored/concurrentqueue/blockingconcurrentqueue.h:340-383 | at any instant of any run a plain try, and a wait when there are permits, that nobody disturbs is over in three steps with all it asked for or all there are |
| `SemaphoreRuns.SleeperWakes` | include/kclpp/async/vendored/concurrentqueue/blockingconcurrentqueue.h:312-332 | a sleeping thread for which a permit is posted gets it, and then what is in the count up to its maximum |
| `SemaphoreRuns.TimedOutEnds` | include/kclpp/async/vendored/concurrentqueue/blockingconcurrentqueue.h:317-327 | a thread that timed out takes the permit posted for it, or takes back its decrement and ends with none |
| `SemaphoreRuns.SignalAlone` | include/kclpp/async/vendored/concurrentqueue/blockingconcurrentqueue.h:393-402 | a signal adds its permits to the count and posts one for each sleeper it can wake, and for no others |
| `SemaphoreRuns.OnlySleepersWait` | include/kclpp/async/vendored/concurrentqueue/blockingconcurrentqueue.h:257-402 | in every run a thread inside the semaphore can take its next step if and only if it does not sleep with no permit posted |
| `SemaphoreRuns.PermitsCanBeRedeemed` | include/kclpp/async/vendored/concurrentqueue/blockingconcurrentqueue.h:602-622 | in every run of the blocking queue a thread that got permits can take an element for each |
| `Semaphore.PermitsMatchElements` | include/kclpp/async/vendored/concurrentqueue/blockingconcurrentqueue.h:602-622 | in the blocking queue the untaken elements are matched by unredeemed permits and pending signals, so that a thread with a permit always finds an element |
| `Semaphore.StepKeepsInv` | include/kclpp/async/vendored/concurrentqueue/blockingconcurrentqueue.h:257-402 | every load, compare-and-swap, fetch_add, kernel wait, timeout and post keeps that accounting |
| `ControlChannel.NoLostWakeup` | src/kclpp/async/EventContext.cpp:51-61 | in every run, whenever the loop sleeps and a message is queued, the eventfd is readable or the sender that holds the lock is about to write to it |
| `ControlChannel.CallKeepsInv` | include/kclpp/async/queues/MPSCEventChannel.h:46-60 | the call of the single-producer enqueue, which does not look whether another is in progress, keeps the invariant: the spin lock has left the producer idle |
| `ControlChannel.RunsOnceInLockOrder` | include/kclpp/async/queues/MPSCEventChannel.h:46-77 | in every run the messages run, followed by those in the queue, are those of the senders not rejected, in the order in which they held the lock |
| `ControlChannel.AsleepMeansAllRan` | src/kclpp/async/EventContext.cpp:51-61 | when the loop sleeps, the eventfd is not readable and nobody holds the lock, every message not rejected has been run |
| `ControlChannel.EveryMessageRuns` | include/kclpp/async/queues/MPSCEventChannel.h:62-77 | from any state of any run with no sender inside, the steps of the loop alone, at most 20 for each queued message and 24, bring it to sleep with every message not rejected run |
| `ControlChannel.HolderLeaves` | include/kclpp/async/queues/MPSCEventChannel.h:46-60 | in every run a sender that has the lock can always take its next step, and has given the lock back after at most nine |
| `ControlChannel.StepKeepsInv` | include/kclpp/async/queues/MPSCEventChannel.h:46-77 | every access of senders and loop, those inside the single-producer queue included, keeps lock, queue, eventfd and histories in agreement |
| `AsyncGroup.OneLeaderAfterAllPosts` | src/kclpp/AsyncGroup.cpp:6-33 | a leader exists only after all posts, there is never a second, and when all of one or more callbacks are over there is one |
| `AsyncGroup.EndsWithLeader` | src/kclpp/AsyncGroup.cpp:6-33 | a run of one or more callbacks has at most six steps for each, and when none can take another step one of them is the leader |

## Left out

- Weak memory ordering: all state machines assume sequential consistency.
- The objects of the concurrent queues (`SpscQueue`, `TicketDequeue`, `FreeList`, `Semaphore`, `ControlChannel`, `AsyncGroup`, `BlockDrain`, `MultiQueue`, `RingQueue`) are values stepped by relations, since several threads change them between any two accesses; update in place and addresses are not captured there.
- Wrap-around of queue indices and ticket counts: they are assumed to stay below half the word range in `TicketDequeue`, `BlockDrain` and `MultiQueue`; `BlockIndex` has no such assumption.
- Failing allocations and throwing element constructors and assignments, except that a block index may fail to grow and a block may be missing.
- Rings of more than 2^59 slots, at which the lookup goes wrong (`BlockIndex.CapacityLimit`).
- `MultiQueue` remembers the producer's blocks by number where the code keeps them in `tailBlock` and next pointers. Of the blocks of a bulk enqueue that fails, `RingQueue` takes out the newest first and the code the oldest; no consumer looks at these.
- In `RingQueue` the requisition of a block and its storing in the cell are one step: in between nobody else knows the block.
- Explicit producers, producer tokens and rotation, the thread-id hash, the single-producer semaphore's timed wait, destructors, moves and swaps.
- `SPSCEventChannel`: its drain stops after one message, so the wakeup theorem of `ControlChannel` is not claimed for it.
- AWS clients, libevent, threads, logging and real clocks. Scans are sequences of row reads, shuffles any permutation.
- Deletion and re-creation of rows, pagination of scans, the missing table name in `updateLease`, which is treated as a plain conditional write.
- The wrap-around of lease counters at 2^64.
- Exclusive ownership by owner name: `initialize` renews every listed lease without looking at the owner, so safety is stated in terms of counters.
- `initialize`, `takeLeases` and the checkpointer as chains of callbacks: their reads, writes and answers are the steps of `LeaseProtocol`; that one callback reports the joint result is `AsyncGroup`.
- TimerWheel.HTimerWheel.constructor: the wheel starts its timers when it is made; entries added before `start` would be late by the time in between.
- TimerWheel.HTimerWheel.Add: assumes that callbacks do not call it while the wheel runs them.
- SpscRuns.SizeApprox: states the size only with no other call in progress; while others run the source promises an estimate.
- LeaseRenewer.LeaseRenewer.RenewLeases: states the round with no other writer; with others the answers interleave as in `LeaseProtocol`.
- LeaseTable.Holds: compares numbers as text, which is exact because every number in the table is written by the same code.
- `ShardConsumer`, `Worker`, `ScopeGuard`, `UniqueToken`, `ThreadBaton`, `Synchronized` and the error types: callback plumbing and easy members.
