# xutex in Dafny

xutex is a family of blocking and async synchronization primitives built on one wait-queue algorithm:
packed atomic state words, a tag-locked intrusive FIFO queue of waiter nodes, and signal handoff with
cancellation at every poll boundary. This project models those protocols and proves what they keep, for
any number of threads and tasks, any number of primitives, and every schedule.

There are two layers.

* **Heap layer.** `SignalQueue.dfy` has the intrusive queue and the popped chain as classes over linked
  nodes; `PoppingLoops.dfy` has the three loops that pop waiters under the tag-lock (permit distribution,
  broadcast, barrier release). Each refines a small function on sequences, and the protocols use exactly
  those functions.
* **Protocol layer.** Each primitive is a state datatype with one program counter per agent, a total
  `Step` function that does one atomic access per step, and a `Run` over a schedule. A schedule is any
  sequence of (agent, choice) pairs; a choice covers the call an idle agent makes, spurious failures of a
  weak compare-exchange, the outcome of a user closure, and dropping a future. The theorems are about
  `Run(s, schedule)` for every initial `s` and every schedule.

| files | what they cover |
|---|---|
| `Semaphore*.dfy`, `PermitDrain.dfy`, `PackedPool.dfy`, `RwLock.dfy` | the semaphore, the outcome of every call, the exact limits of its guarantees, its packed pool word, the reader-writer lock on top |
| `Mutex*.dfy` | the mutex word, handoff and its order, cancelled requests, the outcome of every call |
| `OnceCell*.dfy` | initialization, takeover after a failed or dropped initializer, where the value comes from |
| `Notify*.dfy`, `PackedNotify.dfy` | the stored permit, the broadcast generation, the packed word, the outcome of every call |
| `Barrier*.dfy`, `PackedBarrier.dfy` | rounds, withdrawal, the packed word, release, the result of every wait, and the exact bound under which nobody is left behind |
| `TagLock.dfy`, `TagLockProof.dfy`, `WaitWord.dfy` | the tag-lock, the shared block pool, and the three-valued word the other protocols use |
| `ParkHandoff.dfy`, `WakeHandoff.dfy` | the last step of every wait: swap and unpark, take, publish and wake |
| `WaitNodes.dfy`, `WaitList.dfy`, `Generations.dfy`, `TicketOrder.dfy`, `Ledger.dfy`, `Schedules.dfy` | waiter nodes, queues, generations, tickets, weighted sums, schedules |

Three kinds of theorem recur. Invariants say what every reachable state keeps. The `*Outcomes` modules say what
each step of a call does to it, against the reachable state and not against what the agent has seen: who gets
the lock or the permits, on what grounds a call is refused, and what a wait returns. And the `ComesToRest` and
`StopsOnlyFor*` theorems say that nothing stops needlessly: an agent left alone gets nearer to its rest with
every step, and when no agent can move, whoever is not idle waits for something that is really missing.

Fields such as `owner`, `tagger`, `runner`, `books`, `line`, `tally`, `joins`, `holders` and `homes` record
history for the theorems; no step reads them.

## Premises

* Atomics are sequentially consistent.
* Generations are unbounded naturals in the protocols. `PackedNotify` and `PackedBarrier` show that the real
  words, which wrap, behave alike until a generation has wrapped around once (2^61 broadcasts, 2^32 rounds).
* Words have 64 bits. The sum in the assertion of `release` is taken without wrap-around.
* A panic ends the call: a blocking caller is idle again, and a future stays where the panic left it.
* A waker stands for what it wakes, one async task, an unpark for a token, an executor for a set of woken tasks.

## Properties that hold only under a condition

* **Semaphore, permits.** `release` adds to the pool first and asserts afterwards, so a release beyond
  `MAX_PERMITS` panics before it drains the queue. `NoStrandedWaiter` covers every schedule in which each release
  passes its assertion, and by `ReleasesPass` that is so whenever at most `MAX_PERMITS` permits exist at once,
  however many are forgotten and added again. The thresholds are about a limit on all schedules, not about one
  schedule: `StrandingThreshold` says that a limit on the permits that exist at once keeps every schedule under it
  from stranding a waiter if and only if it is at most `MAX_PERMITS`. `OneTooMany` is the schedule with one more.
  Permits that do not fit into the 62-bit field are lost: by `ConservationThreshold`, such a limit keeps every
  schedule under it conservative if and only if it is below 2^62.
* **Semaphore, requests.** A future prepares its node for parking before `enqueue_or_acquire` asserts on the
  size of the request. Beyond `MAX_PERMITS` the node is never pushed, and the destructor of the future spins for
  a signal nobody can send. `RequestThreshold`: no waiter is ever lost if and only if no future asks for more
  than `MAX_PERMITS`; blocking calls may. `AsksTooMuch` and `SpinsInDestructor` are the schedules, for every
  larger request, and `LostForever` shows that no continuation ends the wait.
* **Barrier release.** `release_waiters` stops at the first waiter of any other generation, so a leader
  that is late can hide the waiters of the next round from their own leader. `StrandingThreshold` gives the
  exact condition: with at most `b` waits in progress at once, no waiter of a completed round is ever left
  behind if and only if the barrier has one party or `b <= size + 1`. `Strands` builds the failing schedule
  for every size of at least two, and `DoomedForever` shows that no later step frees the waiter.
* **Async wake-up.** After a signaler took the waker, the first re-poll refills the slot, and a second
  re-poll before the publication takes its own waker for an armed one. `WakersOfOneTask` gives the exact
  condition: a signal is never missed if and only if all polls of the future come from one task. `Missed`
  is the failing schedule for any two tasks.

## Model

| member | source | states |
|---|---|---|
| `SemaphoreTheorems.NoStrandedWaiter` | src/semaphore.rs:117-311 | as long as every release passed its assertion, in every reachable state where nobody owes a drain, release or close, a queued waiter means the semaphore is open and the pool holds less than the head still misses, also after cancelled heads |
| `SemaphoreThresholds.StrandingThreshold` | src/semaphore.rs:117-129 | no schedule in which at most `total` permits exist at once strands a waiter if and only if `total <= MAX_PERMITS` |
| `SemaphoreTheorems.ReleasesPass` | src/semaphore.rs:117-129 | with at most MAX_PERMITS permits in existence at once, forgotten ones not counted, every release passes its assertion; below 2^62 every addition fits |
| `SemaphoreThresholds.OneTooMany` | src/semaphore.rs:121-128 | a schedule that issues MAX_PERMITS + 1 permits and leaves a waiter for one permit queued, with nobody left to serve it |
| `SemaphoreTheorems.ClosedLeavesNobody` | src/semaphore.rs:286-311 | however many were issued, once nobody owes a step the queue of a closed semaphore is empty |
| `SemaphoreOutcomes.ClosedRefuses` | src/semaphore.rs:89-108 | no step acquires from the pool of a closed semaphore, neither in `try_acquire` nor in `enqueue_or_acquire` |
| `SemaphoreOutcomes.ClosedForGood` | src/semaphore.rs:286-311 | from a closed state on, in every continuation, the semaphore is closed and nobody acquires from its pool |
| `SemaphoreOutcomes.CloseOutcome` | src/semaphore.rs:286-295 | `close` sets CLOSED and nothing else, and goes on to the queue exactly if it was the first and found HAS_QUEUE |
| `SemaphoreOutcomes.ClosesAtOnce` | src/semaphore.rs:740-742 | the public `close` has closed the semaphore after its first step |
| `SemaphoreTheorems.NoLostWaiter` | src/semaphore.rs:526-604 | a parked waiter is queued, in the chain of the agent that popped it, granted in full, or shut, or else a future that asked for more than MAX_PERMITS; one that spins in its destructor is not queued |
| `SemaphoreThresholds.RequestThreshold` | src/semaphore.rs:228-231 | no schedule whose futures ask for at most `limit` permits loses a waiter if and only if `limit <= MAX_PERMITS` |
| `SemaphoreThresholds.AsksTooMuch` | src/semaphore.rs:491-502 | for every larger request that a word can hold, a schedule that leaves the future with an armed node that is in no queue |
| `SemaphoreThresholds.SpinsInDestructor` | src/semaphore.rs:555-597 | for every larger request that a word can hold, a schedule in which the destructor of the future spins for its signal |
| `SemaphoreThresholds.LostForever` | src/semaphore.rs:590-597 | such a wait is lost in every continuation, and a destructor that spins for it spins on |
| `SemaphoreTheorems.PermitsConserved` | src/semaphore.rs:89-407 | as long as every addition fit the permit field, pool, guards, permits in agents' locals and permits assigned to waiters add up to initial plus added minus forgotten, through partial grants, close, dropped futures and panicking releases |
| `SemaphoreThresholds.ConservationThreshold` | src/semaphore.rs:121-125 | permits are conserved in every schedule in which at most `total` exist at once if and only if `total` fits the 62-bit field |
| `SemaphoreTheorems.SharesBounded` | src/semaphore.rs:974-1022 | every single share of that sum is non-negative and bounded by the permits in existence |
| `SemaphoreTheorems.NoBarging` | src/semaphore.rs:89-108 | an acquisition from the pool, be it of zero permits, succeeds only with nobody queued |
| `SemaphoreOutcomes.TryOutcome` | src/semaphore.rs:89-108 | at any reachable point of `try_acquire` a guard of the requested kind and size is added, and exactly its permits taken, if and only if the weak compare-exchange does not fail, the pool is what was seen, open, unflagged and holds enough; otherwise nothing shared changes, and each refusal takes the branch of its stage |
| `SemaphoreOutcomes.SeenIsReal` | src/semaphore.rs:90-105 | what an agent compares with was the pool at some point since its attempt began |
| `SemaphoreOutcomes.RefusalHasReason` | src/semaphore.rs:752-765 | a `try_acquire` that returns without permits saw, during its call, a pool that was closed, flagged or short |
| `SemaphoreOutcomes.EnqueueOutcome` | src/semaphore.rs:223-282 | under the tag-lock a request is served only with an empty queue and permits enough, leaves only if closed, and otherwise stands at the end of the line missing its whole size |
| `SemaphoreOutcomes.AcquireOutcome` | src/semaphore.rs:338-524 | an acquisition keeps its request until it ends; it completes exactly by the compare-exchange or a grant, then with one guard of its kind and size, and is given up only when refused, closed, dropped or too large |
| `SemaphoreOutcomes.WaitOutcome` | src/semaphore.rs:397-414 | a shut waiter gives back exactly what it was assigned, a dropped one its whole grant; without a signal a waiter stays, or starts to cancel |
| `SemaphoreOutcomes.AcquiresExactly` | src/semaphore.rs:752-765 | on a pool that admits it, `try_acquire` without interference ends with its guard and exactly its permits taken |
| `SemaphoreOutcomes.DropUndoesAcquire` | src/semaphore.rs:1017-1022 | dropping that guard, without interference, restores the state |
| `SemaphoreOutcomes.AcquireAtOnce` | src/semaphore.rs:338-346 | on such a pool `acquire` does what `try_acquire` does |
| `SemaphoreOutcomes.SplitThenMerge` | src/semaphore.rs:983-1006 | splitting makes a guard of exactly `k` permits, and merging the two restores the state |
| `SemaphoreOutcomes.AddsExactly` | src/semaphore.rs:723-728 | without a queue and interference `add_permits` adds exactly `k` |
| `SemaphoreOutcomes.ForgetOutcome` | src/semaphore.rs:315-333 | each step of `forget_permits` books as forgotten what it takes out of the pool: all it was asked for or all there was if the compare-exchange succeeds, and nothing otherwise |
| `SemaphoreOutcomes.ForgetsExactly` | src/semaphore.rs:730-733 | without interference it takes exactly `k`, or all there are |
| `SemaphoreProgress.ComesToRest` | src/semaphore.rs:89-604 | an agent left alone, in any reachable state, returns, finds the tag-lock held, or waits for a signal, within a number of steps given by its position; it rests exactly where it cannot move, and the holder of the tag-lock never does |
| `SemaphoreProgress.StopsOnlyForPermits` | src/semaphore.rs:117-311 | when no agent can move, the tag-lock is free and whoever is not idle stands in line, or is a future with an oversized request; with anybody in line the semaphore is open and, unless a release failed its assertion, short of what the head misses |
| `SemaphoreTheorems.FlagUnderLock` | src/semaphore.rs:232-282 | HAS_QUEUE covers every queued waiter; flag and queue change only in steps of the tag-lock holder |
| `SemaphoreTheorems.GrantedInOrder` | src/semaphore.rs:164-207 | a waiter that enqueued before a granted one was granted earlier, cancelled, or shut |
| `SemaphoreTheorems.OnlyHeadPartial` | src/semaphore.rs:164-193 | behind the head every queued waiter misses its whole request |
| `SemaphoreSteps.StepKeeps` | src/semaphore.rs:89-604 | every atomic step of every agent, panicking ones included, keeps the semaphore invariant |
| `SemaphoreDeal.DealEffect` | src/semaphore.rs:161-193 | the distribution loop on the waiters' nodes does to each node what the drain function says |
| `SemaphoreDeal.DealConserves` | src/semaphore.rs:161-203 | the loop moves permits between local, nodes and leftover without loss |
| `PermitDrain.DrainSplits` | src/semaphore.rs:141-203 | dealing `a` and later `b` permits serves the same waiters, with the same residue and leftover, as dealing `a + b` at once |
| `PermitDrain.DrainConserves` | src/semaphore.rs:141-203 | permits handed out plus leftover are the permits available |
| `PermitDrain.DrainAffords` | src/semaphore.rs:161-193 | the drain serves the longest prefix it can afford, the next waiter takes the rest, and a leftover means an empty queue |
| `PermitDrain.Drain` | src/semaphore.rs:161-203 | a positive leftover implies nobody waits; otherwise the new head misses at least one permit and the others are unchanged |
| `PackedPool.PackInjective` | src/semaphore.rs:24-34 | different pool states have different words |
| `PackedPool.UnpackPack` | src/semaphore.rs:24-34 | unpacking a packed pool state gives it back |
| `PackedPool.ApplyIsExact` | src/semaphore.rs:95-105 | each shift, wrapping add, subtract or mask on the 64-bit word is the intended change of permits modulo 2^62, or of one flag |
| `PackedPool.OpMatchesStep` | src/semaphore.rs:149-207 | every protocol step changes the pool by exactly the word operation it performs |
| `PackedPool.WordIsPacked` | src/semaphore.rs:89-333 | in every schedule, whatever is issued, the machine word is the packed form of the fields before and after every step |
| `PackedPool.WordNeverOverflows` | src/semaphore.rs:121-125 | in every schedule in which at most MAX_PERMITS permits exist at once, the release assertion holds and no addition drops a bit or wraps |
| `RwLock.WriterExcludesEverybody` | src/rwlock.rs:55-265 | a write guard is the only guard, the pool is empty and nobody else carries a permit, through handoff and cancellation |
| `RwLock.ReaderExcludesWriters` | src/rwlock.rs:450-580 | while a read guard exists there is no write guard |
| `RwLock.NeverClosed` | src/rwlock.rs:36-50 | the inner semaphore is never closed, so the branches for a closed one are unreachable |
| `RwLock.TryWriteOutcome` | src/rwlock.rs:67-80 | a writer that tries gets the lock if and only if nobody has a guard, carries a permit, or is in line, and the compare-exchange meets what it saw |
| `RwLock.DowngradeAdmitsNoWriter` | src/rwlock.rs:472-482 | from a downgrade to the drop of the resulting read guard there is no writer, whatever happens in between |
| `MutexProof.OwnershipExclusive` | src/lib.rs:188-198 | guards, handoffs in flight and unobserved signals never exceed one; UNLOCKED exactly when there is none; UNLOCKED or LOCKED never with a queued request |
| `MutexProof.RequestsTracked` | src/lib.rs:409-482 | a parked request is queued behind an owner, being handed the lock, or owns it; a spinning one is not queued |
| `MutexProof.NullNeverTagged` | src/lib.rs:1313-1345 | a releasing guard never takes the unlocked word for a queue |
| `MutexProof.OwnedWordPath` | src/lib.rs:1303-1370 | while ownership lasts the word moves only from LOCKED to UPDATING to one fixed queue address |
| `MutexOrder.HandedInOrder` | src/lib.rs:1303-1370 | a request pushed before one that was handed the lock was handed it earlier, or was cancelled |
| `MutexOrder.NoBarging` | src/lib.rs:188-198 | the lock is taken by a plain compare-exchange only with nobody queued |
| `MutexOutcomes.TryOutcome` | src/lib.rs:188-198 | the compare-exchange of `try_lock` and `lock` takes the lock if and only if nobody owns it; otherwise word, owner and queue stay, `try_lock` returns and `lock` goes on with the word it read |
| `MutexOutcomes.LockOutcome` | src/lib.rs:294-407 | `lock` ends with the lock, exactly on a free lock or an observed signal, or by being dropped, and in no other way |
| `MutexOutcomes.ReleaseOutcome` | src/lib.rs:1303-1370 | ownership ends only in a step of the owner, which frees the lock if nobody is queued and hands it to the first request otherwise |
| `MutexOutcomes.UncontendedRoundTrip` | src/lib.rs:774-803 | on a free lock `lock` or `try_lock` and dropping the guard restore the state |
| `MutexOutcomes.BlockFreed` | src/lib.rs:1349-1369 | the last owner frees the lock, finds its queue empty and returns the block |
| `MutexOutcomes.ComesToRest` | src/lib.rs:294-482 | an agent left alone returns, owns the lock, waits for a signal, or finds the queue tagged; whoever has tagged it never rests |
| `MutexOutcomes.StopsOnlyForOwner` | src/lib.rs:1303-1370 | when no agent can move, whoever waits is queued, and some agent holds a guard; with no guard everybody is idle and the lock is free |
| `MutexProof.StepKeeps` | src/lib.rs:294-375 | every atomic step of every agent keeps the mutex invariant |
| `OnceCellProof.RoleNeverLost` | src/once_cell.rs:73-178 | an EMPTY cell with parked waiters has an owed wake, an unconsumed retry or a contender; a READY one has the completer's drain; RUNNING has its runner; waiters are tracked |
| `OnceCellProof.Agreement` | src/once_cell.rs:282-333 | at most one agent has the role, the slot is written at most once, a completion signal means READY, a getter about to return finds the slot written, and every returned value is the one in the slot |
| `OnceCellProof.GettersAgree` | src/once_cell.rs:225-253 | any two getters of one schedule return the same value |
| `OnceCellProof.SlotStable` | src/once_cell.rs:834-869 | a written slot and READY never change again |
| `OnceCellOutcomes.ValueOrigin` | src/once_cell.rs:225-253 | the value in the slot, and every value returned, is the one the cell was created with, or was stored by an agent that had the role, after its own closure yielded exactly that value or its own `set` offered it |
| `OnceCellOutcomes.ValueKept` | src/once_cell.rs:225-232 | a value yielded, or offered by the winning `set`, is about to be stored or stored, in every continuation |
| `OnceCellOutcomes.CallOutcome` | src/once_cell.rs:235-253 | `get` returns exactly on READY, `set` and `get_or_init` win the role exactly on EMPTY, the initializer's outcome decides what follows, and a returning getter returns what the slot holds |
| `OnceCellOutcomes.GetterEnds` | src/once_cell.rs:270-333 | a getter ends only with the value, with the failure of its own initializer, or dropped |
| `OnceCellOutcomes.ComesToRest` | src/once_cell.rs:62-178 | an agent left alone returns, runs its initializer, finds the lock held, or waits for a signal; the lock holder never rests |
| `OnceCellOutcomes.StopsOnlyForInitializer` | src/once_cell.rs:97-122 | when no agent can move, the cell is RUNNING exactly if some initializer runs, and otherwise nobody is queued and everybody is idle, whatever failed or was dropped |
| `OnceCellProof.PushNodes` | src/once_cell.rs:766-819 | every push, also after a retry, supplies a node without a stale link, although only a new node or a reset has none |
| `NotifyProof.PermitExcludesWaiters` | src/notify.rs:119-231 | a stored permit and a queued waiter never coexist; queued waiters imply HAS_QUEUE; a NULL word implies it clear |
| `NotifyProof.GenerationsOrdered` | src/notify.rs:108-158 | captured generations are ascending and at most the live one; an older waiter has a broadcaster pending |
| `NotifyOutcomes.GenerationCaptured` | src/notify.rs:272-306 | from the call of `wait` until that wait ends, the agent and its node carry exactly the generation that was live at the call |
| `NotifyOutcomes.LookOutcome` | src/notify.rs:77-158 | a look at the word ends the wait if the generation has moved on, takes the permit exactly by a compare-exchange that meets it, and otherwise goes on; it never enqueues for a generation that is over |
| `NotifyOutcomes.WaitEnds` | src/notify.rs:272-306 | a wait ends only because the generation moved on, with a permit or a signal, or dropped |
| `NotifyOutcomes.BroadcastReaches` | src/notify.rs:234-267 | once a broadcast has moved the generation on and no broadcaster is on its way, no wait that began before is queued or about to be |
| `NotifyOutcomes.BroadcastAdvances` | src/notify.rs:234-243 | `notify_waiters` moves the generation on by one and goes on to the queue exactly if HAS_QUEUE is set |
| `NotifyProof.BroadcastExact` | src/notify.rs:234-267 | a broadcast pops exactly the waiters older than the generation it read and leaves exactly those of that generation |
| `NotifyProof.WakeupsConserved` | src/notify.rs:162-231 | every notify_one is in progress, saturated, stored or has popped one waiter; stored permits are consumed once; popped waiters complete, re-deliver, or still have the wake-up before them |
| `NotifyProof.NoWakeupLost` | src/notify.rs:638-667 | once all is quiet, calls equal completed wake-ups plus consumed permits plus saturated calls plus the stored permit, whatever was dropped |
| `NotifyOutcomes.NotifyOneDelivers` | src/notify.rs:162-231 | a `notify_one` ends only with a permit stored or with the front waiter popped |
| `NotifyOutcomes.NotifyStores` | src/notify.rs:162-182 | without a queue and interference `notify_one` stores the permit |
| `NotifyOutcomes.WaitTakesPermit` | src/notify.rs:272-281 | a stored permit ends the next wait and is gone |
| `NotifyOutcomes.ComesToRest` | src/notify.rs:77-267 | an agent left alone returns, finds the lock held, or waits for a signal; the lock holder never rests |
| `NotifyOutcomes.StopsOnlyForNotification` | src/notify.rs:108-267 | when no agent can move, whoever is not idle is queued with the live generation, and then no permit is stored |
| `NotifyProof.WaitersTracked` | src/notify.rs:638-667 | a waiter is queued, in a waker's chain, or signaled; a spinning destructor's node is not queued |
| `PackedNotify.WordIsPacked` | src/notify.rs:36-49 | every step changes the packed 64-bit word, wrapping generation and two flags, as it changes the fields |
| `PackedNotify.PackInjective` | src/notify.rs:36-49 | words are equal exactly when the flags are and the generations agree modulo 2^61 |
| `PackedNotify.CasAgrees` | src/notify.rs:77-97 | before the generation has wrapped, every pending compare-exchange on the word succeeds exactly when the fields are equal |
| `Generations.UntilExact` | src/notify.rs:244-262 | on ascending generations the broadcast loop pops exactly the older ones |
| `Generations.WhilePrefix` | src/barrier.rs:115-133 | the release loop pops the longest prefix of its own generation |
| `BarrierProof.ArrivedExact` | src/barrier.rs:81-106 | the arrived field is the number of agents that joined the forming round and did not withdraw, and is below `n` |
| `BarrierProof.RoundsComplete` | src/barrier.rs:81-106 | every completed round had exactly `n` arrivals net of withdrawals, and one completing agent |
| `BarrierProof.ExactlyOneLeader` | src/barrier.rs:168-197 | for each generation, leaders at work plus leader results returned are one once the round is over and none before |
| `BarrierProof.NoEarlyReturn` | src/barrier.rs:144-164 | every finished wait belongs to a completed round |
| `BarrierProof.WithdrawalSafe` | src/barrier.rs:517-535 | a withdrawal that may succeed finds an arrival to take back |
| `BarrierOutcomes.ArriveOutcome` | src/barrier.rs:81-106 | an arrival is counted exactly if the compare-exchange succeeds, and leads the round if and only if it is the last of the parties |
| `BarrierOutcomes.WaitArrives` | src/barrier.rs:168-175 | without interference a wait is counted in within three steps |
| `BarrierOutcomes.WithdrawOutcome` | src/barrier.rs:517-535 | a dropped wait takes its own arrival back exactly if its round is still forming and the compare-exchange succeeds |
| `BarrierOutcomes.WaitOutcome` | src/barrier.rs:168-197 | a counted wait stays in its round until it returns, after completion, with exactly one result, of that round and with the leader flag exactly for its leader; only a dropped one ends without |
| `BarrierOutcomes.DroppedSilently` | src/barrier.rs:506-558 | a dropped wait returns no result |
| `BarrierOutcomes.ComesToRest` | src/barrier.rs:81-197 | an agent left alone returns, finds the lock held, or waits for a signal; the lock holder never rests |
| `PackedBarrier.WordIsPacked` | src/barrier.rs:81-106 | with `n` in half a word, a successful arrival or withdrawal stores the packed form of the next fields without carry or borrow, and a zero low half tells exactly the leader |
| `PackedBarrier.PackInjective` | src/barrier.rs:31-38 | words are equal exactly when the arrivals are and the generations agree modulo 2^32 |
| `PackedBarrier.CasAgrees` | src/barrier.rs:517-535 | before the generation has wrapped, every pending compare-exchange on the word succeeds exactly when the fields are equal |
| `BarrierRelease.ReleaseStep` | src/barrier.rs:109-164 | with at most `n + 1` waits in progress, every step keeps: older waiters have a leader pending and no leader's waiters are hidden behind older ones |
| `BarrierRelease.NoOlderWaiter` | src/barrier.rs:81-106 | under that bound the completing arrival finds no waiter of an older round, by counting |
| `BarrierStranding.NobodyLeftBehind` | src/barrier.rs:517-558 | under that bound, with no leader at work, every waiter that is not signaled waits for the forming round, also when withdrawals race with completion |
| `BarrierOutcomes.StopsOnlyForArrivals` | src/barrier.rs:109-164 | under that bound, when no agent can move, whoever is not idle is queued for the forming round, and that round is not complete |
| `BarrierStranding.DoomedForever` | src/barrier.rs:121-125 | a waiter of a completed round without a leader stays queued in every continuation |
| `BarrierWitness.Strands` | src/barrier.rs:121-125 | for every `n >= 2` there is a schedule with `n + 2` waits in progress that strands a waiter for good |
| `BarrierWitness.StrandingThreshold` | src/barrier.rs:109-164 | no schedule with at most `b` waits in progress strands a waiter if and only if `size <= 1` or `b <= size + 1` |
| `TagLockProof.OneHolder` | src/wait_queue.rs:79-160 | each word has at most one lock holder, whatever stale values others compare with |
| `TagLockProof.PublishedNotEmpty` | src/wait_queue.rs:196-207 | an unlocked wait-queue word is NULL or points to a block with a waiter; otherwise it has a holder |
| `TagLockProof.OnePlacePerBlock` | xutex-pool/src/lib.rs:303-330 | each block is in the pool, in exactly one word, or known to exactly one agent, and empty in the pool, over any number of wait queues and mutexes |
| `TagLockProof.Refines` | src/wait_queue.rs:79-207 | every step, on this or any other word, moves a wait-queue word as the abstract word does: nothing, take a free word, the holder setting its queue, release to NULL exactly when empty; recycled blocks bring nothing along |
| `TagLockProof.LockOutcome` | src/wait_queue.rs:79-160 | a round of `lock` without allocation gives up exactly on an abstract NULL word, so with nobody queued, and takes only a published one; with allocation it takes either and never gives up |
| `TagLockProof.ViewFits` | src/wait_queue.rs:190-207 | the abstract NULL has no waiter and the abstract published word has one, across recycling |
| `TagLockProof.AllocOutcome` | xutex-pool/src/lib.rs:303-330 | allocation yields an empty block nobody else has: a pooled one, which leaves the pool, or a new one exactly when the pool is empty |
| `TagLockProof.HolderOutcome` | src/wait_queue.rs:185-207 | a holder sets exactly its own queue; its release clears or publishes exactly its own word and returns a cleared block |
| `TagLockProof.MutexWordOutcome` | src/lib.rs:294-345 | a mutex word is locked if free, given a queue if locked, tagged if it has one, each only if it still is what was read, and otherwise stays |
| `TagLockProof.StepKeeps` | src/lib.rs:1349-1369 | every step on wait-queue and mutex words keeps holder, home and emptiness invariants |
| `ParkHandoff.NeverSleepsThrough` | src/wait_queue.rs:335-362 | once the signaler is done a blocking waiter has returned, sees the signal in its next access, or is parked with its token set |
| `ParkHandoff.NodeLeftAlone` | src/wait_queue.rs:335-362 | no blocking waiter returns before the signaler's last access to its node |
| `ParkHandoff.WaiterOutcome` | src/lib.rs:659-772 | a look, swap or check returns exactly if the signal has been published, and a park returns with the token, which it uses up, or for no reason |
| `ParkHandoff.SignalerNeverWaits` | src/wait_queue.rs:335-362 | the signaler is done after three steps of its own, wherever the waiter is |
| `WakeHandoff.NodeLeftAlone` | src/wait_queue.rs:335-393 | a completed or dropped future's node is not touched again, and the waker slot has one user at a time |
| `WakeHandoff.SignalIsSeen` | src/wait_queue.rs:364-393 | a look at the node ends a poll, or the wait of a drop, exactly if the signal has been published |
| `WakeHandoff.DropAwaitsSignal` | src/semaphore.rs:555-604 | a future dropped between polls stays until the signal has been published, and no longer |
| `WakeHandoff.NoDeadlock` | src/wait_queue.rs:335-393 | when neither side moves by itself, the signaler is done and no poll or drop is under way |
| `WakeHandoff.WakersOfOneTask` | src/wait_queue.rs:364-393 | a published signal never leaves the last poller without a wake-up if and only if all polls come from one task |
| `WakeHandoff.Missed` | src/waker.rs:148-163 | for any two tasks there is a schedule in which the last poller is not woken |
| `WakeHandoff.DynamicWaker.Register` | src/waker.rs:84-97 | one round of the spin: if the lock was free, the slot wakes the given task, is unlocked, and it is reported whether it was empty; if not, nothing changes |
| `WakeHandoff.DynamicWaker.RegisterUnsync` | src/waker.rs:112-120 | the same without the slot lock |
| `WakeHandoff.DynamicWaker.Take` | src/waker.rs:125-141 | one round of the spin: if the lock was free, hands out what was stored and leaves the slot empty and unlocked; if not, nothing changes |
| `SignalQueues.SignalQueue.Push` | xutex-pool/src/lib.rs:116-132 | the queue's sequence grows by the entry; reports whether it was empty |
| `SignalQueues.SignalQueue.First` | xutex-pool/src/lib.rs:136-138 | the front of the sequence, if any |
| `SignalQueues.SignalQueue.IsEmpty` | xutex-pool/src/lib.rs:142-144 | true exactly for the empty sequence |
| `SignalQueues.SignalQueue.Pop` | xutex-pool/src/lib.rs:153-171 | takes the front off the sequence |
| `SignalQueues.SignalQueue.Remove` | xutex-pool/src/lib.rs:180-204 | cuts exactly the entry out of the sequence, or changes nothing if it is absent |
| `SignalQueues.Requeue` | src/once_cell.rs:774-805 | a popped node, reset, can be pushed again and stands at the back |
| `SignalQueues.Signal.Reset` | src/lib.rs:99-104 | readies a popped node for another push |
| `SignalQueues.PoppedChain.Append` | src/wait_queue.rs:289-296 | the chain grows by the node just popped |
| `SignalQueues.PoppedChain.Seal` | src/wait_queue.rs:298-310 | the chain ends at its last node; only that node is written |
| `SignalQueues.PoppedChain.SignalAll` | src/wait_queue.rs:312-322 | visits exactly the popped nodes, once each, in pop order, although a signaled node may change at once |
| `PoppingLoops.Distribute` | src/semaphore.rs:161-194 | the heap loop pops, tops up and leaves what the drain function says |
| `PoppingLoops.PopUntil` | src/notify.rs:244-263 | the heap loop pops the prefix the broadcast function says, and seals it |
| `PoppingLoops.PopWhile` | src/barrier.rs:114-135 | the heap loop pops the prefix the release function says, and seals it |
| `WaitNodes.PopSound` | src/wait_queue.rs:267-322 | popping any prefix keeps queue, hands and node places consistent |
| `WaitNodes.RemoveSound` | src/notify.rs:640-653 | so does removing one's own node |
| `WaitNodes.SignalSound` | src/wait_queue.rs:335-362 | so does publishing the next signal, and only the popper of a node signals it |

## Left out

- Weak-memory orderings, loom shims and back-off: atomics are sequentially consistent and a spin is a step that changes nothing.
- Progress under fair scheduling, and starvation: progress is stated for agents left alone and for states in which nobody can move.
- Which of its two errors a refused acquisition reports, and what a `bool` or `Option` result is wrapped in.
- What happens after a generation has wrapped around: a compare-exchange may then succeed on a word that is a whole cycle old.
- Low-bit arithmetic of tagged addresses: the constructors of the word types stand for disjoint address patterns (null, the two sentinels at the top of the address space, aligned addresses, aligned addresses plus one).
- Pool initialization, its pre-fill and the internals of the foreign queue: the pool is a set of empty blocks, and a new block is made when it is empty.
- Protected user data, `take`, `into_inner` and `get_mut`, conversions between sync and async forms, and leaked futures.
- User closures beyond yielding a value, failing, or being abandoned.
- SignalQueues.SignalNode: publishes the value only; the waker and park sides are in `ParkHandoff` and `WakeHandoff`.
- A build without overflow checks, where the sum in the assertion of `release` can wrap for additions close to 2^64.
- TagLock models mutex words with more freedom than `Mutex` does: any holder that finds an empty queue may release it, so its theorems cover the real mutex.
