# Verified model of the TaskflowLite runtime

TaskflowLite is a header-only work-stealing scheduler for C++. Its correctness rests on a few small concurrent
protocols that fit together. This project models them in Dafny and proves what they promise, for every number of
threads and every interleaving.

How it is built:

- Each protocol is a state machine over single atomic actions: one load, store, exchange or fetch-and-modify per step,
  with a program counter per thread. A weak exchange may fail for no reason at any time. `Enabled` says where a thread
  must be for an action, `Defined` what the code takes for granted there (its assertions, live pointers, counters that
  do not underflow), `Apply` the state afterwards. The `...Theorems` modules prove an inductive invariant, that every
  enabled action of a reachable state is defined, and the main results about all runs.
- Beside each machine stands a class with the code's own fields, in the code's own representation (the notifier's
  64-bit word, the tagged head, the ring buffer, the lock bit in the count, the split edge table), updated in place.
  Each of its methods is one atomic action or one loop of the code; its contract says that the new state is the
  machine's `Apply` of the old one, so the theorems hold of the packed representation, and says in the caller's terms
  when it succeeds and what it returns.
- Besides what never goes wrong, each part proves what does happen: what a call delivers before it is over, exactly when
  it refuses or comes back empty, that its own actions bring its end nearer, and what it waits for, if anything.
- The sequential parts (graph set-up, the scans of the tear-downs, the batch distribution, the wide multiplication,
  the small vector) are methods with loops over arrays, specified by functions and lemmas.

| part | modules |
|---|---|
| event count (two-phase sleep and wake-up) | NotifierProtocol, NotifierInvariant, NotifierTheorems, NotifierQuota, NotifierProgress, NotifierWord, NotifierObject |
| the worker's sleep loop and the shutdown, on top of the event count | Scheduler, SchedulerTheorems, SchedulerRounds |
| bounded work-stealing deque, and what its empty() tells | BoundedQueueProtocol, BoundedQueueTheorems, BoundedQueueObserver, BoundedQueueObject |
| shared stack with the lock bit in its count | SharedWorkStackProtocol, SharedWorkStackTheorems, SharedWorkStackObject |
| dynamic dependencies and lifetime of async tasks | AsyncProtocol, AsyncInvariant, AsyncTheorems, AsyncStarts, AsyncReferences, AsyncTasksObject |
| control word, stop requests, handles | TopologyWord, TopologyObject, AsyncHandle |
| children of running tasks, suspended parents, waiting | RuntimeProtocol, RuntimeTheorems, RuntimeLife, RuntimeObject |
| graph runs: set-up, join counters, branches and jumps, parent slots, exceptions | GraphProtocol, GraphSlots, GraphDag, GraphArrivals, GraphFailures, GraphTables, BranchSelection |
| distribution of a batch over the shared stacks | PushShared |
| tagged free stack with slab refill | ObjectPoolProtocol, ObjectPoolTheorems, ObjectPoolBlocks, ObjectPoolWrap, TaggedHead, ObjectPoolObject |
| high word of a product, ranges | Random |
| small vector | SmallVectorBuffer, SmallVectorObject |

Some properties hold only under a condition, and the condition is exact. The notifier's sign test agrees with the
unbounded order of tickets if and only if the lag lies in the range of 32-bit serial numbers (`TestAgreesIff`; a waiter
2^31 epochs late is misjudged, `LateWaiterMisjudged`). Two packed words within 2^32 epochs are equal only if their
fields are, and one epoch further that is no longer so (`SameWordInWindow`, `WindowIsTight`). A pop of the object pool
keeps the free stack intact if and only if its exchange fails or installs the top block's present successor
(`PopKeepsIff`); within one turn of the tag that is always so, and a run in which one turn passes shows what happens
otherwise (`WindowIsHarmless`, `WrapBreaksPop`). References may be added or dropped without touching other fields
exactly while the count is below its maximum, or above zero (`AddRefIsLocal`, `SubRefIsLocal`); the code asserts both.
The deque's `empty()` is not an exact test: it can answer "empty" while there is an element at every moment
(`PopHides`, `PushAndStealHide`). What it does guarantee (`EmptyMeansGoneOrReserved`) is what the scheduler's recheck is
proved with, and enough.

Operations of the small vector that may throw are numbered: of a call's allocations, constructions and assignments the
first `calm` go well and the next one throws. Every method says exactly how many it needs, so it succeeds if and only if
none of them throws.

Premises. Memory is sequentially consistent. Edge lists, the strong-predecessor count and the release of stored
predecessors on destruction are taken as `work.hpp` defines them. The address hash that picks the first shared stack is
a parameter of the distribution. At most 65534 workers use one notifier, as its constructor asserts.

Where comments and code differ, the model follows the code. The comments at `runtime.hpp:315-316`, `runtime.hpp:325-326`
and `executor.hpp:566-567` promise that a counted slot or topology is taken back if publishing throws; the functions
have no such path (two of them are `noexcept`), and the model has none.

## Model

| member | source | states |
|---|---|---|
| NotifierTheorems.RunInv | taskflowlite/core/notifier.hpp:284-544 | Every state of every run, with any number of waiting and notifying threads and any interleaving of single atomic actions (weak exchanges may fail for no reason), satisfies the protocol invariant. |
| NotifierTheorems.TicketsHeldOneToOne | taskflowlite/core/notifier.hpp:284-399 | The tickets in [epoch, epoch + prewaiters) are held one-to-one by threads inside the protocol; any other ticket still held was consumed by a notify. |
| NotifierTheorems.PreparesAreCounted | taskflowlite/core/notifier.hpp:284-294 | In every run epoch + prewaiters equals the number of prepare_wait calls made so far. |
| NotifierTheorems.SettledAppendOnly | taskflowlite/core/notifier.hpp:302-544 | A consumed ticket stays consumed, by the same party. |
| NotifierTheorems.OvertakenMeansNotified | taskflowlite/core/notifier.hpp:325-329 | Leaving commit_wait or cancel_wait by the overtaken branch happens only if a notify consumed the caller's ticket. |
| NotifierTheorems.TurnHolderCanAlwaysSettle | taskflowlite/core/notifier.hpp:316-351 | Whenever somebody is counted, the holder of the current ticket can settle it within four actions of its own, wherever it stands. |
| NotifierTheorems.PopInstallsTrueSuccessor | taskflowlite/core/notifier.hpp:430-452 | No ABA: a pop's exchange succeeds only if the link read earlier is, now, the true successor of the top. |
| NotifierTheorems.StackHoldsTheCommitted | taskflowlite/core/notifier.hpp:334-350 | The chain from the top is null-terminated, free of repetition, and holds exactly the waiters pushed and neither popped nor detached. |
| NotifierTheorems.HandsAreDisjoint | taskflowlite/core/notifier.hpp:432-451 | No waiter is in the hands of two notifiers, or in one's hands and on the stack. |
| NotifierTheorems.SignalledExactlyOnce | taskflowlite/core/notifier.hpp:586-611 | Between a push and the matching return from _park the waiter is signalled exactly once. |
| NotifierTheorems.ParkedUntilSignalled | taskflowlite/core/notifier.hpp:586-594 | A blocked waiter may leave _park exactly if its latest push has been answered; until then it is on the stack or in some notifier's hands. |
| NotifierTheorems.QuiescentWordIsClean | taskflowlite/core/notifier.hpp:263-265 | Once every thread has left, no prewaiter is counted and the stack is empty, as the destructor asserts; pushes, signals and releases agree for every waiter. |
| NotifierTheorems.BlockedOnlyByPrepare | taskflowlite/core/notifier.hpp:284-294 | Only its own prepare_wait makes a waiter blocked. |
| NotifierTheorems.NoWaitersIffNobodyBlocked | taskflowlite/core/notifier.hpp:417-421 | The word shows an empty stack and no prewaiter exactly if nobody is blocked. |
| NotifierTheorems.ConsumeUnblocks | taskflowlite/core/notifier.hpp:423-452 | A notify that takes effect unblocks a waiter that was blocked. |
| NotifierTheorems.NotifyAllUnblocksAll | taskflowlite/core/notifier.hpp:470-477 | After notify_all's exchange nobody is blocked. |
| NotifierTheorems.NotifyEndsEffective | taskflowlite/core/notifier.hpp:411-455 | A notify call ends only after it consumed somebody or loaded a word that showed no waiter. |
| NotifierQuota.NeverServesMore | taskflowlite/core/notifier.hpp:402-456 | In every run a call for n waiters has unblocked at most n at any moment, and while it goes on, what it has left and what it has unblocked are n together. |
| NotifierQuota.NotifyDelivers | taskflowlite/core/notifier.hpp:402-544 | In every run a notify_one, notify_n or notify_all call that is over has unblocked as many as it was asked for, or at some moment since it began nobody was blocked. |
| NotifierQuota.SpendsWhatItServes | taskflowlite/core/notifier.hpp:505-541 | What a step of a call unblocks is taken off what the call has left, one for one. |
| NotifierQuota.UnblockedCount | taskflowlite/core/notifier.hpp:505-541 | The number of waiters a step unblocks is the number by which prewaiters and stack together shrink, and nobody becomes blocked by it. |
| NotifierProgress.WaiterNearer | taskflowlite/core/notifier.hpp:296-399 | Every action of a waiter's own brings its commit_wait or cancel_wait nearer to the end, unless it finds that its turn is still to come or its exchange fails. |
| NotifierProgress.WaiterCanMove | taskflowlite/core/notifier.hpp:296-399 | A waiter inside the protocol has an enabled action of its own, unless it is blocked and not signalled. |
| NotifierProgress.OvertakenLeaves | taskflowlite/core/notifier.hpp:325-329 | A waiter that sees its ticket consumed leaves at once, without touching word, queue or stack. |
| NotifierProgress.NotifierNearer | taskflowlite/core/notifier.hpp:402-611 | Every action of a notify call brings it nearer to its end, unless its exchange fails; it ends after a bounded number of successful ones. |
| NotifierProgress.NotifierCanMove | taskflowlite/core/notifier.hpp:402-611 | A notify call that is not over always has an enabled action of its own: it never waits for anybody. |
| NotifierInvariant.StepInv | taskflowlite/core/notifier.hpp:284-611 | Every action keeps the invariant and is defined. |
| NotifierInvariant.AlwaysDefined | taskflowlite/core/notifier.hpp:331-388 | The assertions that a prewaiter is counted never fail and node indices are always in range. |
| NotifierInvariant.SameWordSameStack | taskflowlite/core/notifier.hpp:346-350 | If a snapshot's word equals the current word, the stack is unchanged since the snapshot: the core of the ABA argument. |
| NotifierWord.PackFields | taskflowlite/core/notifier.hpp:209-222 | The fields read from the packed word are the epoch modulo 2^32, the prewaiter count and the top. |
| NotifierWord.SameWordIff | taskflowlite/core/notifier.hpp:209-222 | Two packed words are equal exactly if top and prewaiters agree and the epochs agree modulo 2^32. |
| NotifierWord.SameWordInWindow | taskflowlite/core/notifier.hpp:346-350 | Within fewer than 2^32 epochs comparing words is comparing unbounded fields. |
| NotifierWord.WindowIsTight | taskflowlite/core/notifier.hpp:209-222 | After exactly 2^32 epochs the words are equal although the epochs are not. |
| NotifierWord.AddPrewaiter | taskflowlite/core/notifier.hpp:284-289 | The 64-bit addition of one prewaiter changes that field only. |
| NotifierWord.ConsumeWord | taskflowlite/core/notifier.hpp:516-521 | The 64-bit arithmetic that consumes n prewaiters advances the epoch by n and carries into no other field. |
| NotifierWord.PushWord | taskflowlite/core/notifier.hpp:334-336 | The settling word of commit_wait is one prewaiter less, one epoch more and the caller on top. |
| NotifierWord.PopWord | taskflowlite/core/notifier.hpp:430-440 | Masking the epoch and or-ing in the next index replaces the top alone when no prewaiter is counted. |
| NotifierWord.AllWord | taskflowlite/core/notifier.hpp:470-474 | notify_all's word consumes every prewaiter and empties the stack. |
| NotifierWord.TargetIsTicket | taskflowlite/core/notifier.hpp:308-310 | The target computed from a prepare's snapshot is the thread's ticket, modulo 2^32. |
| NotifierWord.AheadIsSerialDifference | taskflowlite/core/notifier.hpp:316-319 | The sign test computes the 32-bit serial-number difference of section 3.2 of RFC 1982. |
| NotifierWord.TestAgreesIff | taskflowlite/core/notifier.hpp:316-329 | The test agrees with the unbounded order of epoch and ticket exactly on the stated range of lags. |
| NotifierWord.SmallLagInRange | taskflowlite/core/notifier.hpp:316-329 | Every lag from -2^31 up to, but not including, 2^31 is in that range. |
| NotifierWord.LateWaiterMisjudged | taskflowlite/core/notifier.hpp:316-329 | At a lag of exactly 2^31 an overtaken waiter is told that its turn is still to come. |
| NotifierObject.AlwaysFits | taskflowlite/core/notifier.hpp:253-258 | Every reachable word fits its fields when there are fewer than 65535 waiters. |
| NotifierObject.NeverFarAhead | taskflowlite/core/notifier.hpp:316-319 | A waiter whose turn is still to come is fewer than 2^16 tickets behind the epoch it sees, so the test is always right about it. |
| NotifierObject.Notifier.constructor | taskflowlite/core/notifier.hpp:253-258 | A new notifier has epoch 0, no prewaiter and an empty stack. |
| NotifierObject.Notifier.PrepareWait | taskflowlite/core/notifier.hpp:284-294 | One wrapping 64-bit addition performs the protocol's prepare and keeps its snapshot. |
| NotifierObject.Notifier.AddPrewaiterNeverCarries | taskflowlite/core/notifier.hpp:284-289 | There is always room for one more prewaiter in the 16-bit field. |
| NotifierObject.Notifier.CommitStart | taskflowlite/core/notifier.hpp:303-310 | Resets the park state of the caller and nothing else. |
| NotifierObject.Notifier.CommitLoadState | taskflowlite/core/notifier.hpp:312-314 | The loaded word is the packed form of the protocol's snapshot. |
| NotifierObject.Notifier.CommitTurn | taskflowlite/core/notifier.hpp:316-344 | One turn of the loop on packed words takes exactly the branch of the unbounded protocol: too early, overtaken, or linked in front of the old top. |
| NotifierObject.Notifier.CommitExchange | taskflowlite/core/notifier.hpp:346-350 | The exchange pushes the caller exactly on an unchanged word, as the protocol does; on failure the word seen is returned. |
| NotifierObject.Notifier.ParkEnter | taskflowlite/core/notifier.hpp:586-594 | _park blocks exactly a caller that has not been signalled. |
| NotifierObject.Notifier.ParkLeave | taskflowlite/core/notifier.hpp:586-594 | A caller whose park state is no longer Waiting returns from _park. |
| NotifierObject.Notifier.CancelLoadState | taskflowlite/core/notifier.hpp:362-370 | cancel_wait's load, as a protocol action. |
| NotifierObject.Notifier.CancelTurn | taskflowlite/core/notifier.hpp:372-398 | One turn of cancel_wait waits, returns without touching the count, or settles the caller's ticket, as the unbounded order says. |
| NotifierObject.Notifier.TestIsRight | taskflowlite/core/notifier.hpp:316-329 | On the class's own words, the sign of the packed difference is that of the tickets, provided an overtaken waiter looks in time. |
| NotifierObject.Notifier.CancelExchange | taskflowlite/core/notifier.hpp:392-397 | The exchange that settles the caller's ticket without a push, exactly when the protocol does. |
| NotifierObject.Notifier.NotifyLoadState | taskflowlite/core/notifier.hpp:411-415 | A notify's first load, as a protocol action. |
| NotifierObject.Notifier.NotifyRound | taskflowlite/core/notifier.hpp:417-440 | One round of notify_one or notify_n takes the branch of the protocol: nobody, prewaiters first, else the top's link is read; a round that serves lowers the number of blocked waiters by exactly what it takes off n, and the call goes on with exactly the rest. |
| NotifierObject.Notifier.FastExchange | taskflowlite/core/notifier.hpp:516-541 | The exchange succeeds exactly on an unchanged word; it then unblocks min(n, prewaiters) waiters and leaves n less that many to be served, with the call over exactly if that is 0. |
| NotifierObject.Notifier.PopExchange | taskflowlite/core/notifier.hpp:523-541 | The exchange pops the top exactly on an unchanged word, and then unblocks that one waiter. |
| NotifierObject.Notifier.NotifyAllRound | taskflowlite/core/notifier.hpp:461-477 | One round of notify_all. |
| NotifierObject.Notifier.AllExchange | taskflowlite/core/notifier.hpp:470-485 | The exchange succeeds exactly on an unchanged word, and then consumes every prewaiter and detaches the chain. |
| NotifierObject.Notifier.Unlink | taskflowlite/core/notifier.hpp:448-449 | Clears the popped node's link and no other. |
| NotifierObject.Notifier.UnparkNext | taskflowlite/core/notifier.hpp:600-611 | The next sleeper is read before the current one is signalled. |
| NotifierObject.Notifier.UnparkExchange | taskflowlite/core/notifier.hpp:600-611 | Signals the node once; a wake-up is due exactly if it was blocked. |
| SchedulerTheorems.StepInv | taskflowlite/core/executor.hpp:1238-1314 | Every step of workers, publishers and the shutdown keeps the scheduler's invariant, for looks at queues that begin and end at different moments and may report work where there is none; each notifier action inside is one of the event count's own. |
| SchedulerTheorems.RunInv | taskflowlite/core/executor.hpp:1200-1314 | Every state of every run of any number of workers, shared queues and publishers satisfies it. |
| SchedulerTheorems.EndLookAction | taskflowlite/core/executor.hpp:1283-1305 | Passing a queue is safe whenever each item that was there when the look began is gone or reserved by its owner's pop, whatever was pushed since; reporting work is always safe. |
| SchedulerTheorems.SomebodyFinds | taskflowlite/core/executor.hpp:1238-1314 | For an item whose notify is not owed, the worker that was not asleep at that notify, or the owner whose pop has reserved the item, is not asleep for good, and before a shutdown will find it. |
| SchedulerTheorems.NoLostWakeup | taskflowlite/core/executor.hpp:1277-1313 | Until a shutdown begins: while an item is in some queue and no publisher still owes its notify, some worker runs, explores, is no longer counted as a sleeper, or will find the item in the look it is in or in one still to come. |
| SchedulerTheorems.ReturnedNotifyIsHeard | taskflowlite/core/executor.hpp:1887-1918 | When a publisher's notify call returns, it owes nothing any more. |
| SchedulerTheorems.AllAsleepMeansNothingToDo | taskflowlite/core/executor.hpp:1238-1314 | If every worker sleeps, every queued item's notify is still under way. |
| SchedulerTheorems.ShutdownLeavesNobodyAsleep | taskflowlite/core/executor.hpp:1179-1194 | Once the shutdown's notify_all has taken effect no worker sleeps, so every thread can be joined. |
| SchedulerRounds.CommitsAfterFullRound | taskflowlite/core/executor.hpp:1277-1313 | In every run a worker that has committed to sleep has, since its latest prepare_wait, looked at every queue but its own, each once and in order, and passed it. |
| SchedulerRounds.RoundGoesOn | taskflowlite/core/executor.hpp:1283-1313 | A worker in its round goes on from queue to queue, skipping only its own; it cancels exactly after a look that found work, and at the end of the round commits, or, exactly if the terminate flag is up, leaves. |
| SchedulerRounds.RoundCanGoOn | taskflowlite/core/executor.hpp:1283-1313 | A worker in its round can always go on, and can pass a queue that is empty. |
| SchedulerRounds.WorkerGoesOn | taskflowlite/core/executor.hpp:1217-1275 | Outside its round a worker leaves its own queue only when that is empty, begins a round from exploring, comes back from a wait to explore, or after the terminate flag to stop, and stops only under that flag. |
| SchedulerRounds.TerminatesIffShutdown | taskflowlite/core/executor.hpp:1179-1194 | In every run the terminate flag is up exactly if a shutdown has begun, and there is at most one. |
| SchedulerRounds.ClaimedOnce | taskflowlite/core/executor.hpp:1217-1275 | In every run an item is in a queue exactly if it was published to it and has not been claimed since; it is published at most once and claimed at most once. |
| SchedulerRounds.ReservedIsHistory | taskflowlite/core/bounded_queue.hpp:248-270 | In every run an owner's reserved item is the one its pop reserved last and nobody has taken since. |
| SchedulerRounds.OwedIsHistory | taskflowlite/core/executor.hpp:1887-1918 | In every run what a publisher owes is what it has published since its latest notify took effect. |
| SchedulerRounds.DrainedIsHistory | taskflowlite/core/executor.hpp:1179-1194 | In every run the shutdown counts as heard exactly if one of its publisher's notify calls has taken effect since it began. |
| SchedulerRounds.ShutdownWakesEverybody | taskflowlite/core/executor.hpp:1179-1194 | In every run, once a notify of the shutdown's has taken effect nobody ever sleeps for good again. |
| SchedulerRounds.NotifierFollows | taskflowlite/core/executor.hpp:1277-1313 | Every run of the scheduler is, on the notifier's side, a run of the notifier's own machine. |
| BoundedQueueObserver.WatchRun | taskflowlite/core/bounded_queue.hpp:173-177 | Every state of every run of owner, thieves and observers that are between the two loads of empty() accounts for every element that was there at the first load. |
| BoundedQueueObserver.EmptyMeansGoneOrReserved | taskflowlite/core/bounded_queue.hpp:173-177 | An answer "empty" means that every element present at the first load has been popped or stolen since, but for at most one, which is then the whole deque and reserved by a pop still undecided. |
| BoundedQueueObserver.NotEmptyMeansThereWasOne | taskflowlite/core/bounded_queue.hpp:173-177 | An answer "not empty" means that there was an element at the first load. |
| BoundedQueueObserver.EmptyLetsPass | taskflowlite/core/executor.hpp:1291-1305 | If no pointer is pushed twice, after an answer "empty" only the reserved element can be both present at the first load and present now: the scheduler's condition for passing the queue. |
| BoundedQueueObserver.ReservedUntilTaken | taskflowlite/core/bounded_queue.hpp:248-270 | A reserved element stays reserved until the owner or a thief takes it; a pop never puts it back. |
| BoundedQueueObserver.PopHides | taskflowlite/core/bounded_queue.hpp:173-177 | A run in which a pop under way hides the only element from empty(). |
| BoundedQueueObserver.PushAndStealHide | taskflowlite/core/bounded_queue.hpp:173-177 | A run without pops in which empty() answers "empty" although the deque has held an element at every moment since the first load. |
| BoundedQueueTheorems.AlwaysDefined | taskflowlite/core/bounded_queue.hpp:188-292 | Every slot that an owner reads holds a pointer and the deque never shrinks below empty. |
| BoundedQueueTheorems.StepInv | taskflowlite/core/bounded_queue.hpp:188-292 | Every atomic action of the owner and of any number of thieves keeps the invariant on top, bottom, ring and operations under way. |
| BoundedQueueTheorems.RunInv | taskflowlite/core/bounded_queue.hpp:188-292 | Every state of every run satisfies it. |
| BoundedQueueTheorems.RefinesSequentialDeque | taskflowlite/core/bounded_queue.hpp:188-292 | Every action is one operation of a sequential deque, push back, pop back or pop front, or none. |
| BoundedQueueTheorems.PopReturnsWhatItRemoved | taskflowlite/core/bounded_queue.hpp:248-270 | A pop that returns a pointer returns the one it removed from the back. |
| BoundedQueueTheorems.NullPopMeansEmpty | taskflowlite/core/bounded_queue.hpp:253-269 | A pop decides to return null only at a moment when the deque is empty. |
| BoundedQueueTheorems.StealGivesUpIff | taskflowlite/core/bounded_queue.hpp:281-283 | A thief whose top is still current gives up at its load of bottom exactly if the deque is empty or its only element is reserved by a pop that is still undecided. |
| BoundedQueueTheorems.StealFailsIff | taskflowlite/core/bounded_queue.hpp:286-291 | A thief's exchange fails exactly if top has moved since its load. |
| BoundedQueueTheorems.FrontWasTaken | taskflowlite/core/bounded_queue.hpp:278-292 | If top has moved since a thief's load, somebody took an element from the front in between. |
| BoundedQueueTheorems.StealReturnsFront | taskflowlite/core/bounded_queue.hpp:278-292 | A steal that succeeds returns the front element, whatever became of the ring slot since it was read. |
| BoundedQueueTheorems.OwnerGoesOn | taskflowlite/core/bounded_queue.hpp:213-270 | Every action of a push or pop brings it nearer to its end, also when it loses a race: a pop takes at most five actions, a push two more than it stores values. |
| BoundedQueueTheorems.ThiefGoesOn | taskflowlite/core/bounded_queue.hpp:277-292 | Every action of a steal brings it nearer to its end: it takes at most four. |
| BoundedQueueTheorems.OwnerCanGoOn | taskflowlite/core/bounded_queue.hpp:213-270 | The owner never waits: inside an operation it always has an enabled action. |
| BoundedQueueTheorems.ThiefCanGoOn | taskflowlite/core/bounded_queue.hpp:277-292 | Nor does a thief. |
| BoundedQueueTheorems.PushTakesWhatFits | taskflowlite/core/bounded_queue.hpp:221-239 | A push that finds d elements enqueues min(n, cap - d) values and never more than fit, however thieves act. |
| BoundedQueueTheorems.NothingReturnedTwice | taskflowlite/core/bounded_queue.hpp:188-292 | In every run, popped + stolen + present = pushed, for every value. |
| BoundedQueueObject.BoundedQueue.constructor | taskflowlite/core/bounded_queue.hpp:188-201 | A new deque is empty. |
| BoundedQueueObject.BoundedQueue.PushBegin | taskflowlite/core/bounded_queue.hpp:221-225 | Loads both indices and decides how many values fit. |
| BoundedQueueObject.BoundedQueue.PushStore | taskflowlite/core/bounded_queue.hpp:228-232 | Stores one value into its ring slot; nothing becomes visible. |
| BoundedQueueObject.BoundedQueue.PushPublishAll | taskflowlite/core/bounded_queue.hpp:234-234 | One store of bottom makes the whole prefix visible. |
| BoundedQueueObject.BoundedQueue.Push | taskflowlite/core/bounded_queue.hpp:213-240 | Without thieves in between: exactly the prefix that fits is appended in order and exactly the remaining suffix overflows. |
| BoundedQueueObject.BoundedQueue.EmptyLoadBottom | taskflowlite/core/bounded_queue.hpp:175-175 | The first load of empty(). |
| BoundedQueueObject.BoundedQueue.EmptyLoadTop | taskflowlite/core/bounded_queue.hpp:175-176 | The second load of empty() and its answer. |
| BoundedQueueObject.BoundedQueue.PopBegin | taskflowlite/core/bounded_queue.hpp:249-250 | Reserves the last index. |
| BoundedQueueObject.BoundedQueue.PopLoadTop | taskflowlite/core/bounded_queue.hpp:253-255 | Tells an empty deque from one to read. |
| BoundedQueueObject.BoundedQueue.PopReadSlot | taskflowlite/core/bounded_queue.hpp:256-258 | Away from the last element the value read is the one taken; at the last element it is still to be raced for. |
| BoundedQueueObject.BoundedQueue.PopExchange | taskflowlite/core/bounded_queue.hpp:258-261 | The race for the last element: the exchange decides as the protocol does. |
| BoundedQueueObject.BoundedQueue.PopEnd | taskflowlite/core/bounded_queue.hpp:262-269 | Restores bottom and returns what was won. |
| BoundedQueueObject.BoundedQueue.Pop | taskflowlite/core/bounded_queue.hpp:248-270 | Without thieves in between: the back element is removed and returned, and null exactly from an empty deque. |
| BoundedQueueObject.BoundedQueue.StealLoadTop | taskflowlite/core/bounded_queue.hpp:279-279 | A thief's snapshot of top. |
| BoundedQueueObject.BoundedQueue.StealLoadBottom | taskflowlite/core/bounded_queue.hpp:281-283 | The thief goes on exactly if its top is below the bottom it loads. |
| BoundedQueueObject.BoundedQueue.StealReadSlot | taskflowlite/core/bounded_queue.hpp:284-284 | Reads the slot, whose value may be stale by then. |
| BoundedQueueObject.BoundedQueue.StealExchange | taskflowlite/core/bounded_queue.hpp:286-291 | Succeeds exactly if top is still the snapshot, and then returns the front of the deque. |
| BoundedQueueObject.BoundedQueue.Steal | taskflowlite/core/bounded_queue.hpp:278-292 | Without others in between: the front element is removed and returned, and null exactly from an empty deque. |
| SharedWorkStackTheorems.StepInv | taskflowlite/core/shared_work_stack.hpp:121-236 | Every atomic action of producers and thieves is defined and keeps the invariant; the release never borrows. |
| SharedWorkStackTheorems.RunInv | taskflowlite/core/shared_work_stack.hpp:121-236 | Every state of every run satisfies it. |
| SharedWorkStackTheorems.CountIsConserved | taskflowlite/core/shared_work_stack.hpp:121-236 | In every run the count is what is counted but unpublished, plus incoming, plus the consumer's chain, plus at most one node taken and not yet subtracted, which only the lock's holder can have. |
| SharedWorkStackTheorems.OneConsumer | taskflowlite/core/shared_work_stack.hpp:208-233 | At most one thief is in the section in which m_head is read and written. |
| SharedWorkStackTheorems.NothingLostOrDoubled | taskflowlite/core/shared_work_stack.hpp:121-236 | Each node's pushes exceed its steals by at most one, and then it is in exactly the place where it can still be stolen. |
| SharedWorkStackTheorems.StolenOnce | taskflowlite/core/shared_work_stack.hpp:230-235 | What a thief is about to return was pushed and not returned since, is in no chain, and has a cleared link. |
| SharedWorkStackTheorems.EmptyMeansNothingPublished | taskflowlite/core/shared_work_stack.hpp:238-240 | A count of zero means that nothing is announced, incoming or in the consumer's chain. |
| SharedWorkStackTheorems.HolderCanMove | taskflowlite/core/shared_work_stack.hpp:208-235 | The lock's holder always has an enabled action of its own, which releases the lock or brings it nearer to that. |
| SharedWorkStackTheorems.NearerToRelease | taskflowlite/core/shared_work_stack.hpp:208-235 | No action of another thread moves the holder; each action of its own brings it nearer to the release. |
| SharedWorkStackTheorems.ThiefGoesOnIff | taskflowlite/core/shared_work_stack.hpp:200-236 | A steal goes on from its first look exactly if it sees no lock and a count above zero, wins the lock exactly if nobody holds it, and finds a node inside exactly if one is published; with the release it is over. |
| SharedWorkStackTheorems.EmptyHandedMeansNothingPublished | taskflowlite/core/shared_work_stack.hpp:215-228 | A thief that leaves the lock without a node looked at a moment when nothing was published. |
| SharedWorkStackTheorems.PushGoesOn | taskflowlite/core/shared_work_stack.hpp:121-177 | A push begins with its batch linked and ends, with that batch in front of the incoming chain, exactly when its exchange succeeds; each action of its own brings that nearer unless the exchange fails, and only the announcement moves the count. |
| SharedWorkStackTheorems.PushCanGoOn | taskflowlite/core/shared_work_stack.hpp:121-177 | A push that is not over has an enabled action of its own, as long as the count has room for its batch. |
| SharedWorkStackTheorems.ReleasedWithinFive | taskflowlite/core/shared_work_stack.hpp:208-235 | In every run the holder does at most four actions of its own while it holds the lock; the fifth at the latest releases it. |
| SharedWorkStackObject.ReleaseNeverBorrows | taskflowlite/core/shared_work_stack.hpp:233-233 | Subtracting the lock bit and one in a single 64-bit subtraction clears the bit and decrements the count. |
| SharedWorkStackObject.PackedReads | taskflowlite/core/shared_work_stack.hpp:113-114 | Lock and count can be read back from the word. |
| SharedWorkStackObject.ConnectUnique | taskflowlite/core/shared_work_stack.hpp:150-161 | A null-terminated chain over given nodes determines their links. |
| SharedWorkStackObject.SharedWorkStack.constructor | taskflowlite/core/shared_work_stack.hpp:113-114 | A new stack is empty and unlocked. |
| SharedWorkStackObject.SharedWorkStack.Link | taskflowlite/core/shared_work_stack.hpp:146-161 | The loop of the batch push links its nodes in order into one chain and touches no other node. |
| SharedWorkStackObject.SharedWorkStack.LinkBatch | taskflowlite/core/shared_work_stack.hpp:146-161 | A batch is linked privately before anything is counted or published. |
| SharedWorkStackObject.SharedWorkStack.AddCount | taskflowlite/core/shared_work_stack.hpp:163-164 | Adding n to the word changes the count alone. |
| SharedWorkStackObject.SharedWorkStack.LoadTop | taskflowlite/core/shared_work_stack.hpp:166-166 | A producer's load of the incoming chain. |
| SharedWorkStackObject.SharedWorkStack.StoreTail | taskflowlite/core/shared_work_stack.hpp:168-169 | Hooks the batch's last node onto the chain seen. |
| SharedWorkStackObject.SharedWorkStack.ExchangeIncoming | taskflowlite/core/shared_work_stack.hpp:170-175 | Publishes the batch exactly if the incoming chain is the one seen. |
| SharedWorkStackObject.SharedWorkStack.PeekState | taskflowlite/core/shared_work_stack.hpp:202-206 | A thief goes on only if it sees the stack unlocked and not empty. |
| SharedWorkStackObject.SharedWorkStack.TakeLock | taskflowlite/core/shared_work_stack.hpp:208-217 | Exactly the thief that saw the bit clear holds the lock. |
| SharedWorkStackObject.SharedWorkStack.ReadConsumerHead | taskflowlite/core/shared_work_stack.hpp:219-221 | Finds the consumer's chain, or that it is used up. |
| SharedWorkStackObject.SharedWorkStack.TakeIncoming | taskflowlite/core/shared_work_stack.hpp:222-228 | Takes over the whole incoming chain, or finds none although some is counted. |
| SharedWorkStackObject.SharedWorkStack.AdvanceHead | taskflowlite/core/shared_work_stack.hpp:230-230 | Moves the head to the taken node's successor. |
| SharedWorkStackObject.SharedWorkStack.ClearNext | taskflowlite/core/shared_work_stack.hpp:231-231 | Clears the taken node's link. |
| SharedWorkStackObject.SharedWorkStack.ReleaseWith | taskflowlite/core/shared_work_stack.hpp:233-235 | Releases lock and slot together and returns the node, its link cleared. |
| SharedWorkStackObject.SharedWorkStack.FindNode | taskflowlite/core/shared_work_stack.hpp:219-228 | Inside the lock: the first node of the consumer's chain, or, once that is used up, of the incoming one; none exactly if nothing is published. |
| SharedWorkStackObject.SharedWorkStack.TakeOff | taskflowlite/core/shared_work_stack.hpp:230-235 | The node found is taken off the consumer's chain, its link is cleared and the lock released. |
| SharedWorkStackObject.SharedWorkStack.Steal | taskflowlite/core/shared_work_stack.hpp:200-236 | Without others in between: the first node of the consumer's chain, or of the incoming one when that is used up; null exactly if nothing is published or the lock is held. |
| SharedWorkStackObject.SharedWorkStack.ReleaseEmpty | taskflowlite/core/shared_work_stack.hpp:215-216 | Releases the lock after finding nothing and keeps the count. |
| AsyncInvariant.AlwaysDefined | taskflowlite/core/executor.hpp:1654-1753 | In no reachable state does an action touch a destroyed task, let a counter underflow or break an assertion. |
| AsyncInvariant.SignalIsSafe | taskflowlite/core/executor.hpp:1724-1739 | The successor that a tear-down signals is live, registered, Running and not yet ready. |
| AsyncTheorems.StepInv | taskflowlite/core/async_task.hpp:338-441 | Every action of starts, links, executions, tear-downs and handles is defined and keeps the invariant. |
| AsyncTheorems.RunInv | taskflowlite/core/async_task.hpp:338-441 | Every state of every run, with racing start calls, satisfies it. |
| AsyncTheorems.JoinCountsArrivals | taskflowlite/core/async_task.hpp:413-437 | The join counter of a task that is not ready equals its submit guard, plus the entries not yet linked, plus the registered entries whose predecessor has not signalled, duplicates counted. |
| AsyncTheorems.DispatchedOnceAndLast | taskflowlite/core/executor.hpp:1654-1739 | A task is dispatched at most once, and only when every dependency entry is accounted for by a Finished task. |
| AsyncTheorems.StartedAtMostOnce | taskflowlite/core/async_task.hpp:351-395 | Of racing start calls on a task at most one wins; its dependencies are the task's, and a task left Idle was started exactly once. |
| AsyncTheorems.LockHolderNeverSpins | taskflowlite/core/executor.hpp:1672-1686 | A locked control word belongs to a start call that is at an action which never waits for another lock. |
| AsyncTheorems.RankFalls | taskflowlite/core/async_task.hpp:360-426 | Along every chain of dependencies the order of publication falls. |
| AsyncTheorems.DependenciesAreAcyclic | taskflowlite/core/async_task.hpp:360-426 | No task depends on itself, directly or through others, however starts race. |
| AsyncTheorems.QuietFinished | taskflowlite/core/executor.hpp:1691-1753 | With nothing starting, ready or executing, a started task is Finished, by induction on the order of publication. |
| AsyncTheorems.QuietMeansFinished | taskflowlite/core/executor.hpp:1691-1753 | In every run, in such a state every started task is Finished and was dispatched exactly once. |
| AsyncTheorems.UseCountIsExact | taskflowlite/core/topology.hpp:159-171 | The use count is the handles, plus the execution's reference, plus the live dependents storing the task, plus references about to be dropped; a task is live exactly if it is not zero. |
| AsyncTheorems.DestroyedIsUnreferenced | taskflowlite/core/executor.hpp:1741-1745 | A destroyed task is not executing, not locked, not used by a start call, stored by no live dependent and awaited by no predecessor. |
| AsyncTheorems.DeadStaysDead | taskflowlite/core/work.hpp:1655-1684 | No action brings a destroyed task back. |
| AsyncTheorems.DestroyedOnce | taskflowlite/core/work.hpp:1655-1684 | In every run a destroyed task stays destroyed, so it is destroyed at most once. |
| AsyncTheorems.NotLeaked | taskflowlite/core/work.hpp:1655-1684 | At rest, without handles, a task is destroyed, since whatever could store it is. |
| AsyncTheorems.NothingLeaks | taskflowlite/core/work.hpp:1655-1684 | In every run, when all is at rest and every handle is gone, every task has been destroyed. |
| AsyncStarts.StartOutcome | taskflowlite/core/async_task.hpp:338-441 | In every run a start call that is over without having published was refused for a reason the code names: the task was not Idle, an argument was the task itself, or an argument was Idle when it was checked; otherwise it has published the task once. |
| AsyncStarts.BeginsIffIdle | taskflowlite/core/async_task.hpp:348-355 | A start call goes on from its first look exactly if the task is Idle. |
| AsyncStarts.CallHolds | taskflowlite/core/async_task.hpp:360-411 | While a start call checks its arguments it has gathered exactly those checked so far, and afterwards all of them: the non-null arguments, in order, with their repetitions. |
| AsyncStarts.StarterNearer | taskflowlite/core/async_task.hpp:381-441 | Every action of a start call's own brings it nearer to its end, unless it is a try for a lock that fails spuriously or because another call holds it. |
| AsyncStarts.StarterCanMove | taskflowlite/core/async_task.hpp:338-441 | A start call that is not over always has an enabled action of its own. |
| AsyncStarts.ExecutionNearer | taskflowlite/core/executor.hpp:1691-1753 | Every action of an execution and its tear-down brings its end nearer, unless it is a try to publish Finished that fails spuriously or at the lock. |
| AsyncReferences.ReferencesMove | taskflowlite/core/async_future.hpp:243-404 | Handles change by copies and drops alone, the execution's reference is taken by the start that wins and given up by its tear-down, and a task dies exactly with its last reference, which then frees what it stored. |
| AsyncReferences.ReferencesAreAccounted | taskflowlite/core/async_future.hpp:243-404 | In every run a task has its first handle and one for each copy, less those dropped; and as many stored references are still to be released as were set free and have not been. |
| AsyncTasksObject.AsyncTasks.constructor | taskflowlite/core/async_task.hpp:338-351 | Created tasks are Idle, unlocked, without edges and named by one handle. |
| AsyncTasksObject.AsyncTasks.LoadStatus | taskflowlite/core/async_task.hpp:348-355 | A start goes on exactly if the task is still Idle. |
| AsyncTasksObject.AsyncTasks.ValidateNext | taskflowlite/core/async_task.hpp:360-378 | Exactly the task itself and an Idle dependency are refused; null is skipped, and a Running or Finished dependency accepted. |
| AsyncTasksObject.AsyncTasks.LockSelf | taskflowlite/core/async_task.hpp:381-395 | The lock is taken exactly from the unlocked Idle state; a task that is not Idle is refused, and only a failed exchange or a taken lock is tried again. |
| AsyncTasksObject.AsyncTasks.StorePredecessor | taskflowlite/core/async_task.hpp:406-411 | One dependency is appended to the edge table and its use count raised. |
| AsyncTasksObject.AsyncTasks.StoreJoinCounter | taskflowlite/core/async_task.hpp:414-418 | The counter covers every stored dependency and the submit guard, and is 0 for a start without dependencies. |
| AsyncTasksObject.AsyncTasks.TakeExecutionRef | taskflowlite/core/async_task.hpp:420-421 | The execution's own reference. |
| AsyncTasksObject.AsyncTasks.PublishRunning | taskflowlite/core/async_task.hpp:424-425 | The Running bit is or-ed in under the lock. |
| AsyncTasksObject.AsyncTasks.UnlockSelf | taskflowlite/core/async_task.hpp:426-426 | The lock bit alone is cleared. |
| AsyncTasksObject.AsyncTasks.LinkNext | taskflowlite/core/executor.hpp:1656-1678 | A Finished predecessor counts as arrived at once; otherwise its lock is taken if it is free. |
| AsyncTasksObject.AsyncTasks.SwapRotates | taskflowlite/core/executor.hpp:1680-1682 | Appending and one swap keep the table split into successors followed by stored predecessors. |
| AsyncTasksObject.AsyncTasks.RegisterSuccessor | taskflowlite/core/executor.hpp:1680-1682 | Under the predecessor's lock the task becomes its last successor and no stored predecessor is lost. |
| AsyncTasksObject.AsyncTasks.UnlockPredecessor | taskflowlite/core/executor.hpp:1684-1684 | The predecessor's lock bit alone is cleared. |
| AsyncTasksObject.AsyncTasks.ReleaseSubmitGuard | taskflowlite/core/async_task.hpp:434-439 | The caller dispatches exactly if it took the counter from 1 to 0. |
| AsyncTasksObject.AsyncTasks.PublishFinished | taskflowlite/core/executor.hpp:1696-1722 | Finished is entered only from the unlocked Running state, and freezes the successors. |
| AsyncTasksObject.AsyncTasks.SignalSuccessor | taskflowlite/core/executor.hpp:1724-1739 | One arrival; the successor is returned exactly if this arrival dispatches it. |
| AsyncTasksObject.AsyncTasks.DropReference | taskflowlite/core/executor.hpp:1741-1745 | The use count falls by one; the task is destroyed exactly with the last reference, and then every stored predecessor loses one. |
| AsyncTasksObject.AsyncTasks.AddHandle | taskflowlite/core/async_future.hpp:243-248 | Copying a handle raises the use count by one. |
| TopologyWord.PackUnpack | taskflowlite/core/topology.hpp:66-141 | The word and its four fields, stop, lock, status and use count, determine each other. |
| TopologyWord.AddRefIsLocal | taskflowlite/core/topology.hpp:158-162 | Adding one changes the use count alone exactly when the count is not at its maximum. |
| TopologyWord.SubRefIsLocal | taskflowlite/core/topology.hpp:164-171 | Subtracting one changes the use count alone exactly when there is a reference to drop. |
| TopologyWord.FlagsAreLocal | taskflowlite/core/topology.hpp:83-89 | Setting stop, setting lock and clearing lock change their own flag alone. |
| TopologyWord.SetStatusIsLocal | taskflowlite/core/topology.hpp:127-130 | set_status changes the status alone. |
| TopologyWord.PublishByOr | taskflowlite/core/async_task.hpp:424-425 | Or-ing in the Running bit yields Running exactly from Idle or Running, and keeps the rest of the word. |
| TopologyWord.UnlockedWord | taskflowlite/core/executor.hpp:1672-1675 | Clearing the lock bit of a snapshot keeps the word exactly if it was unlocked. |
| TopologyWord.ExchangeNeedsUnlocked | taskflowlite/core/executor.hpp:1702-1715 | An exchange that expects a snapshot with its lock bit cleared succeeds only on an unlocked word with the same other fields, and then changes lock or status alone. |
| TopologyWord.ExchangeSucceedsIff | taskflowlite/core/executor.hpp:1672-1678 | The word is the expected one exactly if it is unlocked and its other fields are the snapshot's. |
| TopologyObject.Topology.constructor | taskflowlite/core/topology.hpp:44-50 | A new topology is Idle and unreferenced; its chain of ancestors is its parent's with itself in front. |
| TopologyObject.Topology.IncrementRef | taskflowlite/core/topology.hpp:158-162 | The use count rises by one and no other field changes. |
| TopologyObject.Topology.DecrementRef | taskflowlite/core/topology.hpp:164-171 | The use count falls by one, no other field changes, and the caller learns whether it was the last. |
| TopologyObject.Topology.SetRunning | taskflowlite/core/topology.hpp:188-193 | The status becomes Running and no other field changes. |
| TopologyObject.Topology.SetFinished | taskflowlite/core/topology.hpp:195-201 | The status becomes Finished and no other field changes. |
| TopologyObject.Topology.TryLock | taskflowlite/core/executor.hpp:1672-1678 | From a possibly stale snapshot: takes the lock exactly if the word is unlocked and otherwise shows the snapshot's fields, and changes nothing else. |
| TopologyObject.Topology.TryFinish | taskflowlite/core/executor.hpp:1702-1715 | From a possibly stale snapshot: enters Finished exactly if the word is unlocked and otherwise shows the snapshot's fields. |
| TopologyObject.Topology.PublishRunning | taskflowlite/core/async_task.hpp:424-425 | Running is published without touching a stop request or the use count. |
| TopologyObject.Topology.Unlock | taskflowlite/core/async_task.hpp:426-426 | The lock flag alone is cleared. |
| TopologyObject.Topology.RequestStop | taskflowlite/core/topology.hpp:203-213 | True for the first request only; afterwards exactly the topologies below this one stop in addition. |
| TopologyObject.Topology.StopRequested | taskflowlite/core/topology.hpp:215-235 | Answers whether this topology or an ancestor was asked to stop; caching the answer changes no topology's answer. |
| TopologyObject.Topology.BelowStopped | taskflowlite/core/topology.hpp:215-235 | Whoever is below this topology is below its ancestors, so the cached flag tells nobody anything new. |
| AsyncHandle.AsyncFuture.Empty | taskflowlite/core/async_future.hpp:234-236 | An empty handle names nothing. |
| AsyncHandle.AsyncFuture.Copy | taskflowlite/core/async_future.hpp:243-248 | The copy names the same task and use counts still equal the handles naming each task plus outside references. |
| AsyncHandle.AsyncFuture.Move | taskflowlite/core/async_future.hpp:269-273 | The source is left empty and every count still balances. |
| AsyncHandle.AsyncFuture.IncrementRef | taskflowlite/core/async_future.hpp:389-394 | One reference more on the named task, if there is one. |
| AsyncHandle.AsyncFuture.DecrementRef | taskflowlite/core/async_future.hpp:396-404 | The handle is emptied; the last reference destroys the task. |
| AsyncHandle.AsyncFuture.Reset | taskflowlite/core/async_future.hpp:293-296 | Counts balance; the task is destroyed exactly if no handle names it and nobody else holds it, and no other task changes. |
| AsyncHandle.AsyncFuture.TakeName | taskflowlite/core/async_future.hpp:262-263 | An empty handle takes over a reference counted for it. |
| AsyncHandle.AsyncFuture.CopyAssign | taskflowlite/core/async_future.hpp:250-267 | Counts balance for every aliasing of the two handles and their tasks; assigning the same task changes nothing. |
| AsyncHandle.AsyncFuture.MoveAssign | taskflowlite/core/async_future.hpp:275-285 | The source is left empty, and no task but the one given up changes its count. |
| AsyncHandle.AsyncFuture.NamedIsUsed | taskflowlite/core/async_future.hpp:389-404 | A named task has references and is not destroyed. |
| RuntimeTheorems.StepInv | taskflowlite/core/runtime.hpp:342-412 | Every action of launches, bodies, tear-downs and slot returns is defined, no destroyed parent is touched, no counter underflows, and the invariant is kept. |
| RuntimeTheorems.RunInv | taskflowlite/core/runtime.hpp:342-412 | Every state of every run satisfies the invariant. |
| RuntimeTheorems.SlotsAreCounted | taskflowlite/core/runtime.hpp:342-412 | The counter of every task is exactly its baseline while its body runs, plus the slots of children counted and not done; the executor's count of topologies likewise; whoever holds a slot has a live parent that waits. |
| RuntimeTheorems.ReturnIsSafe | taskflowlite/core/executor.hpp:1920-1930 | When a slot is returned the parent still exists and still has the flag read before; if it is the last slot, the parent's body has ended and nobody has resumed it. |
| RuntimeTheorems.FinishedOnceAndLast | taskflowlite/core/work_invokers.hpp:1203-1227 | A body runs at most once, its tear-down is entered at most once and only after it, and then everything launched below it, at any depth, is done. |
| RuntimeTheorems.WaitMeansChildrenDone | taskflowlite/core/runtime.hpp:567-573 | wait() sees a counter of 1 exactly when every child is done, and then everything below them is done too. |
| RuntimeTheorems.WaitForAllMeansAllDone | taskflowlite/core/executor.hpp:1155-1161 | wait_for_all() sees no topologies exactly when nothing is being submitted and every activation is done. |
| RuntimeTheorems.QuietMeansAllDone | taskflowlite/core/executor.hpp:1920-1930 | When nothing is ready, running or on its way out, nobody is left suspended: everything is done. |
| RuntimeTheorems.NothingBelow | taskflowlite/core/work_invokers.hpp:1203-1227 | Below a task that is neither running nor suspended everything is done, at any depth. |
| RuntimeLife.PhaseIsHistory | taskflowlite/core/work_invokers.hpp:1203-1227 | In every run what has happened to an activation says exactly in which phase it is: it can be invoked exactly when no predecessor is left and its body was neither begun nor skipped, or after the last child has woken it. |
| RuntimeLife.LifeGoesOn | taskflowlite/core/work_invokers.hpp:1203-1227 | No action takes an activation back; each of its own brings its end nearer, and of its children's returns exactly the last one does. |
| RuntimeLife.LifeCanGoOn | taskflowlite/core/work_invokers.hpp:1203-1227 | An activation that is not done can act, unless it is suspended, and then a child is not done. |
| RuntimeLife.CountersAreAccounted | taskflowlite/core/runtime.hpp:342-412 | In every run every join counter is what was taken from it less what was given back, an activation has still to publish what it has counted less what it published, and the topologies are those announced less those that have left. |
| RuntimeLife.WorksGrow | taskflowlite/core/runtime.hpp:342-412 | Each publication adds exactly one activation, with the publisher's or its own parent; parents never change. |
| RuntimeLife.BirthsAreCounted | taskflowlite/core/runtime.hpp:342-412 | In every run there are as many activations as were published, and as many announced tasks as were not submitted yet. |
| RuntimeObject.RuntimeWorks.constructor | taskflowlite/core/runtime.hpp:342-346 | No works and no topologies. |
| RuntimeObject.RuntimeWorks.IncrementTopology | taskflowlite/core/executor.hpp:2026-2028 | A top-level task is counted before it is published. |
| RuntimeObject.RuntimeWorks.SubmitTop | taskflowlite/core/executor.hpp:926-933 | A counted top-level task is published. |
| RuntimeObject.RuntimeWorks.CountChildren | taskflowlite/core/runtime.hpp:345-345 | The parent's counter rises by the number of children before any of them is published. |
| RuntimeObject.RuntimeWorks.PublishOne | taskflowlite/core/runtime.hpp:346-346 | One counted child is published. |
| RuntimeObject.RuntimeWorks.LaunchSources | taskflowlite/core/runtime.hpp:549-550 | All sources are counted at once; with no worker acting in between, afterwards exactly n new children exist and no other work has changed. |
| RuntimeObject.RuntimeWorks.ChildrenDone | taskflowlite/core/runtime.hpp:567-571 | The condition of wait() answers whether every child is done. |
| RuntimeObject.RuntimeWorks.AllDone | taskflowlite/core/executor.hpp:1155-1161 | The condition of wait_for_all() answers whether everything submitted is done. |
| RuntimeObject.RuntimeWorks.Enter | taskflowlite/core/work_invokers.hpp:1204-1210 | The first invocation sets the flag and takes the baseline slot; the second goes on to the tear-down. |
| RuntimeObject.RuntimeWorks.ReleaseBaseline | taskflowlite/core/work_invokers.hpp:1218-1225 | The task finishes here exactly if no child is out, and is otherwise left to its children. |
| RuntimeObject.RuntimeWorks.CountReady | taskflowlite/core/executor.hpp:1444-1445 | Slots for further ready successors are counted before they are published. |
| RuntimeObject.RuntimeWorks.PublishReady | taskflowlite/core/executor.hpp:1447-1451 | One counted successor is published under the same parent. |
| RuntimeObject.RuntimeWorks.InheritSlot | taskflowlite/core/executor.hpp:1425-1428 | The first ready successor takes over the slot and no counter moves. |
| RuntimeObject.RuntimeWorks.ReadPreempted | taskflowlite/core/executor.hpp:1920-1921 | The parent's flag is read before the slot is returned. |
| RuntimeObject.RuntimeWorks.ReturnSlot | taskflowlite/core/executor.hpp:1922-1929 | The parent is resumed exactly by the return that takes its counter from 1 to 0. |
| RuntimeObject.RuntimeWorks.DecrementTopology | taskflowlite/core/executor.hpp:2030-2034 | The last top-level task to finish is told so. |
| GraphSlots.StepSlots | taskflowlite/core/executor.hpp:1372-1634 | Every action of all five tear-downs, on every graph and with exceptions, keeps the parent's counter at its base plus the slots held: the slots only; which nodes the actions choose and count down is GraphArrivals. |
| GraphSlots.RunSlots | taskflowlite/core/executor.hpp:1996-2020 | Every state of every run satisfies this. |
| GraphSlots.ParentCountsHolders | taskflowlite/core/executor.hpp:1372-1634 | The counter is above its base while a worker has a node or an unpublished ready successor in hand, an activation is queued, or a counted source is unpublished. |
| GraphSlots.OnlyReturnGivesBack | taskflowlite/core/executor.hpp:1920-1930 | Only _schedule_parent lowers the counter, and reaching the base is observed by the one who does. |
| GraphSlots.LastReturnFires | taskflowlite/core/executor.hpp:1920-1930 | The counter falls back to its base only by a return, which is observed and gives up the last slot of the run. |
| GraphDag.StrongStep | taskflowlite/core/executor.hpp:1316-1554 | Every action on a graph of Task, Branch and MultiBranch nodes, whatever the branches select, keeps the run's invariant: phases, join counters, places of activations and arrivals still to come, seen from both ends of every edge. |
| GraphDag.RunStrong | taskflowlite/core/executor.hpp:1316-1554 | Every state of every such run satisfies it. |
| GraphDag.RunsOnceAfterPredecessors | taskflowlite/core/executor.hpp:1372-1554 | In every schedule of a graph without jumps a node runs at most once, and only after all its predecessors have run, exceptions or not. |
| GraphDag.AllRan | taskflowlite/core/executor.hpp:1372-1453 | If no activation is left and nothing failed, every node has run, by induction on its rank. |
| GraphDag.BaseMeansComplete | taskflowlite/core/executor.hpp:1996-2020 | The parent's counter is at its base exactly if no activation is left anywhere, and then every node ran exactly once and every join counter is back at its weight. |
| GraphDag.NeverStuck | taskflowlite/core/executor.hpp:1996-2020 | In every run of a graph without jumps, while the counter is above its base some action is enabled. |
| GraphArrivals.CounterIsAccounted | taskflowlite/core/executor.hpp:1372-1634 | In every run of every graph, as long as nobody jumps to a node, its join counter is what it was, plus its weight for each of its own tear-downs, minus one for each arrival at it. |
| GraphArrivals.JumpSetsZero | taskflowlite/core/executor.hpp:1556-1634 | A jump sets its target's counter to 0, whatever it was; no other counter changes by it (CounterStep). |
| GraphArrivals.CounterStep | taskflowlite/core/executor.hpp:1372-1634 | An action changes a node's counter only by an arrival at it, by the node's own tear-down, or by a jump to it. |
| GraphArrivals.WeightCounts | taskflowlite/core/work.hpp:626-632 | The weight of a node is the number of its incoming edges from Task, Branch and MultiBranch nodes. |
| GraphArrivals.RunsAfterArrivals | taskflowlite/core/executor.hpp:1372-1554 | In every run of every graph without jumps, whatever branches select: a node that has run, or is about to, has been arrived at over each of its incoming edges, exactly once each. |
| GraphArrivals.JumpsToAll | taskflowlite/core/executor.hpp:1556-1634 | A jump tear-down that ends has made every target it chose ready, each once and in order, and holds exactly those activations. |
| GraphArrivals.ScansAll | taskflowlite/core/executor.hpp:1404-1554 | The tear-down of a Task, Branch or MultiBranch node that ends has arrived at every target it chose, each once and in order, and holds exactly those that became ready by it. |
| GraphArrivals.ChooseEndsIff | taskflowlite/core/executor.hpp:1396-1402 | A tear-down goes no further than its choice exactly if the node ended with an exception, or is a selecting node that chose nothing. |
| GraphArrivals.ActivationsAreAccounted | taskflowlite/core/executor.hpp:1372-1634 | In every run of every graph, with all kinds of nodes, cycles and exceptions: an action adds an activation exactly for a last arrival or a jump, and removes one exactly when its tear-down is over. |
| GraphArrivals.TearDownGoesOn | taskflowlite/core/executor.hpp:1372-1634 | A worker's own actions bring it through the stages of its tear-down, with less and less to do in each, until it goes on with a next node or is free. |
| GraphArrivals.StartGoesOn | taskflowlite/core/executor.hpp:1996-2020 | The starting call counts all its sources at once and then pushes them one by one. |
| GraphArrivals.WorkerCanGoOn | taskflowlite/core/executor.hpp:1372-1634 | A worker in the middle of something always has an action of its own, and a free one can take any queued activation. |
| BranchSelection.FullHasAll | taskflowlite/core/branch.hpp:311-312 | A selection as long as the list of successors has every one of them, even if an edge is doubled: the early return loses nothing. |
| BranchSelection.InsertedAllIs | taskflowlite/core/branch.hpp:354-363 | Inserting a list adds exactly its members, without repetition, behind those that were there. |
| BranchSelection.SelectsWhatCanBeChosen | taskflowlite/core/branch.hpp:134-169 | What the graph protocol lets a node continue with is exactly what its callable can choose: one successor or none for a Branch or Jump, any list without repetition for a MultiBranch or MultiJump. |
| BranchSelection.Branch.constructor | taskflowlite/core/branch.hpp:126-127 | Nothing is chosen at first. |
| BranchSelection.Branch.Select | taskflowlite/core/branch.hpp:134-140 | The successor of the index is chosen, replacing an earlier choice; an index out of range clears it. |
| BranchSelection.Branch.SelectIf | taskflowlite/core/branch.hpp:142-154 | The first successor that satisfies the predicate is chosen, or none exactly if none does. |
| BranchSelection.Branch.Unselect | taskflowlite/core/branch.hpp:156-164 | Exactly the present choice can be taken back. |
| BranchSelection.Branch.Reset | taskflowlite/core/branch.hpp:166-169 | Nothing is chosen. |
| BranchSelection.MultiBranch.constructor | taskflowlite/core/branch.hpp:306-307 | Nothing is chosen at first. |
| BranchSelection.MultiBranch.Insert | taskflowlite/core/branch.hpp:311-317 | The target is appended unless it is there. |
| BranchSelection.MultiBranch.Erase | taskflowlite/core/branch.hpp:321-329 | Exactly the target is removed, and the last one takes its place. |
| BranchSelection.MultiBranch.Select | taskflowlite/core/branch.hpp:354-361 | The successors of the indices are inserted in order; indices out of range are ignored. |
| BranchSelection.MultiBranch.Unselect | taskflowlite/core/branch.hpp:367-373 | Exactly the successors of the indices are removed. |
| BranchSelection.MultiBranch.SelectAll | taskflowlite/core/branch.hpp:375-381 | Every successor is chosen. |
| BranchSelection.MultiBranch.SelectIf | taskflowlite/core/branch.hpp:395-403 | Exactly the successors that satisfy the predicate are added. |
| BranchSelection.MultiBranch.Reset | taskflowlite/core/branch.hpp:383-391 | Nothing is chosen. |
| GraphFailures.BelowHasNotRun | taskflowlite/core/executor.hpp:1396-1402 | With no activation left, nothing below a node that ended with an exception has run, at any depth. |
| GraphFailures.NotRunIsBelow | taskflowlite/core/executor.hpp:1396-1402 | With no activation left, a node that has not run is at the end of a path from a node that ended with an exception. |
| GraphFailures.NotRunExactlyBelowFailures | taskflowlite/core/executor.hpp:1396-1402 | When the parent's counter is back at its base, exceptions or not, a node has not run if and only if it is a strict descendant of a node that ended with one; every other node ran exactly once and has its join weight back. |
| GraphFailures.EndIsSeenOnce | taskflowlite/core/executor.hpp:1920-1930 | In every run of every graph with a source, all kinds of nodes and exceptions mixed, the counter is brought back to its base once, and then the run is over. |
| GraphTables.SourcesOnly | taskflowlite/core/executor.hpp:1343-1347 | The sources are exactly the table's nodes without any predecessor, without repetition if the table has none. |
| GraphTables.ComputeJoinWeight | taskflowlite/core/work.hpp:626-632 | The loop counts exactly the strong entries among the predecessors. |
| GraphTables.SetUpGraph | taskflowlite/core/executor.hpp:1316-1354 | The node table is permuted, its sources gathered in front in their order, every other node's counter set to its weight, and no other counter touched. |
| GraphTables.SetUpIsExact | taskflowlite/core/executor.hpp:1343-1350 | For a table of all nodes without repetition the gathered sources are each source once, and nothing else. |
| GraphTables.ResetJoinCounters | taskflowlite/core/executor.hpp:1356-1370 | Exactly the counters of the non-sources are put back to their weight. |
| GraphTables.ScanSuccessors | taskflowlite/core/executor.hpp:1413-1430 | Although entries are swapped during the scan, every successor is signalled once in table order; the first ready one is kept, the others are gathered in order, and the table is permuted within its successors. |
| GraphTables.ScanTargets | taskflowlite/core/executor.hpp:1521-1533 | Although ready targets overwrite the front of the selection while it is read, none is missed or signalled twice, and the ready ones are kept in order. |
| PushShared.CutEnds | taskflowlite/core/executor.hpp:1769-1795 | All turns together serve exactly the batch. |
| PushShared.LoadsAreEven | taskflowlite/core/executor.hpp:1762-1796 | Every stack receives the rounded-down or rounded-up average, so loads differ by at most one. |
| PushShared.SharesAreAll | taskflowlite/core/executor.hpp:1762-1796 | The shares of all stacks together are the batch, every item exactly once. |
| PushShared.FirstStack | taskflowlite/core/executor.hpp:1770-1770 | The scattered address selects the stack that is the exact high word of its product with their number. |
| PushShared.FirstStackIsEven | taskflowlite/core/executor.hpp:1770-1770 | Any two stacks are first for numbers of scattered addresses that differ by at most one. |
| PushShared.PushFew | taskflowlite/core/executor.hpp:1769-1781 | The wrap-around loop for small batches appends to every stack exactly its share. |
| PushShared.PushMany | taskflowlite/core/executor.hpp:1783-1795 | The two loops for large batches append to every stack exactly its share. |
| PushShared.PushBatch | taskflowlite/core/executor.hpp:1762-1796 | The random-access form appends to every stack exactly its share, in order. |
| PushShared.CutAndPush | taskflowlite/core/executor.hpp:1833-1843 | One piece is cut off and handed over with its own head, tail and length. |
| PushShared.ChainFew | taskflowlite/core/executor.hpp:1806-1825 | The chain form for small batches hands every node over alone. |
| PushShared.ChainTurn | taskflowlite/core/executor.hpp:1850-1862 | One turn of the chain form serves its stack and leaves the rest a chain. |
| PushShared.FinalTurn | taskflowlite/core/executor.hpp:1846-1847 | The last stack receives the rest without walking it. |
| PushShared.ChainWrapped | taskflowlite/core/executor.hpp:1864-1878 | The stacks in front of the pivot, served last, receive one node more each, and the rest ends with the chain's own last node. |
| PushShared.ChainMany | taskflowlite/core/executor.hpp:1827-1879 | The chain form for large batches serves the same shares as the random-access form. |
| PushShared.PushChain | taskflowlite/core/executor.hpp:1798-1879 | Both sizes: every stack receives exactly its share as a null-terminated chain with its own head, tail and length. |
| ObjectPoolTheorems.SameTagInWindow | taskflowlite/core/object_pool.hpp:514-535 | Within one turn of the tag, equal tags mean equal versions. |
| ObjectPoolTheorems.TagComesBack | taskflowlite/core/object_pool.hpp:138-143 | After exactly one turn the tag is back: the window is tight. |
| ObjectPoolTheorems.PopInstallsTrueSuccessor | taskflowlite/core/object_pool.hpp:514-531 | Within the window a pop's exchange succeeds only with the true top and its true successor. |
| ObjectPoolTheorems.AlwaysDefined | taskflowlite/core/object_pool.hpp:383-535 | Every pointer followed is a block of the pool. |
| ObjectPoolTheorems.StepInv | taskflowlite/core/object_pool.hpp:383-535 | Every atomic action of create, destroy and refill keeps the invariant, provided its window sees no whole turn of the tag. |
| ObjectPoolTheorems.RunInv | taskflowlite/core/object_pool.hpp:383-535 | Every state of every such run satisfies it. |
| ObjectPoolTheorems.ConstructedIsInit | taskflowlite/core/object_pool.hpp:354-363 | The constructed pool has one linked slab per bucket, all of it free. |
| ObjectPoolTheorems.InitInv | taskflowlite/core/object_pool.hpp:354-363 | Such a pool satisfies the invariant. |
| ObjectPoolTheorems.EveryBlockHasOnePlace | taskflowlite/core/object_pool.hpp:383-535 | Every block is in exactly one of its own bucket's stack, one thread's hands, or a live object. |
| ObjectPoolTheorems.CreateReturnsFreshBlock | taskflowlite/core/object_pool.hpp:383-402 | The block about to be constructed in is in no stack and in no other thread's hands. |
| ObjectPoolTheorems.OneRefillAtATime | taskflowlite/core/object_pool.hpp:453-470 | At most one thread is inside a bucket's refill. |
| ObjectPoolTheorems.StackIsLinked | taskflowlite/core/object_pool.hpp:487-504 | The free stack is always a null-terminated chain without repetition, of the bucket's own blocks, that the head points to. |
| ObjectPoolWrap.PopKeepsIff | taskflowlite/core/object_pool.hpp:514-531 | For every state, in or out of the window: a pop's exchange keeps the invariant if and only if it fails or the successor it installs is still the top block's. |
| ObjectPoolWrap.StepKeepsIff | taskflowlite/core/object_pool.hpp:383-535 | Every other action keeps the invariant whatever the tags do, a push's exchange included. |
| ObjectPoolWrap.FreeRunInv | taskflowlite/core/object_pool.hpp:383-535 | A run of the pool with any number of turns of the tag keeps the invariant throughout if and only if every exchange in it is harmless in this sense. |
| ObjectPoolWrap.WindowIsHarmless | taskflowlite/core/object_pool.hpp:514-535 | Inside the window every exchange is harmless. |
| ObjectPoolWrap.WrapBreaksPop | taskflowlite/core/object_pool.hpp:514-531 | A run from the constructor, with two threads and one slab of three blocks, whose every state satisfies the invariant and after which, any even number of versions of at least four and a whole number of turns later, an exchange succeeds and makes a live object's block the head of the free stack. |
| ObjectPoolWrap.OneTurnIsEnough | taskflowlite/core/object_pool.hpp:138-143 | One turn of the 16-bit tag is enough for that. |
| ObjectPoolBlocks.BlockMoves | taskflowlite/core/object_pool.hpp:383-424 | A block changes place only when it is popped from the top, constructed in, destroyed, or pushed back onto the stack of its own bucket. |
| ObjectPoolBlocks.ThrowGivesBack | taskflowlite/core/object_pool.hpp:394-424 | A constructor that throws, and a destructor, leave the thread with the block in its hands and on the way to push it back where it belongs. |
| ObjectPoolBlocks.ConstructEnds | taskflowlite/core/object_pool.hpp:383-393 | A constructor that returns leaves the block with the application and changes nothing else. |
| ObjectPoolBlocks.GivenBack | taskflowlite/core/object_pool.hpp:394-424 | In every run, after a constructor has thrown or an object been destroyed the thread does nothing else until the block is on the free stack of its own bucket. |
| ObjectPoolBlocks.GivingBackNearer | taskflowlite/core/object_pool.hpp:487-504 | Each action of a push brings its end nearer, unless its exchange fails. |
| ObjectPoolBlocks.CreateGoesOn | taskflowlite/core/object_pool.hpp:383-402 | A create ends only with a block in hand: each action of its own keeps it on the same bucket and brings the end nearer unless an exchange fails, and a block once kept is the one it ends with. |
| ObjectPoolBlocks.CreateCanGoOn | taskflowlite/core/object_pool.hpp:453-470 | Only the refill lock makes a create wait, and its holder is itself a create on that bucket that is not waiting. |
| ObjectPoolBlocks.RefillsOnlyWhenEmpty | taskflowlite/core/object_pool.hpp:383-470 | A slab is allocated only by a thread that saw, inside the refill lock, a stack empty at that moment; the lock is asked for only after seeing an empty stack. |
| ObjectPoolBlocks.PopsIffThereIsOne | taskflowlite/core/object_pool.hpp:514-517 | A load of the head leads to a pop exactly if the stack is not empty. |
| ObjectPoolBlocks.ExchangeSucceedsIff | taskflowlite/core/object_pool.hpp:498-531 | An exchange fails exactly for no reason or because the head has changed; a pop's, in the window, exactly because the version has. |
| TaggedHead.HeadKeeps | taskflowlite/core/object_pool.hpp:115-136 | The head fits 64 bits, keeps the pointer exactly if can_encode holds, and keeps the tag modulo 2^16. |
| TaggedHead.SameWordIff | taskflowlite/core/object_pool.hpp:115-130 | Heads of encodable pointers are equal exactly if pointer and 16-bit tag are. |
| TaggedHead.NextTagIs | taskflowlite/core/object_pool.hpp:138-143 | next_tag advances the version modulo 2^16. |
| ObjectPoolObject.ObjectPool.constructor | taskflowlite/core/object_pool.hpp:354-363 | Every bucket starts with one linked slab. |
| ObjectPoolObject.ObjectPool.LoadHead | taskflowlite/core/object_pool.hpp:515-517 | The loaded word shows the protocol's top and version; it is null exactly if the stack is empty. |
| ObjectPoolObject.ObjectPool.ReadSuccessor | taskflowlite/core/object_pool.hpp:518-518 | Reads the link of the block seen on top. |
| ObjectPoolObject.ObjectPool.PopExchange | taskflowlite/core/object_pool.hpp:522-531 | The exchange on the 64-bit head takes the block exactly on an unchanged word, as the protocol does; the word seen is returned. |
| ObjectPoolObject.ObjectPool.LoadHeadForPush | taskflowlite/core/object_pool.hpp:492-492 | The push's first load, as a protocol action. |
| ObjectPoolObject.ObjectPool.StoreLast | taskflowlite/core/object_pool.hpp:495-496 | Before every try the chain's last link is set to the head's pointer, and no other link changes. |
| ObjectPoolObject.ObjectPool.PushExchange | taskflowlite/core/object_pool.hpp:497-503 | The exchange publishes the whole chain exactly on an unchanged word, as the protocol does; the word seen is returned for the next try. |
| ObjectPoolObject.ObjectPool.AllocateSlab | taskflowlite/core/object_pool.hpp:434-470 | The first block of a new slab is kept and the chain to be published is exactly the remaining ones. |
| ObjectPoolObject.ObjectPool.BuildSlab | taskflowlite/core/object_pool.hpp:269-284 | The slab constructor's loop links every block to the next and the last to null. |
| SmallVectorBuffer.DestroyN | taskflowlite/core/small_vector.hpp:1169-1176 | Exactly the given slots lose their objects. |
| SmallVectorBuffer.CopyConstructN | taskflowlite/core/small_vector.hpp:1199-1222 | All the new objects are constructed, or, exactly when one of the constructors throws, none remains. |
| SmallVectorBuffer.Carry | taskflowlite/core/small_vector.hpp:1189-1191 | One object is constructed from another, which is left moved from unless it is copied. |
| SmallVectorBuffer.RelocateConstructN | taskflowlite/core/small_vector.hpp:1178-1197 | All, or, exactly when one of the constructors throws, none; then the sources keep their values unless a throwing move was under way. |
| SmallVectorBuffer.MoveAssign | taskflowlite/core/small_vector.hpp:551-554 | Assigning by move keeps lifetimes and changes only the two slots. |
| SmallVectorBuffer.MoveBackward | taskflowlite/core/small_vector.hpp:1477-1477 | Elements are carried up within the buffer without overwriting one that is still to be moved. |
| SmallVectorBuffer.AssignN | taskflowlite/core/small_vector.hpp:1478-1478 | Assigning over existing objects keeps lifetimes. |
| SmallVectorBuffer.Memmove | taskflowlite/core/small_vector.hpp:1461-1468 | Bytes of elements move, however the ranges overlap. |
| SmallVectorBuffer.WriteN | taskflowlite/core/small_vector.hpp:1469-1469 | Elements are written into raw slots byte by byte. |
| SmallVectorObject.RelocateAround | taskflowlite/core/small_vector.hpp:1425-1437 | Old elements are carried to both sides of the gap: all of them, or none. |
| SmallVectorObject.BuildGrown | taskflowlite/core/small_vector.hpp:1372-1445 | In a new buffer the result is the splice and the old buffer is empty; on failure nothing remains in the new one. |
| SmallVectorObject.CarryOver | taskflowlite/core/small_vector.hpp:1475-1476 | The last elements are constructed beyond the end. |
| SmallVectorObject.ShiftUp | taskflowlite/core/small_vector.hpp:1474-1477 | The gap is opened by constructing beyond the end and moving the others up; at every exit exactly a prefix is live. |
| SmallVectorObject.InsertWithin | taskflowlite/core/small_vector.hpp:1474-1480 | First overlap case: at most as many new elements as there are after the index. |
| SmallVectorObject.InsertBeyond | taskflowlite/core/small_vector.hpp:1482-1497 | Second overlap case: more new elements than there are after the index. |
| SmallVectorObject.InsertBytes | taskflowlite/core/small_vector.hpp:1461-1472 | Elements that are relocated byte by byte: the result is the splice and nothing can throw. |
| SmallVectorObject.EraseWithin | taskflowlite/core/small_vector.hpp:655-667 | What follows the range moves down and exactly the freed slots are destroyed. |
| SmallVectorObject.RelocateAll | taskflowlite/core/small_vector.hpp:1781-1783 | All objects are carried to an empty buffer and the source is emptied, or nothing remains in the destination. |
| SmallVectorObject.NextCapacity | taskflowlite/core/small_vector.hpp:1027-1039 | The least capacity that is enough, at least double plus one unless that exceeds the maximum, and never above the maximum. |
| SmallVectorObject.SmallVector.constructor | taskflowlite/core/small_vector.hpp:163-167 | A new vector is empty. |
| SmallVectorObject.SmallVector.GrowAndInsert | taskflowlite/core/small_vector.hpp:1372-1445 | Growth: succeeds exactly if allocation, constructions and relocations all do, with the splice in a fresh buffer; otherwise the old vector with its size, and its contents unless relocation is by a throwing move. |
| SmallVectorObject.SmallVector.Insert | taskflowlite/core/small_vector.hpp:1451-1546 | For every index and count, in both overlap cases and on growth: succeeds exactly if none of the allocations, constructions and assignments it needs throws, and then gives the splice; at every exit exactly the slots below size hold objects, and the size is the new one exactly if what throws comes after the elements beyond the end. |
| SmallVectorObject.SmallVector.InsertInPlace | taskflowlite/core/small_vector.hpp:1451-1500 | The same when the capacity suffices; for elements relocated by bytes nothing can throw. |
| SmallVectorObject.BytesOnlyAllocate | taskflowlite/core/small_vector.hpp:1451-1472 | For elements relocated byte by byte an insertion can fail only in the allocation of a larger buffer. |
| SmallVectorObject.LateReadIsAnother | taskflowlite/core/small_vector.hpp:1474-1480 | After the shift the slot of an element behind the gap holds the element count places before it, so a late read of an aliased value is right exactly if the two are equal. |
| SmallVectorObject.SmallVector.Read | taskflowlite/core/small_vector.hpp:578-579 | An argument that is an element is read where it is now. |
| SmallVectorObject.SmallVector.InsertFill | taskflowlite/core/small_vector.hpp:570-583 | Inserting copies of a value that may be an element of the vector itself inserts the value it had at the call. |
| SmallVectorObject.SmallVector.Append | taskflowlite/core/small_vector.hpp:1563-1596 | Appends in place or by growth, exactly if nothing it needs throws; on failure the size is unchanged. |
| SmallVectorObject.SmallVector.Emplace | taskflowlite/core/small_vector.hpp:525-558 | The argument may be an element of the vector; at the end, on growth and in place it is read before any element moves, so the result is the splice of its value at the call. |
| SmallVectorObject.SmallVector.Erase | taskflowlite/core/small_vector.hpp:642-671 | The contents without the range, exactly if no move assignment throws, and always for elements relocated by bytes; the freed slots are raw. |
| SmallVectorObject.EraseBytes | taskflowlite/core/small_vector.hpp:642-671 | Erasing by memmove cannot fail. |
| SmallVectorObject.SmallVector.MoveAssign | taskflowlite/core/small_vector.hpp:1740-1785 | Takes over a heap buffer, which cannot fail, or relocates inline elements, exactly if nothing throws; the source is left empty, and a failure leaves this vector empty and the source with all its slots live. |
| SmallVectorObject.SmallVector.TakeInline | taskflowlite/core/small_vector.hpp:1768-1783 | The inline half of the move assignment. |
| Random.HalvesFit | taskflowlite/core/random.hpp:35-38 | The product of two 32-bit halves leaves room for two 32-bit carries in 64 bits. |
| Random.HighWord | taskflowlite/core/random.hpp:40-45 | The carry term makes the sum of partial products the exact high word. |
| Random.MulHi64Soft | taskflowlite/core/random.hpp:28-46 | The result is floor(a * b / 2^64) for all 64-bit inputs, with every intermediate value in 64 bits. |
| Random.BelowBound | taskflowlite/core/random.hpp:120-130 | The result is below n. |
| Random.BucketIsInterval | taskflowlite/core/random.hpp:120-130 | The inputs mapped to a bucket form one interval, whose ends are known. |
| Random.BucketSize | taskflowlite/core/random.hpp:120-130 | A bucket receives the rounded-down average of the 2^64 inputs or one more. |
| Random.BucketsAreEven | taskflowlite/core/random.hpp:120-130 | Any two buckets receive numbers of inputs that differ by at most one; buckets are disjoint and cover every input. |
| Random.MixIsBijective | taskflowlite/core/random.hpp:149-157 | The mixing of the state is a bijection on 64-bit words, with the inverse given. |
| Random.EveryOutputOnce | taskflowlite/core/random.hpp:149-157 | From any seed, every 64-bit output is drawn at exactly one of 2^64 consecutive steps. |
| Random.OneStep | taskflowlite/core/random.hpp:149-157 | Each step adds the golden-ratio constant to the state, modulo 2^64. |
| Random.KnownOutputs | taskflowlite/core/random.hpp:149-157 | The first two outputs from state 0 are those published for SplitMix64. |
| Random.SplitMix64.constructor | taskflowlite/core/random.hpp:91-91 | The default state and bound. |
| Random.SplitMix64.Seed | taskflowlite/core/random.hpp:97-100 | State and bound become the given ones. |
| Random.SplitMix64.Next | taskflowlite/core/random.hpp:149-157 | The state advances by the golden-ratio constant modulo 2^64 and the output is a function of the new state. |
| Random.SplitMix64.Draw | taskflowlite/core/random.hpp:120-122 | The result is below the bound and is the exact scaled high word. |
| Random.SplitMix64.DrawBelow | taskflowlite/core/random.hpp:128-130 | The same for a bound given with the call. |
| Random.SplitMix64.DrawBetween | taskflowlite/core/random.hpp:138-145 | The result is in the closed range, also for the full 32-bit range, whose size wraps to 0. |

## Left out

- GraphDag.BaseMeansComplete: for acyclic graphs of Task nodes; in graphs with branches, jumps or cycles not every node need run. What is proved of those is which nodes may run (RunsAfterArrivals), what every tear-down does to counters and activations (GraphArrivals), and the end of the run (GraphSlots, GraphFailures.EndIsSeenOnce). Runs with exceptions are GraphFailures.
- SchedulerTheorems.NoLostWakeup: queues are sets of items. The scheduler's rules for them (an owner reserves an item before it takes it, a look passes under a stated condition) are proved of the deque in BoundedQueueObserver and of the shared stack's count in SharedWorkStackTheorems; the machines are not composed into one state. The scheduler's loop is modelled on values and has no class form.
- BoundedQueueObject.BoundedQueue.Push: states the result of a whole batch push for the case that no thief acts in between; under interference the same is said action by action (PushTakesWhatFits, RefinesSequentialDeque).
- RuntimeObject.RuntimeWorks.LaunchSources: states a whole launch for the case that no worker acts in between; the interleaved form is the same actions one by one, for which RuntimeTheorems holds.
- GraphSlots.StepSlots: a worker that publishes ready successors reads them from a private copy, the code from the front of the node's own edge table. In an acyclic graph nobody writes that table any more, as its node runs once (RunsOnceAfterPredecessors); that a node of a cyclic graph could run again before its successors are published is not captured.
- GraphProtocol's actions do not include a stop request seen before a node's body: the invokers then return the node's slot without a tear-down, and the counters are put right by ResetJoinCounters.
- BoundedQueueTheorems.StepInv: indices are unbounded; 2^63 pushes into one 64-bit index are not considered.
- AsyncTasksObject.AsyncTasks.LockSelf: the class keeps the control word as a record of status, lock and use count; the packing, with the stop flag, is proved in TopologyWord and TopologyObject, and the stop flag plays no part in the dependency protocol.
- RuntimeTheorems.FinishedOnceAndLast: a task with dependencies is Waiting until an action dispatches it; why that happens once, after its predecessors, is AsyncTheorems, and that a task's own counter is 0 by then is the premise that lets the body reuse it.
- SmallVectorObject.SmallVector.Insert: when an assignment throws after the vector has reached its new size, only lifetimes are promised, as in the code; the values of the shifted part are unspecified then.
- Random.SplitMix64.Next: the mixing is proved to be a bijection with full period; its statistical quality beyond that is not a subject.
- PushShared.FirstStack: the address and its multiplication by the hash constant are one parameter, any 64-bit value.
- Memory orders and fences, futexes, yields, timing and fairness: progress results say that some action is enabled, not that it is taken.
- Allocation failure while submitting, storing dependencies or refilling; overflow of 32-bit join counters and of the 62-bit count of the shared stack beyond their asserted limits.
- The order in which a worker explores victims: any order.
- Destructors that throw while an object is returned to the pool.
- Archiving and rethrowing exceptions, semaphores, observers, coroutines, TaskGroup, SubFlow's repeated runs, cycle detection when edges are added, work-item storage and small-buffer callables.
- The 128-bit tagged head; it differs from the 64-bit one only in a tag that is 64 bits wide.
- Resizing, assigning, copying, swapping and shrinking small vectors, and comparison: they reuse the same helpers.
- Names, printing, D2 rendering, hashing of handles, worker handlers, version and macros.
