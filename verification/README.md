# jaal, verified

jaal runs programs written as a model, an `update` and a `subscribe`: one loop folds messages that arrive from
threads, timers and subscriptions, while the sources of those messages are started, stopped and replaced. This project
models the parts where that is hard to get right, and proves what they promise over every input, every interleaving or
every reachable state.

- **The kernel.** `KernelModel` is the loop as a machine of atomic steps (post, drain, fire, fold, resubscribe, keyed
  replace and cancel, quit, shutdown) with `update`, `subscribe` and the outside world as arbitrary functions.
  `KernelInvariant` proves what every step keeps; `KernelTheorems` that stale messages never reach `update`, that the
  record replays to the model, and that a quit is final; `KernelFifo` that budgets do not change the order of folds.
  `KernelLoop` is the loop's own code as a class, each method proved to be a run of the machine's steps.
- **The mailbox.** `Mailbox` is the class under its lock, with a history of what became of every accepted message.
  `MailboxWake` is the wake and close handshake between any number of senders and the loop.
- **Timers.** `TimerHeap` is the indexed heap with its slot table and free list, refining a plain map of timers. `Clock`
  is the saturating arithmetic and the phase of repeating timers; `Headless` the test host's `advance`.
- **The subscription diff.** `Sources` says what a diff means, `OpenTable` and `Reconcile` compute it with the source's
  tables, `StaleTable` says what an outdated table answers, `Subscriptions` proves what holds over many calls and what
  `same_sources` answers.
- **Protocols.** `Signals` (with `SignalsInvariant`, `SignalsTheorems`) is the signal handler against install, take and
  release; `Pool` the job pool's shutdown barrier; `WaitGraph` lock ranks, mailbox waits and scope joins together.
- **Functions.** `Quoting` (Windows arguments against the documented parser), `Rng` (splitmix64 and rejection sampling),
  `Walk` (the type walker), `Timeline` (replay, snapshots, bisection), `Children` (key prefixes of child programs).
- **Together.** `Composition` and `KernelStore` put the parts under the kernel: on a real heap, a real mailbox and a safe
  diff, every operation is the machine's. `KernelTimers` is what `advance` promises of a subscription over kernel runs.

Concurrent parts are state machines under sequential consistency, one step per lock-protected region, atomic operation
or system call; their theorems quantify over all runs. Methods that loop or change fields are imperative, each tied by
its `ensures` to a function or an invariant. Check everything with `dafny verify dfyconfig.toml`.

## Where the code differs from what it says

- `reconcile.hpp:139` takes `want_`'s table to be built. It is built only when a leaf arrives with more than 16 sources
  already wanted. `Reconcile.RunningSources.Reconcile` proves the exact diff when it was (`Safe`); `SafeIff` says for
  which sizes that is. Otherwise the table is the last one built, if any. `AnyHistory` and `MisledByHash` say exactly when
  the call is then in bounds, and exact, for every hash function: if no call ever crossed, if and only if it is safe;
  right after a call that did, if and only if both want 17 sources and (to be exact) no common source changed its place
  (`LargeThenSmall`); in general by `BoundsFor` and `ExactFor`. `KeptAndStopped` is an input that stops eight sources it
  keeps. The kernel's model uses what the diff means.
- `same_sources` counts duplicate leaves. `SameSourcesExactly` says for exactly which inputs its answer is right.
- `mailbox.hpp:254` says that a blocked sender re-checks when its origin is retired; the wait does not look at
  retirement. What is proved is that such a sender never enqueues.
- `pool.hpp:259-265` counts out a job without notifying. The barrier is proved safe, not that its waiter always wakes.
- A program name with a quote in it spoils the arguments after it. `AfterProgramIff`: if and only if.
- `saturate_cast` overflows for units finer than the clock's tick: for every duration but zero (`Clock.FinerUnits`).
- `rng::in` over the full 64-bit range always answers the lower bound (the span wraps to zero); `Generator.In` says so.

## Model

| member | source | states |
|---|---|---|
| `KernelInvariant.NextKeeps` | include/jaal/kernel/kernel.hpp:594-658 | every step, in every interleaving with senders, keeps the invariant: the live origins are the disjoint union of the origins of all running sources and keyed runs and equal the mailbox's, queued messages carry issued origins, timers belong to current runs, and running sources are what the last diff wants |
| `KernelInvariant.RunInv` | include/jaal/kernel/kernel.hpp:375-453 | the invariant holds in every reachable state |
| `KernelInvariant.OpKeeps` | include/jaal/kernel/kernel.hpp:1039-1107 | starting, keeping and stopping a source keeps origins and timers consistent |
| `KernelInvariant.KeyedKeeps` | include/jaal/kernel/kernel.hpp:854-880 | a keyed `after` or task retires the old run's origin and timer before the new one starts |
| `KernelInvariant.DiffPlan` | include/jaal/kernel/kernel.hpp:996-1000 | carrying out a diff's stops, keeps and starts turns the running set into the wanted one, and every start finds its slot free |
| `KernelInvariant.FireKeeps` | include/jaal/kernel/kernel.hpp:430-434 | firing a timer, one-shot or repeating, keeps the invariant |
| `KernelTheorems.FoldIffRunning` | include/jaal/kernel/kernel.hpp:612-632 | a message with an origin is folded if and only if its source is running for the very model it is about to change; otherwise the model is untouched |
| `KernelTheorems.OnlyFoldsRecord` | include/jaal/kernel/kernel.hpp:668-716 | no other step changes the model or the record |
| `KernelTheorems.RetiredStaysOut` | include/jaal/kernel/kernel.hpp:1089-1107 | once an origin is retired no later step of any run folds, accepts or fires a message of it, whether it was queued, drained, batched or armed before |
| `KernelTheorems.DrainDropsRetired` | include/jaal/kernel/mailbox.hpp:196-221 | a drain hands over every message of a live origin as often as it was queued, and none of a retired one |
| `KernelTheorems.DrainKeepsOrder` | include/jaal/kernel/mailbox.hpp:196-221 | in the order they were queued |
| `KernelTheorems.RecordReplays` | include/jaal/kernel/kernel.hpp:668-716 | in every run the model is the replay of the record from the starting model |
| `KernelTheorems.ReplaySplits` | include/jaal/kernel/replay.hpp:85-96 | replaying a record from a snapshot of it gives the same model, at any split |
| `KernelTheorems.QuitStep` | include/jaal/kernel/kernel.hpp:640-648 | after a quit no step folds, asks the world, starts or cancels a keyed run, or changes the exit code |
| `KernelTheorems.QuitIsFinal` | include/jaal/kernel/kernel.hpp:357-361 | the first exit code stays and the record never grows again, over the rest of any run |
| `KernelFifo.BudgetedFoldIsFifo` | include/jaal/kernel/kernel.hpp:594-658 | under any budgets over successive calls the folds of origin-free messages are a prefix of the unlimited queue's, and what waits is what that queue still has |
| `KernelFifo.QuitIsTheQueuesQuit` | include/jaal/kernel/kernel.hpp:826-847 | a quit comes at the same fold, with the same code, record and model, as in the unlimited queue |
| `KernelFifo.EffectView` | include/jaal/kernel/kernel.hpp:826-853 | interpreting an effect tree one entry at a time queues exactly what the tree says, in order, up to a quit |
| `KernelLoop.ReachesKeeps` | include/jaal/kernel/kernel.hpp:594-658 | whatever the loop's own steps reach from a state of the invariant satisfies it |
| `KernelLoop.Kernel.FoldPending` | include/jaal/kernel/kernel.hpp:594-658 | the loop is a run of the machine's steps that ends with at most `budget` folds, the queue empty unless the budget is spent, and nothing queued after a quit; entered while quitting it does nothing and leaves the queue; it terminates even if every update sends another message |
| `KernelLoop.Kernel.FoldBatch` | include/jaal/kernel/kernel.hpp:612-648 | the inner loop, against the machine: it stops only at the end of the batch, the budget or a quit |
| `KernelLoop.Kernel.Stale` | include/jaal/kernel/kernel.hpp:622-631 | a sourced message meets subscriptions brought up to date first, and is dropped exactly when its origin is not live |
| `KernelLoop.Kernel.FoldOne` | include/jaal/kernel/kernel.hpp:668-716 | one message through update and its effects, recorded |
| `KernelLoop.Kernel.Interpret` | include/jaal/kernel/kernel.hpp:826-902 | interpreting a command tree recursively is the machine's run over its effect stack, cut at a quit |
| `KernelLoop.Kernel.InterpretAll` | include/jaal/kernel/kernel.hpp:843-847 | the loop over a batch of commands; a quit ends it |
| `KernelLoop.Kernel.Keyed` | include/jaal/kernel/kernel.hpp:1169-1198 | a keyed effect stops the run under its key and then starts the new one |
| `KernelLoop.Kernel.Reconcile` | include/jaal/kernel/kernel.hpp:938-1012 | re-subscribing when dirty is the machine's diff and its stops, keeps and starts in that order |
| `Mailbox.Mailbox.PostFrom` | include/jaal/kernel/mailbox.hpp:118-169 | accepted exactly when open, not retired and there is room or the oldest is evicted; blocks, refuses and counts by policy; the message is appended once |
| `Mailbox.Mailbox.PostOpen` | include/jaal/kernel/mailbox.hpp:122-163 | what an open mailbox does with a post, evicting at most its oldest entry |
| `Mailbox.Mailbox.Overflow` | include/jaal/kernel/mailbox.hpp:122-157 | the three overflow policies and their counters |
| `Mailbox.Mailbox.Evict` | include/jaal/kernel/mailbox.hpp:127-137 | the oldest leaves; compaction keeps the evicted prefix below the capacity and its moves paid by evictions |
| `Mailbox.Mailbox.Push` | include/jaal/kernel/mailbox.hpp:159-163 | the entry joins the end of the queue; the caller wakes exactly on empty to non-empty; the high-water mark follows |
| `Mailbox.Mailbox.Resume` | include/jaal/kernel/mailbox.hpp:152-156 | a blocked sender that gets the lock again enqueues only if open, not full and not retired |
| `Mailbox.Mailbox.DrainTagged` | include/jaal/kernel/mailbox.hpp:196-221 | everything queued leaves at once, in order, split into delivered and retired |
| `Mailbox.Mailbox.OpenOrigin` | include/jaal/kernel/mailbox.hpp:232-244 | a new origin, and nothing retired comes back |
| `Mailbox.Mailbox.Retire` | include/jaal/kernel/mailbox.hpp:249-256 | the origin leaves the live set; nothing retired comes back |
| `Mailbox.Mailbox.Close` | include/jaal/kernel/mailbox.hpp:275-283 | what was queued is discarded and no origin is live |
| `Mailbox.Mailbox.Accounted` | include/jaal/kernel/mailbox.hpp:314-322 | accepted = delivered + evicted + retired + discarded + queued, at any time; at most `capacity` live, less than twice that in the buffer; compaction moves at most the evictions |
| `Mailbox.DrainedAreLive` | include/jaal/kernel/mailbox.hpp:211-218 | a drain delivers each live entry as often as it was queued and none of a retired origin |
| `Mailbox.EraseRetired` | include/jaal/kernel/mailbox.hpp:211-217 | the filter loop keeps exactly the entries to be delivered, in order |
| `Mailbox.FatesPartition` | include/jaal/kernel/mailbox.hpp:85-91 | every message that left met exactly one fate |
| `MailboxWake.NextKeeps` | include/jaal/kernel/mailbox.hpp:159-169 | every step of senders and loop keeps the handshake's invariant |
| `MailboxWake.NoLostWake` | include/jaal/kernel/run.hpp:445-528 | whenever the loop is about to sleep or asleep with a message queued, the reactor has been woken or a counted-in sender still will; a false hint never hides a message |
| `MailboxWake.SleeperIsWoken` | include/jaal/kernel/mailbox.hpp:164-169 | from there at most two steps of one sender wake the reactor |
| `MailboxWake.ClosedIsQuiet` | include/jaal/kernel/mailbox.hpp:275-300 | once close() has returned, for the rest of the run no sender is in wake_() or on its way in or out, and none waits for room |
| `MailboxWake.BlockedMeansFull` | include/jaal/kernel/mailbox.hpp:150-154 | a sender sleeps on room_ only while there is no room or just before it is notified |
| `TimerHeap.PackRoundTrip` | include/jaal/kernel/timer_heap.hpp:225-235 | generation and index packed into 64 bits come back |
| `TimerHeap.StaleUntilWrap` | include/jaal/kernel/timer_heap.hpp:237-242 | a slot's generation comes back only after a whole multiple of 2^32 frees |
| `TimerHeap.StaleStaysOut` | include/jaal/kernel/timer_heap.hpp:237-250 | over any sequence of calls, an id whose timer was fired, cancelled or cleared names no timer again until its slot was freed a whole multiple of 2^32 times since |
| `TimerHeap.FreesGrow` | include/jaal/kernel/timer_heap.hpp:237-242 | a slot's free count never goes down, and grows whenever its timer leaves |
| `TimerHeap.CancelAfterFiring` | include/jaal/kernel/kernel.hpp:1190-1198 | cancelling the id of a one-shot that has fired leaves a timer armed since untouched |
| `TimerHeap.NewIdAfterCancel` | include/jaal/kernel/timer_heap.hpp:147-161 | a cancelled id is not given to the next timer |
| `TimerHeap.NewIdAfterClear` | include/jaal/kernel/timer_heap.hpp:196-207 | no id from before a clear is given to the next timer |
| `TimerHeap.SlotOfIsLookup` | include/jaal/kernel/timer_heap.hpp:244-250 | the slot table finds an id exactly when its timer is armed, at its position in the heap |
| `TimerHeap.RootIsLeast` | include/jaal/kernel/timer_heap.hpp:254-269 | heap order makes the root the earliest |
| `TimerHeap.Heap.SiftUp` | include/jaal/kernel/timer_heap.hpp:259-267 | restores the order above an entry that may be too early; positions and timers stay |
| `TimerHeap.Heap.SiftDown` | include/jaal/kernel/timer_heap.hpp:298-311 | restores the order below an entry that may be too late; positions and timers stay |
| `TimerHeap.Heap.Sift` | include/jaal/kernel/timer_heap.hpp:284-296 | restores the order around an entry that may go either way |
| `TimerHeap.Heap.NewId` | include/jaal/kernel/timer_heap.hpp:225-235 | an id no armed timer has, and one never handed out before unless its slot was freed 2^32 times |
| `TimerHeap.Heap.FreeId` | include/jaal/kernel/timer_heap.hpp:237-242 | the slot joins the free list with the next generation, counted as freed once |
| `TimerHeap.Heap.Push` | include/jaal/kernel/timer_heap.hpp:254-269 | one timer more, order and position agreement kept |
| `TimerHeap.Heap.PopRoot` | include/jaal/kernel/timer_heap.hpp:271-281 | the earliest timer less, order and position agreement kept |
| `TimerHeap.Heap.After` | include/jaal/kernel/timer_heap.hpp:123-126 | refines adding a one-shot to the map under a fresh id |
| `TimerHeap.Heap.Every` | include/jaal/kernel/timer_heap.hpp:129-134 | refines adding a repeating timer, its period at least one tick |
| `TimerHeap.Heap.ReplacePayload` | include/jaal/kernel/timer_heap.hpp:139-144 | changes one armed timer's message and nothing else; a stale id changes nothing |
| `TimerHeap.Heap.Cancel` | include/jaal/kernel/timer_heap.hpp:147-161 | removes exactly that timer, by swap-erase, and frees exactly its slot; a stale id touches nothing |
| `TimerHeap.Heap.FireOne` | include/jaal/kernel/timer_heap.hpp:180-190 | the earliest due timer fires; a repeating one is re-armed under its id, a one-shot's slot is freed |
| `TimerHeap.Heap.CollectDue` | include/jaal/kernel/timer_heap.hpp:179-192 | exactly the due timers fire, once each, in non-decreasing deadline order; only later deadlines are left; exactly the slots of fired one-shots are freed; it terminates |
| `TimerHeap.Heap.NextDeadline` | include/jaal/kernel/timer_heap.hpp:164-167 | the least deadline, or none |
| `TimerHeap.Heap.Clear` | include/jaal/kernel/timer_heap.hpp:196-207 | no timer is left, and every slot that held one is freed |
| `Clock.CastClamps` | include/jaal/kernel/timer_heap.hpp:60-76 | for units that are whole multiples of the tick the hand-checked conversion is the true product clamped to 64 bits |
| `Clock.WholeUnits` | include/jaal/kernel/timer_heap.hpp:60-76 | for those units no step of the conversion overflows |
| `Clock.FinerUnits` | include/jaal/kernel/timer_heap.hpp:67-74 | for units finer than the tick every duration but zero overflows in the guard |
| `Clock.PhaseKept` | include/jaal/kernel/timer_heap.hpp:184-187 | polled less than a period late every time, the n-th deadline is first + n periods: lateness never adds up |
| `Clock.RearmIffPrompt` | include/jaal/kernel/timer_heap.hpp:184-187 | a re-armed timer keeps its phase exactly when the poll was less than a period late; a longer stall fires once and resyncs |
| `Clock.TimeoutReaches` | include/jaal/kernel/timer_heap.hpp:97-109 | waiting the timeout out reaches the deadline at most a millisecond late; zero means due |
| `Headless.Advance` | include/jaal/host/headless.hpp:130-141 | on the clock and the heap: what is due fires at once; then every `every` fires exactly at its period boundaries in the window, a one-shot at its deadline; nothing due is left |
| `Headless.OncePerBoundary` | include/jaal/host/headless.hpp:127-129 | the n-th boundary lies in the window if and only if there was an n-th firing |
| `Headless.WindowFromStart` | include/jaal/host/headless.hpp:130-141 | if nothing was overdue at the start, the first poll counts as a boundary too |
| `Headless.BoundaryIsMultiple` | include/jaal/host/headless.hpp:127-129 | the n-th boundary is first + n periods, until the clock ends |
| `KernelTimers.EveryFiresAtBoundaries` | include/jaal/host/headless.hpp:127-141 | in any run of the kernel whose clock never passes its deadline, an `every` that each resubscription keeps fires at first, first + period, ..., once each and at that instant, whatever the folded messages do |
| `KernelTimers.StepMoves` | include/jaal/kernel/kernel.hpp:1077-1087 | no step of the kernel but firing it moves an armed timer's deadline |
| `OpenTable.ProbeIsScan` | include/jaal/kernel/reconcile.hpp:243-253 | for any hash function a lookup in a table built for the vector ends, stays in bounds and finds a key exactly when a scan would |
| `OpenTable.StaleFaults` | include/jaal/kernel/reconcile.hpp:243-253 | in a table built for a longer vector, looking for a dropped key past the new end reads out of bounds |
| `StaleTable.StaleIff` | include/jaal/kernel/reconcile.hpp:243-253 | looking keys up in a table of other keys: in bounds for every hash function iff the table's vector is no longer than the new one or every key asked for kept its place; right for every hash function iff every wanted key asked for kept its place and, if the table's vector is longer, all are wanted |
| `StaleTable.FindsStayed` | include/jaal/kernel/reconcile.hpp:243-253 | a key at the same place in both vectors is found, for every hash function and whatever else the table holds |
| `StaleTable.Misled` | include/jaal/kernel/reconcile.hpp:243-253 | any other key has a hash function for which looking it up reads out of bounds, or misses it |
| `StaleTable.OwnKeys` | include/jaal/kernel/reconcile.hpp:243-253 | asked for the table's own keys: in bounds means the new vector is as long, right means moreover that no common key moved |
| `StaleTable.MissedIffForward` | include/jaal/kernel/reconcile.hpp:243-253 | with keys hashed in order, a common key is missed exactly if it moved to the front |
| `StaleTable.AllSettled` | include/jaal/kernel/reconcile.hpp:230-240 | a hash function without collisions fixes the whole table |
| `OpenTable.Index` | include/jaal/kernel/reconcile.hpp:230-240 | builds a table for the vector, a power of two at load at most one half |
| `OpenTable.Insert` | include/jaal/kernel/reconcile.hpp:273-276 | adds the next index and stays a table for the longer vector |
| `OpenTable.Probe` | include/jaal/kernel/reconcile.hpp:243-253 | the loop, faults included |
| `OpenTable.Capacity` | include/jaal/kernel/reconcile.hpp:342-346 | the least power of two from 16 up at load one half |
| `Reconcile.RunningSources.WantHas` | include/jaal/kernel/reconcile.hpp:257-264 | says what a scan of want_ would, across the lazy build |
| `Reconcile.RunningSources.WantAdd` | include/jaal/kernel/reconcile.hpp:266-279 | appends, and the table follows across regrowth |
| `Reconcile.RunningSources.NextOrdinal` | include/jaal/kernel/reconcile.hpp:300-340 | the n-th timer of a base key gets ordinal n, across list, crossing and rehash |
| `Reconcile.RunningSources.TakeLeaf` | include/jaal/kernel/reconcile.hpp:283-298 | first occurrence wins, later ones are duplicates |
| `Reconcile.RunningSources.Gather` | include/jaal/kernel/reconcile.hpp:114-123 | after all leaves the wanted list and the duplicates are the plain ones, and the table was built exactly if a leaf met more than 16 wanted |
| `Reconcile.RunningSources.Reconcile` | include/jaal/kernel/reconcile.hpp:114-150 | keep, start and duplicates are always the exact differences, stop whenever the call is safe; otherwise stop is what the old table misses, and the call is in bounds exactly if that table's answers are; the running set becomes the wanted one |
| `Reconcile.SafeIff` | include/jaal/kernel/reconcile.hpp:127-143 | without duplicates, safe means: nothing runs, or more than 17 leaves, or at most 16 on both sides |
| `Reconcile.AnyHistory` | include/jaal/kernel/reconcile.hpp:136-143 | after any history of calls and for every hash function: in bounds if `BoundsFor`, the exact difference if `ExactFor`, two conditions on the last crossing Sub, the running sources and the wanted ones; if no call crossed, in bounds exactly if safe |
| `Reconcile.LargeThenShrunk` | include/jaal/kernel/reconcile.hpp:136-143 | after a large Sub, a small one that drops a source from a place past its own end reads out of bounds for every hash function |
| `Reconcile.LargeThenSmall` | include/jaal/kernel/reconcile.hpp:136-143 | right after a Sub that crossed the conditions are: both want 17 sources, and moreover no common source changed its place |
| `Reconcile.MisledByHash` | include/jaal/kernel/reconcile.hpp:136-143 | and only then: wherever a condition fails, a hash function for which the call reads out of bounds, or stops a source that it keeps |
| `Reconcile.SomeSourceMisleads` | include/jaal/kernel/reconcile.hpp:136-143 | the source that it takes exists whenever the condition fails |
| `Reconcile.KeptAndStopped` | include/jaal/kernel/reconcile.hpp:136-143 | seventeen streams with a duplicate and then the seventeen in reverse: nothing starts, all are kept, eight of them are stopped |
| `Reconcile.SeventeenIsUnsafe` | include/jaal/kernel/reconcile.hpp:257-261 | seventeen streams while anything runs are an unsafe call |
| `Subscriptions.StartsAndStopsAlternate` | include/jaal/kernel/reconcile.hpp:114-150 | over any run of calls each key's starts and stops alternate, and it is running if and only if its last event was a start |
| `Subscriptions.SameSubChangesNothing` | include/jaal/kernel/reconcile.hpp:114-150 | reconciling the same Sub again starts and stops nothing and keeps everything |
| `Subscriptions.ReconcileAll` | include/jaal/kernel/reconcile.hpp:114-150 | the diff with its tables makes those plans over any run of calls, stops included wherever the call is safe |
| `Subscriptions.PlannedAt` | include/jaal/kernel/reconcile.hpp:114-150 | that is, each single plan of the run |
| `Subscriptions.SameSources` | include/jaal/kernel/reconcile.hpp:168-176 | the loops compute: as many leaves as running, each leaf's key running |
| `Subscriptions.CollectKey` | include/jaal/kernel/reconcile.hpp:183-205 | numbers a leaf as take_leaf does |
| `Subscriptions.SameSourcesExactly` | include/jaal/kernel/reconcile.hpp:155-176 | true iff the plan would change nothing, for exactly the inputs without duplicates or without a coincidence of sizes |
| `Subscriptions.DuplicateLooksDifferent` | include/jaal/kernel/reconcile.hpp:168-176 | one stream named twice: nothing would change, and the answer is that something would |
| `SignalsInvariant.NextKeeps` | src/platform/posix/signals.cpp:68-93 | every step of handlers, install, take, release and the rest of the process keeps the invariant |
| `SignalsInvariant.SeeNobodyKeeps` | src/platform/posix/signals.cpp:197-202 | when release has seen nobody counted in, nobody holds its descriptor or can get it |
| `SignalsTheorems.NoWriteAfterClose` | src/platform/posix/signals.cpp:75-88 | whenever a handler writes, the number in its hand is the open write end of its own slot, never closed or reused |
| `SignalsTheorems.PendingIsReadable` | src/platform/posix/signals.cpp:231-242 | a pending bit comes with a readable pipe outside the handler's and take's windows |
| `SignalsTheorems.NoSignalLost` | src/platform/posix/signals.cpp:84-88 | a bit once set stays until a take returns it or the source is released |
| `SignalsTheorems.RestoresDisposition` | src/platform/posix/signals.cpp:124-144 | the last release restores the disposition that preceded the first install |
| `SignalsTheorems.InheritedIgnoreStays` | src/platform/posix/signals.cpp:167-176 | an inherited "ignore" of SIGINT, SIGTERM or SIGHUP survives any installs and releases |
| `WaitGraph.NextKeeps` | include/jaal/kernel/guarded.hpp:105-117 | every step keeps: held ranks strictly increase, held_top is the highest, a helper's waiters are its owner's and its owner |
| `WaitGraph.EdgeDecreases` | include/jaal/core/capability.hpp:129-146 | every wait-for edge goes down in one measure of kind and rank or birth |
| `WaitGraph.NoCycle` | include/jaal/kernel/waits.hpp:31-47 | in every reachable state the wait-for graph over locks, room waits and joins has no cycle |
| `WaitGraph.NoDeadlock` | include/jaal/kernel/scope.hpp:390-437 | from every unfinished thread the waits lead to one that runs or can end its own wait right now |
| `Pool.NextKeeps` | include/jaal/kernel/pool.hpp:508-531 | every step of posters, workers, isolated jobs and shutdown callers keeps the invariant |
| `Pool.RunsAtMostOnce` | include/jaal/kernel/pool.hpp:219-275 | every job begins at most once, and otherwise is with its poster, queued in one place, or dropped by a stopping pool |
| `Pool.ShutdownIsFinal` | include/jaal/kernel/pool.hpp:374-415 | once a call that waits for everything returned, first or repeated, no job runs and none ever begins |
| `Pool.IsolatedIsAsked` | include/jaal/kernel/pool.hpp:266-275 | in a stopping pool every running isolated job was asked to stop or its poster will ask it |
| `Quoting.QuoteArg` | src/platform/windows/process.cpp:355-376 | the loop with its backslash count writes the quoted form |
| `Quoting.JoinCommandLine` | src/platform/windows/process.cpp:378-385 | the loop writes all arguments, quoted, a blank between them |
| `Quoting.RoundTrip` | src/platform/windows/process.cpp:355-385 | parsing the joined line by the documented rules gives back every argument, for every list of arguments |
| `Quoting.AfterProgramIff` | src/platform/windows/process.cpp:378-385 | with the program name taken off by its own rule, the arguments after it come back if and only if it holds no quote |
| `Quoting.LoneQuote` | src/platform/windows/process.cpp:355-376 | the program `"` without arguments gains one |
| `Rng.MixInjective` | include/jaal/core/rng.hpp:34-39 | different states give different outputs |
| `Rng.OutputsDiffer` | include/jaal/core/rng.hpp:34-39 | any 2^64 consecutive outputs are distinct |
| `Rng.EveryWordOnce` | include/jaal/core/rng.hpp:34-39 | from any state 2^64 draws give every word exactly once |
| `Rng.RejectBound` | include/jaal/core/rng.hpp:42-48 | at most (2^64 - 1) mod n + 1 draws in a row are rejected |
| `Rng.Unbiased` | include/jaal/core/rng.hpp:44-45 | every residue has the same number of accepted words |
| `Rng.Generator.Next` | include/jaal/core/rng.hpp:34-39 | one draw, the state moved on |
| `Rng.Generator.Below` | include/jaal/core/rng.hpp:42-49 | the first accepted word modulo n; it terminates within that bound |
| `Rng.Generator.In` | include/jaal/core/rng.hpp:52-63 | within the bounds in either order, for 32- and 64-bit types; the full 64-bit range answers the lower bound |
| `Walk.WalkerIsExact` | include/jaal/core/walk.hpp:50-129 | on every finite type graph the walker accepts iff no rejected or opaque type is reachable, and its culprit is one that is |
| `Walk.CulpritOf` | include/jaal/core/walk.hpp:53-59 | a failure comes with a path to the culprit that keeps out of the types already on the stack |
| `Walk.PassIsClean` | include/jaal/core/walk.hpp:114-126 | a pass rules out every bad type that can be reached around the stack, although only the stack is remembered |
| `Timeline.ReplayFrom` | include/jaal/kernel/replay.hpp:77-96 | the loop computes the replay |
| `Timeline.ReplayEach` | include/jaal/kernel/replay.hpp:100-111 | every intermediate model, in order |
| `Timeline.Timeline.Build` | include/jaal/kernel/timeline.hpp:54-67 | one pass leaves a snapshot at every stride |
| `Timeline.Timeline.At` | include/jaal/kernel/timeline.hpp:73-85 | after any access sequence the plain fold of the first `to` messages, with at most stride - 1 folds; past the end an error |
| `Timeline.Timeline.FirstBad` | include/jaal/kernel/timeline.hpp:112-116 | the least failing step, for any predicate |
| `Timeline.Timeline.Bisect` | include/jaal/kernel/timeline.hpp:124-133 | a step where good turns bad, none iff the end is good, in at most 2 + log2 of the length checks |
| `Timeline.Timeline.TurnIsLeast` | include/jaal/kernel/timeline.hpp:118-121 | for a monotone predicate that step is the least bad one |
| `Timeline.LogBound` | include/jaal/kernel/timeline.hpp:118-133 | a run of at most 2^k messages needs at most k halvings |
| `Children.KeyOfInjective` | include/jaal/core/children.hpp:85-97 | different integer ids have different keys |
| `Children.Apart` | include/jaal/core/children.hpp:150-155 | prefixed names of slash-free ids agree only for the same child and name |
| `Children.CollideIff` | include/jaal/core/children.hpp:150-155 | two ids can collide if and only if one prefix begins with the other |
| `Children.SlashCollides` | include/jaal/core/children.hpp:85-88 | ids with slashes that collide |
| `Children.PrefixKeepsEffects` | include/jaal/core/child.hpp:80-98 | rewriting a command tree rewrites each effect's key and neither drops, adds nor reorders any; unkeyed work stays unkeyed |
| `Children.SliceIsAlone` | include/jaal/core/children.hpp:150-167 | however the children's effects are interleaved, each child's part of the key table is the table it would have alone |
| `Children.EveryKeyIsSomebodys` | include/jaal/core/child.hpp:80-98 | every key in the table is a non-empty name under some child's prefix |
| `Children.KernelFollows` | include/jaal/kernel/kernel.hpp:854-880 | interpreting one effect changes the kernel's keyed runs exactly as that table changes |
| `Children.RunMirrors` | include/jaal/kernel/kernel.hpp:826-902 | in every run of the kernel, up to shutdown, the keyed runs are the table of the effects interpreted so far |
| `Children.ChildIsAlone` | include/jaal/core/children.hpp:150-167 | a kernel with many children runs under one child's prefix exactly what a kernel with that child alone runs, timers as timers and tasks as tasks |
| `Children.Subscribe` | include/jaal/core/children.hpp:241-256 | every child's leaves in order, stream keys prefixed, empty children skipped |
| `Children.StreamsAreOwn` | include/jaal/core/child.hpp:64-76 | the streams that run for a child are the ones it asks for, whatever its siblings ask for |
| `Composition.CollectIsFires` | include/jaal/kernel/kernel.hpp:430-434 | collecting from the heap is a run of the kernel's fire steps, earliest first: same messages in the same order, same timers left, nothing else changed |
| `Composition.DrainIsUnretired` | include/jaal/kernel/kernel.hpp:414-416 | what the mailbox delivers is what the kernel's drain step queues |
| `KernelStore.NextTables` | include/jaal/kernel/kernel.hpp:375-453 | every step of the machine does one of the operations below to its tables, or nothing |
| `KernelStore.Store.Do` | include/jaal/kernel/kernel.hpp:1039-1198 | each start, keep and stop on the real heap and mailbox is the machine's, until a slot was freed 2^32 times |
| `KernelStore.Store.Stop` | include/jaal/kernel/kernel.hpp:1190-1198 | stopping a run retires its origin and cancels its timer; the id of a fired keyed `after` cancels nothing |
| `KernelStore.Store.Effect` | include/jaal/kernel/kernel.hpp:854-880 | an effect's part on heap and mailbox is the machine's |
| `KernelStore.Store.Resubscribe` | include/jaal/kernel/kernel.hpp:996-1000 | a safe call of the real diff and its operations are what the machine plans and does |
| `KernelStore.Store.Collect` | include/jaal/kernel/kernel.hpp:430-434 | collecting from the real heap is a run of the machine's fires |
| `KernelStore.Store.Post` | include/jaal/kernel/mailbox.hpp:118-169 | an accepted post is the machine's, evicting exactly if the mailbox was full; any other changes nothing |
| `KernelStore.Store.Drain` | include/jaal/kernel/kernel.hpp:414-416 | draining the real mailbox is the machine's drain |
| `KernelStore.Store.Shutdown` | include/jaal/kernel/kernel.hpp:1221-1241 | clearing heap and tables and closing the mailbox is the machine's shutdown |
| `KernelStore.NamedPut` | include/jaal/kernel/timer_heap.hpp:123-134 | arming under a new id keeps the heap and the machine's timers the same under their names |
| `KernelStore.NamedDrop` | include/jaal/kernel/timer_heap.hpp:147-161 | so does cancelling, of a live id or a stale one |
| `KernelStore.NamedRepay` | include/jaal/kernel/timer_heap.hpp:139-144 | so does replacing a message |

## Left out

- Faults: an exception from `update`, `subscribe` or a task, and the fault policies, are not modelled; runs are fault-free.
- `route` and the idle fast path of `step`: the machine allows drains, fires, folds and resubscriptions in any order between loop steps, which includes theirs.
- `subs_key` (skipping a resubscription when a key of the model is unchanged): taken to be absent.
- `timer_of_`, `streams_` and `tasks_` are one table with disjoint keys; the pool, taggers and stop tokens behind a run are not in the kernel's model.
- Host callbacks do not call back into the kernel; a host's own sources have no origin in the model, as in the source.
- The kernel's machine numbers timers without ever repeating; `KernelStore` discharges that for the heap's ids as long as no slot was freed 2^32 times. `Heap.CollectDue` and `Headless.Advance` need `now` below the end of the clock.
- `KernelLoop.Kernel` works on the machine's tables as values and `KernelStore.Store` on the real parts; one class holding both is not written out.
- Shutdown of the kernel is one step; the order of its parts is covered only by the mailbox and pool protocols.
- `Clock.CastClamps`: whole multiples of the tick; for ratios with both parts above one only `CastRatio` says what the source does.
- `Clock.Add`: as in the source only the upper end saturates; a negative delay that would pass the lower end of the clock is not modelled.
- Origins are unbounded numbers: the assertion at 2^64 origins is not reached. Ordinals are unbounded, not 32-bit.
- `pool`: which worker is idle only decides whether another is spawned, so spawning is a free choice below the maximum; abandoned workers after a deadline are only recorded as a caller that gave up.
- `SignalsTheorems.NoSignalLost`: begins where a handler has set the bit; a signal that arrives before a slot is published, or after it is unpublished, is not that slot's.
- `WaitGraph.NoDeadlock`: covers lock waits, mailbox-room waits and scope joins; a predicate wait (`wait_with`) depends on what user code makes true. Writer preference of the shared lock is not modelled, only who excludes whom.
- `Walk.WalkerIsExact`: for compilers that can see fields; the shallow fallback, which accepts any class, is not modelled.
- `Quoting.RoundTrip`: strings are sequences of characters without a terminator; with NUL inside an argument the system would see a shorter line.
- `Rng.Generator.In`: 8- and 16-bit types are promoted to `int` in the subtraction and are not modelled; nor are the floating-point draws and `split`.
- Clocked programs, timed recordings and field diffs in `replay.hpp` and `timeline.hpp`.
- `Children.SliceIsAlone`: about children; a parent that uses a key beginning with a child's prefix itself is not covered. Wrapping of messages and reports, `add` and `remove` are not modelled.
- `Headless.Advance`: the clock and the heap alone; what fired messages do is in `KernelTimers.EveryFiresAtBoundaries`.
- Weak memory, allocation failure, fairness and eventual progress: safety under sequential consistency only.
- Reactors, process spawning, executors, tracing, `debounce`, `throttle`, `stop_group`, `sim`, `given`, `explore`, `published` and `snapshot`: system calls, thin drivers or small pieces that would add only easy members.
