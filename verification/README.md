# Lysten: thread pool and dispatcher

A verified model of the two cores of Lysten: the thread pool (`src/lib/tpool.c`) and the server's event
dispatcher (`src/server.c`).

**The pool.** `RingBuffer` is the bounded queue as a value: a slot array with wrapping `front` and `back`, one slot
always free, and the full flag. `WorkerQueue` is the same structure updated in place, one method for each step
of `Monitor`. `Monitor` is a step system over any number of producers and workers at the granularity the code is meant
to have: "check full, then store" either stores or blocks in one step, counting and signalling are two steps, a
worker's check takes a token or sleeps, a dequeue is one step. `Fine` is the code as written: every lock, unlock,
wait, signal and unprotected read is a step of its own, waits may wake spuriously, `front` is read before the lock,
the flag is lowered after the queue lock is released, and the exit for an empty queue keeps that lock. Theorems
below are marked [M] or [F] for the reading they are about.

The two readings do not agree, and the model says exactly where:

- [F] runs in which the ring holds at most k tasks are first-in-first-out if and only if k <= 1, or one worker runs
  and k <= size - 2 (`FineRuns.FifoExactly`). In that regime every fine run is a monitor run
  (`FineRefinement.FineRefinesMonitor`), so the [M] safety results carry over, and a run that cannot go on has
  delivered everything (`FineProgress.SafeRunsDrain`). Every fine run ends, in any regime
  (`FineProgress.EveryFineRunEnds`).
- [F] as written, a lock cycle is reachable if and only if there is a producer: one producer and one worker suffice,
  because a worker can leave through the empty exit with the queue locked and then wait for its own lock
  (`FineRuns.LockCycleAsWritten`). With that exit repaired to release the lock, it takes two producers
  (`FineRuns.LockCycleRepaired`).
- [M] every run that cannot go on has delivered all tasks if and only if the producers are not contended: not two of
  them with something to add and at least size + 1 tasks in all (`SpaceWakeups.DrainExactly`). One producer never is.

**The dispatcher.** `Server` holds the kernel's view (open descriptors, those registered, those whose one-shot event
is armed, the timers and those of them that can still fire) and the three slabs, with the operations on them as
functions; `ServerTables` performs the same operations on arrays. `Dispatcher` is the step system: `epoll_wait`
batches, adding to the pool's ring, the timer sweep, hang-ups, accepts, the `new` case, and the `established` case
split into read, write, rearm and write-back, for any number of workers. Descriptor numbers are reused freely. Its
queue is atomic and hands each event out once; server theorems are marked [A] for that. `WholeServer` puts the
dispatcher over the pool as written, with the event loop as its producer, and shows that in the pool's safe regimes
the two together are the [A] dispatcher (`WholeServer.WholeRefines`, marked [F]) and never stuck while they have work
(`WholeRuns.WholeNeverStuck`). `Stories` tells from the labels of a run alone what was read from a descriptor, answered
and relayed to it, and shows that the state's log is just that; `Conversations` says what a connection can be told.

What a hang-up or a sweep can spoil is stated exactly as well:

- A run is *kill-safe* if no hang-up that closes a client does so while a worker holds a copy of it. Kill-safe runs
  keep the slab pairing and the handshake gate. After any other such hang-up the pairing can be broken without a
  further one (`StaleCopies.MispairedExactly`), and, exactly if there is a second worker, a connection that never
  sent the secret can get an established slot of its own (`Entries.ForgedExactly`). `StaleRuns.WorkersNeeded` has
  runs from the start for both, and for a single worker that takes an unauthenticated connection for established.
- A run is *quiet* if moreover hang-ups and sweeps close only descriptors that are armed at that moment (besides the
  one whose event they handle). That is exactly when every one-shot token stays in one place (`Tokens.QuietExactly`);
  `TimerRuns.SweepStrandsEvent` is a run in which one does not.
- A timer is reported once. It can close its silent connection until a sweep that reports it gives up at or before it
  (`Timers.TimerKeptExactly`); after that the connection stays (`Timers.UnwatchedStays`). A refused client is enough
  to bring that about (`TimerRuns.RefusalCostsTimer`).

All step systems have the same shape: `Enabled(s, l)` and `Apply(s, l)` for a labelled step, `CanRun` and `Exec` for a
sequence of labels, so a theorem over every label sequence from an initial state is a theorem over every run. The
counters of the pool stay below the ring size (`PoolTheorems.EveryRunIsFifo`), so 32-bit wrap-around cannot occur.

Where comments in the source and the code differ, the code is followed: the comment at src/server.c:402-405 says the
timer is deleted once the protocol is complete, but no code deletes it; the sweep looks at the client's state instead.

## Model

| member | source | states |
|---|---|---|
| RingBuffer.ContentsAt | src/lib/tpool.c:32-38 | queued task k is in slot (front + k) mod size |
| RingBuffer.StoreAppends | src/lib/tpool.c:126-143 | a store appends to the queue if and only if the ring was not full; on a full ring it makes the ring look empty |
| RingBuffer.DropTakesHead | src/lib/tpool.c:276-289 | a dequeue removes exactly the oldest task and leaves room |
| WorkerQueue.WorkerQueue.constructor | src/lib/tpool.c:193-204 | four slots for each thread, empty, flags down: any initial pool state with that ring is mirrored |
| WorkerQueue.WorkerQueue.AddTaskToQueue | src/lib/tpool.c:126-147 | the in-place store is the ring's store, appends when there is room, and keeps the flag exact |
| WorkerQueue.WorkerQueue.TryAdd | src/lib/tpool.c:93-103 | [M] carries out the pool's add step; it stores exactly when fewer than size - 1 tasks are queued |
| WorkerQueue.WorkerQueue.CountTask | src/lib/tpool.c:111-117 | [M] carries out the pool's count step |
| WorkerQueue.WorkerQueue.TakeToken | src/lib/tpool.c:241-249 | [M] carries out a worker's check: a token, or sleep |
| WorkerQueue.WorkerQueue.Dequeue | src/lib/tpool.c:259-294 | [M] carries out the pool's dequeue step: returns and removes the oldest task; keeps the lock exactly when the ring is empty; signals exactly when the flag was up |
| Monitor.StepInv | src/lib/tpool.c:86-166 | [M] each step of any thread keeps: dequeued then queued tasks equal stored tasks; occupancy equals ready tokens plus uncounted stores plus tokens held; the flag is 1 exactly when full; jobs run once for each nonzero dequeue; the lock is never kept |
| Monitor.HolderFindsTask | src/lib/tpool.c:248-274 | [M] a worker with a token never finds the ring empty, so the exit that keeps the lock is unreachable |
| PoolTheorems.EveryRunIsFifo | src/lib/tpool.c:126-143 | [M] in every reachable state, for any producers and workers: order kept, nothing lost or repeated, flag exact, occupancy and counter at most size - 1, lock never kept |
| PoolTheorems.StoreHitsFreeSlot | src/lib/tpool.c:129-134 | [M] no store lands on an undelivered slot |
| PoolTheorems.SettledMeansDelivered | src/lib/tpool.c:240-254 | [M] for any number of producers, when at most adds are possible all workers sleep, the ring is empty and everything stored was taken |
| PoolTheorems.SoloSpaceWakeup | src/lib/tpool.c:149-166 | [M] a lone producer waits only while the flag is 1 and size - 1 tasks are queued, and the next dequeue lowers the flag and wakes it |
| PoolTheorems.SoloNeverStuck | src/lib/tpool.c:233-257 | [M] with one producer, a reachable state with an undelivered task, a pending add or a working thread can step |
| PoolTheorems.RankFalls | src/lib/tpool.c:86-124 | [M] a rank falls on every step but a spurious wake-up, for any number of threads |
| PoolTheorems.EveryRunEnds | src/lib/tpool.c:86-124 | [M] n tasks, P producers and W workers: no run without spurious wake-ups is longer than 8n + P + W |
| PoolTheorems.SpuriousIsHarmless | src/lib/tpool.c:149-165 | [M] a thread woken by chance tests again: with the flag up, or without a token, one step brings back the whole state it slept in; otherwise that step stores its task or takes the token (241-249) |
| PoolTheorems.SoloDrain | src/lib/tpool.c:233-257 | [M] one producer: a run that cannot go on took all tasks in order and ran each nonzero task's job as often as it was added, all workers asleep |
| SpaceWakeups.SpaceLostExactly | src/lib/tpool.c:279-289 | [M] a producer can be left waiting beside a free slot if and only if two producers have tasks and there are at least size + 1 tasks |
| SpaceWakeups.DrainExactly | src/lib/tpool.c:149-166 | [M] every run that cannot go on delivered every task and ran its job exactly once, if and only if the producers were not contended |
| Fine.FlagIsZeroOrOne | src/lib/tpool.c:136-164 | [F] any producers and workers: the flag is 0 or 1, and from its last flag test to its raise a producer owns the queue lock with the flag down |
| Fine.WaitsOnlyForFlag | src/lib/tpool.c:155-164 | [F] any producers and workers: a producer lets the queue go to wait only while the flag is 1; a lone producer sleeps for space only while the flag is 1 or a worker is about to signal it |
| FineRuns.WokenProducer | src/lib/tpool.c:155-164 | [F] any producers and workers: a producer woken for space, the locks being free, gets to its store by its own steps if the flag is down, and back to waiting if it is up |
| FineRuns.SpuriousSpaceWakeup | src/lib/tpool.c:155-164 | [F] any producers and workers: a producer woken by chance, the locks being free, gets to its store by its own steps if the flag is down; if it is up, it is asleep again and the whole state is what it was |
| FineRuns.WokenWorker | src/lib/tpool.c:241-249 | [F] a worker woken for a task, by a signal or by chance, takes a token by its own steps if there is one, and is asleep again if there is none |
| FineRuns.SpuriousTaskWakeup | src/lib/tpool.c:243-249 | [F] a worker woken by chance without a token is asleep again and the whole state is what it was |
| Fine.WakeupsConserveWork | src/lib/tpool.c:111-124 | [F] any producers and workers: while a worker sleeps, ready tasks are at most workers awake at the check plus producers that counted and have not signalled |
| Fine.SoloNoLockCycle | src/lib/tpool.c:152-164 | [F] with at most one producer and the empty exit repaired to release, no cycle of lock waits is reachable |
| FineRefinement.FineRefinesMonitor | src/lib/tpool.c:259-294 | [F] in the safe regimes every run of the code as written is a monitor run; it is first-in-first-out and never takes the empty exit |
| FineRuns.TwoWorkersTakeOneTask | src/lib/tpool.c:262-266 | [F] for every ring size, with the empty exit as written or repaired: two workers that read `front` before either locks take the same task, and another is left behind |
| FineRuns.WorkerErasesFlag | src/lib/tpool.c:280-287 | [F] for every ring size, with one producer and one worker and the empty exit as written or repaired: a late flag update erases the full flag and the next store loses a ring of tasks |
| FineRuns.FifoExactly | src/lib/tpool.c:259-294 | [F] for every ring size, worker count and occupancy bound k, with the empty exit as written or repaired: all runs are first-in-first-out if and only if k <= 1, or one worker and k <= size - 2 |
| FineRuns.TwoProducersDeadlock | src/lib/tpool.c:158-161 | [F] for every ring size: with two producers a reachable state has each waiting for the other's lock, without a spurious wake-up |
| FineRuns.OneProducerDeadlocks | src/lib/tpool.c:266-274 | [F] for every ring size: with one producer and one worker a reachable state has the worker waiting for the queue lock that it kept itself |
| FineRuns.LockCycleAsWritten | src/lib/tpool.c:266-274 | [F] for every ring size and worker count: a lock cycle is reachable if and only if there is a producer |
| FineRuns.LockCycleRepaired | src/lib/tpool.c:93-161 | [F] with the empty exit repaired to release, if and only if there are at least two |
| FineProgress.FineRankFalls | src/lib/tpool.c:86-294 | [F] a rank falls on every step but a spurious wake-up, for any number of threads, in any regime |
| FineProgress.EveryFineRunEnds | src/lib/tpool.c:86-294 | [F] n tasks, P producers and W workers: no run without spurious wake-ups is longer than 38n + 5P + 3W |
| FineProgress.SafeRunsDrain | src/lib/tpool.c:233-294 | [F] in the safe regimes a run that cannot go on has delivered every task in order and run its job exactly once, workers asleep and no lock held |
| Handshake.AcceptsExactly | src/server.c:450-474 | a first message passes if and only if it is the secret, alone or followed by a NUL and anything |
| ServerTables.ServerTables.AcceptNewClient | src/server.c:574-582 | the new slot, its entry, the timer's entry, and the two new descriptors, one armed in each unit; nothing else changes |
| ServerTables.ServerTables.GreetClient | src/server.c:258-274 | the `new` case on the arrays: "<ok>", the PTY and an established slot exactly for the secret; otherwise "<error>", or nothing if the read failed, the close, and the old copy back |
| ServerTables.ServerTables.StoreCopy | src/server.c:304-310 | the slot is the copy, both entries lead to it, and nothing else changes; a copy of number 0 changes nothing |
| ServerTables.ServerTables.KillClient | src/server.c:584-608 | 1 exactly when both descriptors are registered: then both are closed, both entries null, the slot's number -1 with PTY and state kept, and nothing else changes; otherwise nothing is closed and no slab changes |
| ServerTables.ServerTables.HandleTimerEpollLoop | src/server.c:203-234 | the sweep's loop on the arrays is the sweep operation, after the one-shot timers it was given are disarmed |
| Dispatcher.StepSlabs | src/server.c:236-312 | [A] every step that kills no client with a copy outstanding keeps the slab, gate and kernel invariant |
| Dispatcher.SweepKeepsTables | src/server.c:203-234 | a sweep of any timers closes nothing of an established client and keeps the tables consistent |
| Sweeps.SweepCompletesExactly | src/server.c:216-232 | a sweep gets to its end if and only if each due timer of a stalled connection finds it still registered, first to do so |
| Sweeps.SweepClosesExactly | src/server.c:216-232 | a sweep closes the timers it gets past and the stalled connections they watch, and nothing else |
| ServerTheorems.SlabPairing | src/server.c:304-310 | [A] kill-safe runs with descriptor reuse: a non-null entry f leads to slot s with sock_fd s and f equal to s or its PTY; peers of established clients swap, and pairs are disjoint |
| ServerTheorems.HandshakeGate | src/server.c:258-274 | [A] kill-safe runs, told from the labels: a `new` connection was sent the greeting only and relayed nothing; an established one gave the secret since its accept and was sent greeting and acknowledgement first; every open PTY belongs to an established client |
| Stories.LogIsStory | src/server.c:626-663 | [A] every run: what is logged of a descriptor is what the labels say was read from it, answered and relayed to it since it was opened |
| Conversations.GreetExactly | src/server.c:258-274 | [A] the step that reads a first message: the slot becomes established if and only if the message is the secret, alone or followed by a NUL and anything; both outcomes in full |
| Conversations.ToldExactly | src/server.c:249-274 | [A] kill-safe runs, from accept until the number is reused: the greeting only before a message; greeting and "<ok>" first after the secret; greeting and "<error>" and nothing else, and closed, after another message; greeting only, and closed, after a failed read |
| Conversations.EstablishedGaveSecret | src/server.c:258-274 | [A] kill-safe runs: each connection established at the end has, since its last accept, a greeting of its own with the secret |
| Conversations.RelayTask | src/server.c:275-281 | [A] an undisturbed relay task moves exactly its chunk to the peer, arms its descriptor again, and changes nothing else |
| Conversations.WriteEstablishes | src/server.c:652-662 | [A] in any state a write sends the handler's chunk and marks the slot established, whoever has it by then |
| Entries.KilledStaysUnclaimed | src/server.c:604-606 | [A] every run: until its number is accepted again or a copy of it is written back, a killed client's slot claims no number and no entry leads through it |
| StaleCopies.MispairedExactly | src/server.c:246-310 | [A] after a hang-up that closes a client, in any kill-safe run, some run without further hang-ups breaks the pairing (or the pairing or the gate) if and only if a worker holds a copy of the client |
| Entries.ForgedExactly | src/server.c:246-310 | [A] it can give a connection that never sent the secret an established slot of its own if and only if a worker holds a copy and there is a second worker |
| StaleRuns.MispairingRun | src/server.c:584-608 | [A] for every ring size, table of seven or more and number of workers: a run from the start to mispaired tables |
| StaleRuns.BypassingRun | src/server.c:275-310 | [A] likewise, with one worker: a run from the start after which process_task takes for established a connection that never sent the secret |
| StaleRuns.ForgingRun | src/server.c:304-306 | [A] likewise, with two workers: a run from the start to such a connection with an established slot of its own |
| StaleRuns.WorkersNeeded | src/server.c:236-312 | [A] mispaired tables, and a connection taken for established without the secret, are reachable if and only if there is a worker; a forged slot if and only if there are two |
| Entries.TimersSpareEstablished | src/server.c:216-232 | [A] every run, hang-ups at any time: no sweep closes a connection or PTY that the slab says is an established client's, whatever fired and whatever the timer slab holds |
| Tokens.QuietExactly | src/server.c:507-543 | [A] a kill-safe step keeps every registered descriptor in exactly one place if and only if the other end of the client it kills, and the stalled connections of the timers it gets past, are armed before it |
| TimerRuns.SweepStrandsEvent | src/server.c:216-226 | [A] a run from the start in which a sweep closes a connection whose event is queued, so that its token is left without a registration |
| ServerTheorems.OneTokenEach | src/server.c:166-197 | [A] quiet runs: every registered descriptor is armed, in the batch, in the ring, or with one worker, and no worker starts on a descriptor without a client |
| ServerTheorems.PoolNeverBlocks | src/server.c:192-196 | [A] quiet runs: ring occupancy is at most the pooled descriptors; with at most size - 2 the full flag is never up, with at most size - 1 the event loop never waits |
| ServerTheorems.RelayInOrder | src/server.c:626-663 | [A] quiet runs: bytes written to a client's PTY plus the chunk in flight are the chunks of the run's reads from its connection since its accept, in order; its connection got greeting, acknowledgement, then the chunks of the reads from its PTY |
| WholeServer.WholeRefines | src/server.c:166-197 | [F] with the ring in a safe regime, every run of the dispatcher over the pool as written, quiet outside the pool, is a quiet run of the [A] dispatcher, so each event added is taken once and in order |
| WholeRuns.WholeNeverStuck | src/server.c:157-199 | [F] in every whole run in a safe regime, with two descriptor numbers free: as long as an event is queued or a worker has a task, some step quiet outside the pool is possible |
| WholeRuns.AcceptingRun | src/server.c:249-254 | [F] for every ring size, worker count and table of five or more: a run of the whole server from its start to an accepted connection |
| Timers.TimesOutExactly | src/server.c:400-448 | [A] a silent connection can be closed by a sweep of timers that can fire if and only if one of them was set for it |
| Timers.TimerKeptExactly | src/server.c:434-439 | [A] quiet runs: as long as a connection is registered and has not greeted, the timer set at its accept can still fire if and only if no sweep since reported it and gave up at or before it |
| Timers.UnwatchedStays | src/server.c:203-234 | [A] a silent connection without a timer that can fire stays open over every kill-safe run in which it neither greets nor hangs up |
| Timers.RefusedClientStopsSweep | src/server.c:221-224 | the timer of a refused client makes the sweep give up, closing nothing, and disarms for good all timers reported with it |
| TimerRuns.RefusalCostsTimer | src/server.c:264-267 | [A] for every ring size, table of eight or more and number of workers: a quiet run from the start to a silent connection whose timer was lost that way, and which stays |

## Left out

- Sockets, PTYs, fork and exec, epoll and timerfd calls: nondeterministic steps of a kernel that hands out any descriptor number not open; a timer may fire at any point, once.
- Hang-ups and errors are reported for connections and PTYs only, not for the listening socket or the timer unit.
- Failed accepts, PTYs and forks, and descriptors beyond the slabs: descriptors are in range and these calls succeed. A read after the handshake may fail; one that returns EAGAIN, and then writes, is not modelled.
- The `unwritten` and `terminated` states (src/server.c:282-297, 639-661): end of file, failed and partial writes are not modelled, so relayed writes are complete.
- Other workers' steps inside the `new` case, an accept or a sweep: each is one step. Three windows are hidden by that. A PTY is registered at src/server.c:391 before its entry is made at line 308. A client in the middle of its handshake is `new` in the slab until line 305, so a sweep between lines 221 and 225 can close it. A connection is registered at line 338 before it is greeted at line 252, so `<ok>` can precede `<rembash>`.
- Dispatcher.SweepKeepsTables, Entries.TimersSpareEstablished: about a sweep as one step; see the windows above.
- Line 307 of src/server.c is read as "a PTY exists": the code also passes the value -1, which would write before the slab.
- ServerTables.ServerTables.StoreCopy: takes line 307 in that reading.
- process_task on a descriptor with a null slab entry uses uninitialised variables; it is taken to do nothing. OneTokenEach shows that quiet runs never come to it.
- A descriptor stays open for the kernel when a child process inherited it; closing is taken to remove it from epoll at once.
- The [A] theorems assume a queue that hands every event out once, in order. The pool as written is not one outside its safe regimes (FineRuns.TwoWorkersTakeOneTask); WholeServer.WholeRefines discharges the assumption inside them.
- WorkerQueue.WorkerQueue.TryAdd: the wait inside `check_if_full` is the blocked outcome here; waiting itself is in the step systems.
- WorkerQueue.WorkerQueue.Dequeue: the monitor reading; the code reads `front` before it locks and lowers the flag in a second critical section, which is in `Fine`.
- Fine.SoloNoLockCycle: needs the repaired empty exit; as written FineRuns.LockCycleAsWritten shows it false.
- ServerTheorems.SlabPairing, ServerTheorems.HandshakeGate: outside kill-safe runs they fail, as StaleCopies.MispairedExactly says.
- ServerTheorems.RelayInOrder: assumes complete writes, because the retry path writes a buffer that the failed chunk was never copied into.
- FineRefinement.FineRefinesMonitor: says nothing outside the safe regimes, where FineRuns.FifoExactly shows it to be false.
- `src/client.c`, the programs under `old/`, debug printing, Makefiles and scripts.
