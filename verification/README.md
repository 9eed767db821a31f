# Verification of the gts core

A Dafny model of the parts of gts where a mistake would be hardest to see: the goroutine pool, the
Snowflake generator, the TLV framing with its sending and receiving ends, and the way from a frame
on a socket to the three calls of a router. `dafny verify dfyconfig.toml` checks everything.

## How it is built

**The pool is a state machine.** `PoolMachine` has one action for each atomic step of a goroutine:
an access to an atomic variable, a lock section, a mailbox send or receive, a signal. Submissions,
worker objects, `Tune` calls and pending exits are unbounded in number, and any interleaving is a
run. `GPool` and `GPoolWithFunc` are the same protocol, so a task is just a number; a submitted nil
is the message that ends a worker, as in the code.

| actions | source |
|---|---|
| `Call`, `Enter` | pool/gpool.go:207-210 |
| `Retrieve` (first lock section) | pool/gpool.go:49-62 |
| `Get`, `Run` (spawn, after the unlock) | pool/gpool.go:44-47, pool/worker.go:24-25 |
| `Retry` (after a wake-up) | pool/gpool.go:63-79 |
| `Send` | pool/gpool.go:211-213, pool/worker.go:58-60 |
| `Receive`, `Return`, `Panic` | pool/worker.go:37-41 |
| `Check`, `Decline`, `Insert` | pool/gpool.go:84-105 |
| `Decrement`, `Put`, `Signal` (deferred exit) | pool/worker.go:27-35 |
| `Tick`, `StopPurge`, `Refresh`, `FinishOne`, `EndPurge` | pool/gpool.go:227-258 |
| `Close`, `Reset`, `CloseBroadcast` | pool/gpool.go:161-170 |
| `Reboot` | pool/gpool.go:173-180 |
| `TuneLoad`, `TuneStore`, `TuneWake` | pool/gpool.go:183-196 |

**The objects are classes.** `WorkerStack` keeps its items and its expiry list in arrays and runs
the binary search, the shift and the clearing loops in place. `GPool` has the counters and that
stack, and each of its methods is proved to take exactly one step of the machine, so what is proved
of the machine holds of the object. `GoWorker` has the one-slot channel; its sends are proved to
find the slot free. `SnowflakeGenerator`, `SpinLock`, `DataPack`, the connections and `MsgHandle`
are classes too, proved against functions or machines about which the whole-run results are stated.

**Files.** `Sums` (counting), `PoolMachine`, `PoolInvariant` (what every step keeps), `PoolWork`
(exactly once), `PoolWakeup`, `PoolDrain`, `PoolCapacity`, `PoolRuns` (building runs step by step),
`PoolOvershoot`, `PoolGrain` (the wait in two steps), `PoolExact` (exact conditions, with runs that
break the property where they fail), `PoolRescue` (what a lost wake-up costs), `PoolAlone` (what each
operation does when nobody steps in between, and closed pools over all runs), `WorkerStack`, `GPool`,
`GoWorker`, `SpinLock`, `Snowflake`, `Codec`, `Framing`, `Wire`, `Dispatch`, `EndToEnd` (safety of the
whole server, over the pool with the wait in two steps), `InTurn` (one request of a connection at a
time), `Completion` (nothing is forgotten).

**Main results.** `PoolWork.ExactlyOnce` and `PoolWork.OnePlace` (no task lost or doubled, no worker
in two places), `PoolGrain.NoLostWakeup` and `PoolGrain.NoDeadlock` with their exact conditions in
`PoolExact` and the price of a lost wake-up in `PoolRescue.StrandedOnlyWhenEmpty`, `PoolDrain.WorkEnds`
(whatever is under way in the pool, open or closed, comes to an end) and `PoolDrain.Drained`,
`PoolAlone.ClosedPoolRefuses`, `PoolCapacity.Capacity` with `PoolOvershoot.BoundIsReached`,
`WorkerStack.SortedExact`, `Snowflake.Increasing`, `Snowflake.NewNeverCollide` and
`Snowflake.IdRangeExact`, `Framing.ParseInChunks`, `Wire.PeerReceivesInOrder` with `Wire.EverySendOnce`,
`EndToEnd.HandledInOrder`, `InTurn.OneAtATime`, and
`Completion.EveryScheduleHandlesAll`: as long as the pool is not released, every schedule of readers,
workers, handlers, ticks and Tune calls ends within a bound, and a server without a step left has
handled every request of every stream once if and only if no submission waits in its pool. That is
so if no wake-up was lost; otherwise the pool is empty, every round of the ticker gets another call
accepted, and `Completion.RoundsHandleAll` says that rounds enough for all calls handle everything.

## Where the code does less than one would hope

Each of these is a theorem, with the exact condition where there is one.

- A purge takes one worker more than the stale ones whenever there is one: only stale workers go if
  and only if all of them are stale (`WorkerStack.OnlyStaleGo`).
- A submission that found no room holds the lock until it is in the notify list, but a worker that
  leaves, or a `Tune`, does not take the lock. If places become free between the check and the entry,
  their signals go to nobody and the submission waits in vain. Entering is safe if and only if the
  check would still find the pool full (`PoolExact.EntryExact`); for every capacity and every smaller
  number of workers left there is a run to a lost wake-up (`PoolExact.LateEntryLosesAWakeup`), and for
  every capacity one after which the open pool has come to rest with a submission waiting
  (`PoolRescue.LateEntryStrands`). That happens only when all workers have left
  (`PoolRescue.StrandedOnlyWhenEmpty`), and the next round of the purger wakes everybody
  (`PoolRescue.RoundWakesAll`).
- `Tune` can lose a wake-up. A `Tune` that stores is safe if and only if the capacity has not been
  lowered below the one it had read, or the new one is no larger than the present one
  (`PoolExact.TuneStoreExact`); in every other case two overlapping calls reach a state in which
  places are free, a submission waits and too few signals are owed
  (`PoolExact.OverlappingTunesLoseAWakeup`).
- `Reboot` can strand submissions that first waited after the broadcast of `Release`; it is safe if
  and only if nobody waits (`PoolExact.RebootExact`), for every capacity and every number of waiting
  submissions (`PoolExact.RebootStrandsWaiters`).
- The capacity is overshot by up to n - 1 with n concurrent calls, and for every capacity and every
  n there is a run that does so (`PoolCapacity.Capacity`, `PoolOvershoot.BoundIsReached`).
- The time stamp of a reverted worker is taken before the lock. An insert leaves all later purges
  clean if and only if its stamp is not before the one on top of the stack (`WorkerStack.InsertExact`),
  and over whole runs the stack stays sorted if and only if all inserts are like that
  (`WorkerStack.SortedExact`); otherwise a purge takes a fresh worker and keeps a stale one
  (`WorkerStack.OutOfOrderKeepsStale`).
- `NewSnowflakeGenerator` does not check its ids. Over all integers, the words of a pair of ids are
  unique if and only if both are in 0..31 or all that is left of them beyond their fields is the sign
  bit (`Snowflake.IdRangeExact`). Other ids issue the words of ids in range (`Snowflake.RunsOver`), or
  cover bits of the time, so that milliseconds share their words (`Snowflake.TimeIsLost`). `NextVal`
  checks neither the epoch nor a clock that steps back: ids issued before the epoch are greater than
  all others, and the next id is greater if and only if the reading is not before the stored one
  (`Snowflake.BeforeEpochIsGreater`, `Snowflake.ClockStepExact`).
- `Unpack` gives back what `Pack` was given if and only if the length field matches the data and is
  within the limit; `NewMsgPackage` truncates the length of data of 4 GiB and more
  (`Codec.UnpackOfPack`, `Codec.PackageFits`, `Codec.SentIsReceived`).

## Assumptions

- In `PoolMachine` the capacity check, the waiting count and the entry into the notify list of the
  condition are one step (pool/gpool.go:53-62, 70-76), although the decrement of `running` with its
  signal, and the store of a `Tune` with its signal (pool/gpool.go:188-194), do not take the lock and
  can fall between them. `PoolGrain` makes them two steps; the results on wake-ups, deadlock and the
  whole server are about that grain, and `PoolGrain.FineRunKeeps` carries the invariant over to it. Each
  guard that reads several atomics (`Cap`, `Running`, `IsClosed`) is one step, and so is the lock
  section of the purger with its read of `running`.
- `Signal` may wake any waiter; the real notify list is first in, first out.
- One purger is alive: `Reboot` opens a closed pool only after its purger has left.
- `Get` of the object cache gives any cached object or a new one, and `New` allocates a fresh one.
- The capacity is at least 1. Tasks terminate (for the drain results) or panic.
- The wall clock is a parameter: any function from readings to milliseconds. The 64-bit Snowflake
  word is exact; the time difference does not overflow.
- A write error of a connection and the `Stop` that follows are one step. The bytes of an incomplete
  frame count as unread until the frame is complete, since `ReadFull` has consumed them but nothing
  has seen them.

## Model

| member | source | states |
|---|---|---|
| PoolInvariant.StepKeeps | pool/gpool.go:43-216 | every step of any goroutine keeps: each worker object in one place, a full mailbox only at a receiving worker, `running` and `waiting` exact, accepted tasks conserved, an empty stack once a closed pool is reset |
| PoolInvariant.RunKeeps | pool/gpool.go:43-258 | the same over runs of any length |
| PoolInvariant.Start | pool/gpool.go:107-131 | a new pool of any capacity from 1 meets the invariant |
| PoolInvariant.RefIsIdle | pool/worker.go:50-60 | whoever may send to a worker (stack, purge list, submission) finds it receiving with an empty channel |
| PoolInvariant.GotIsTaken | pool/gpool.go:44-47 | an object taken from the cache and not yet run belongs to that submission only and has no goroutine |
| PoolInvariant.WorkerMoves | pool/worker.go:24-35 | the only steps that change the number of live goroutines are the start and the decrement, and `running` moves with them |
| PoolInvariant.QueueMoves | pool/gpool.go:58-79 | exactly how each step moves the numbers of waiters, woken submissions and spawns in progress |
| PoolInvariant.OthersOnlyWake | pool/gpool.go:84-105 | no step of a worker, the purger or a control call does anything to submissions but wake none, one or all of the waiting ones |
| PoolInvariant.SignalChanges | pool/gpool.go:101 | a signal wakes exactly one waiter if there is one |
| PoolInvariant.NotifyAllChanges | pool/gpool.go:169 | a broadcast leaves no waiter, wakes each of them and moves nothing else |
| PoolInvariant.FinishAllChanges | pool/workerqueue.go:89-95 | the finish loop of the reset fills exactly the mailboxes of the idle workers with nil and loses no task |
| PoolWork.ExactlyOnce | pool/gpool.go:207-216 | over every run, the accepted non-nil tasks are, as multisets, those in mailboxes plus those started |
| PoolWork.OnceByInvariant | pool/gpool.go:211-215 | a task submitted by one call is mailed or started once if the call was accepted, and never if it was rejected |
| PoolWork.SendsNeverBlock | pool/worker.go:50-60 | over every run no input and no finish blocks, and cached objects hold no stale message |
| PoolWork.OnePlace | pool/gpool.go:42-105 | over every run each worker object is in exactly one of: cache, a submission's hands, idle stack, purge list, full mailbox, under way |
| PoolWork.ExecutingMoves | pool/worker.go:37-46 | a task begins executing by a receive and ends by its return or panic, and by nothing else |
| PoolWork.CommittedRun | pool/gpool.go:207-215 | a call told to spawn or given a worker is never rejected afterwards, even across a Release |
| PoolExact.TuneStoreExact | pool/gpool.go:183-196 | over all states that calm runs reach, the capacity rising or falling, the store of a Tune loses no wake-up if and only if the capacity it read is not above the present one or its size is not |
| PoolExact.OverlappingTunesLoseAWakeup | pool/gpool.go:183-196 | for every other capacity, size and present capacity: a reachable state in which that store leaves more free places than signals owed, with a submission waiting |
| PoolExact.RebootExact | pool/gpool.go:173-180 | over all states that calm runs reach, the capacity rising or falling, a Reboot loses no wake-up if and only if nobody waits |
| PoolExact.RebootStrandsWaiters | pool/gpool.go:161-180 | for every capacity and every number of waiting submissions: a reachable closed state whose Reboot leaves them waiting with a free place and no signal owed |
| PoolGrain.FineRunKeeps | pool/gpool.go:53-62 | with check and entry as two steps under the lock, every run keeps the whole invariant, and nobody touches the stack between the two |
| PoolGrain.FineWakeStep | pool/gpool.go:53-79 | at that grain each calm step keeps: idle workers plus free places are matched by woken submissions and owed signals while someone waits in an open pool; entries that would still find the pool full are calm |
| PoolGrain.NoLostWakeup | pool/gpool.go:49-105 | no lost wake-up over every calm run of a new pool, with barging submitters, purges, panics, Release and Tune |
| PoolGrain.MovesUnlessSettled | pool/gpool.go:43-216 | nothing blocks but the condition: some step can be taken if and only if somebody is about to wait or the pool is not settled |
| PoolGrain.NoDeadlock | pool/gpool.go:53-79 | while a submission waits or is about to wait in an open pool, some step can be taken, in every calm run |
| PoolGrain.SerialIsCalm | pool/gpool.go:183-196 | runs in which Tune calls do not overlap, Reboot finds nobody waiting and no entry comes late are calm |
| PoolGrain.CoarseIsFine | pool/gpool.go:53-62 | every run of the coarse machine is a run in which each entry follows its check at once, to the same state, and calm exactly when that one is |
| PoolGrain.PromptIsCoarse | pool/gpool.go:53-62 | conversely, every run in which each entry follows its check at once is one of the coarse machine |
| PoolExact.EntryExact | pool/gpool.go:53-62 | over all reachable states, entering loses no wake-up if and only if the capacity is still not above running |
| PoolExact.LateEntryLosesAWakeup | pool/worker.go:27-35 | for every capacity and every smaller number of workers: a reachable state in which the others have left between check and entry, and the entry waits with no signal owed |
| PoolRescue.FineMatchedStep | pool/gpool.go:49-105 | every step but a Reboot, late entries and crossing Tune stores included, keeps: idle workers are matched by woken submissions while somebody waits in an open pool |
| PoolRescue.StrandedOnlyWhenEmpty | pool/gpool.go:53-79 | over every run without Reboot: an open pool in which nothing moves while somebody waits has no idle worker and no goroutine |
| PoolRescue.LateEntryStrands | pool/gpool.go:53-62 | for every capacity such a pool is reached, by one late entry |
| PoolRescue.RoundWakesAll | pool/gpool.go:231-257 | there a round of the purger is possible, finds the pool dormant and wakes everybody |
| PoolRescue.BarrenStep | pool/gpool.go:53-79 | from then on, whatever step comes next, nobody waits again before another call has been told to spawn |
| PoolDrain.MovesUnlessSettled | pool/gpool.go:43-216 | nothing blocks but the condition: some goroutine can step if and only if the state is not settled |
| PoolDrain.ResetNeverBlocks | pool/workerqueue.go:89-95 | the reset under the spin lock never blocks on a mailbox |
| PoolDrain.WorkStep | pool/gpool.go:43-216 | every step under way, in an open pool as in a closed one, lowers a natural-number measure, in spite of broadcasts, barging and purges |
| PoolDrain.WorkEnds | pool/gpool.go:43-216 | every run of steps under way ends after at most that many steps |
| PoolDrain.DrainStep | pool/gpool.go:161-170 | in a closed pool every step, the purger's included, lowers the measure, the pool stays closed and nobody goes on the stack |
| PoolDrain.DrainBound | pool/gpool.go:84-105 | after Release at most that many steps are taken before a new call comes |
| PoolDrain.Drained | pool/worker.go:27-46 | when no step is left: running is 0, the stack is empty, every object is cached with an empty mailbox, every accepted task was started as often as accepted |
| PoolDrain.ReleaseTurnsAway | pool/gpool.go:63-68 | everyone waiting at the broadcast of Release is woken, never parks again and ends up rejected |
| PoolAlone.ClosedPoolRefuses | pool/gpool.go:207-210 | over every run: a submission that comes to a closed pool is never accepted as long as nobody reboots the pool, has got its error when no step is left, and a task of its own is neither mailed nor started |
| PoolAlone.SubmitClosed | pool/gpool.go:208-210 | alone: a call on a closed pool is rejected and changes nothing else |
| PoolAlone.SubmitIdle | pool/gpool.go:49-52 | alone: the worker inserted last leaves the stack and has the message |
| PoolAlone.SubmitSpawns | pool/gpool.go:53-56 | alone: with no idle worker and running below the capacity one more goroutine runs and has the message |
| PoolAlone.SubmitWaits | pool/gpool.go:57-62 | alone: with no idle worker and running at the capacity the call waits and is counted |
| PoolAlone.WokenGivesUp | pool/gpool.go:63-68 | alone: a woken submission is rejected by a closed pool and leaves the count |
| PoolAlone.WokenIdle | pool/gpool.go:70-78 | alone: a woken submission hands its message to the worker inserted last and leaves the count |
| PoolAlone.WokenSpawns | pool/gpool.go:71-75 | alone: a woken submission starts a worker when running is below the capacity |
| PoolAlone.WokenWaits | pool/gpool.go:76 | alone: otherwise it waits again, still counted once |
| PoolAlone.TaskAlone | pool/worker.go:37-41 | alone: the task is started, a return leads to the revert and a panic to the exit |
| PoolAlone.RevertAlone | pool/gpool.go:84-104 | alone, within the capacity of an open pool: the worker is on top of the stack and one waiter, if any, is woken |
| PoolAlone.RefusedAlone | pool/gpool.go:85-88 | alone, above the capacity or on a closed pool: every waiter is woken, nobody else touched, and the worker leaves |
| PoolAlone.ClosedMeanwhile | pool/gpool.go:93-96 | a pool closed between the test and the lock gets no worker back, and nobody is woken |
| PoolAlone.ExitAlone | pool/worker.go:27-35 | alone: one goroutine less, the object cached, one waiter woken if any |
| PoolAlone.ReleaseAlone | pool/gpool.go:161-170 | alone: the pool is closed, nil is in the channels of the idle workers and no others, the stack is empty, every waiter is woken |
| PoolAlone.ReleaseAgain | pool/gpool.go:162-164 | a Release of a closed pool changes nothing |
| PoolAlone.RebootAlone | pool/gpool.go:173-180 | the pool is open and its purger runs again: at the next tick it goes to work |
| PoolAlone.NoPurgerBeforeReboot | pool/gpool.go:173-180 | over every run of an open pool without Release: a purger that was stopped is not replaced |
| PoolAlone.TuneSame | pool/gpool.go:184-187 | a Tune to no size or to the present one changes nothing |
| PoolAlone.TuneDown | pool/gpool.go:188-189 | alone: a smaller capacity is stored and nobody is woken |
| PoolAlone.TuneUp | pool/gpool.go:188-195 | alone: a capacity greater by one wakes one waiter, by more than one every waiter |
| PoolAlone.PurgerLeaves | pool/gpool.go:227-236 | a tick on a closed pool ends the purger, and so does StopPurgeStaleWorkers |
| PoolAlone.RoundAlone | pool/gpool.go:227-258 | a whole round that takes k workers: the k used longest ago leave the stack with nil in their channels, nothing else changes, and every waiter is woken if and only if the pool had no goroutine or k of them |
| PoolAlone.RoundTakesAll | pool/gpool.go:242-257 | so a round that takes every goroutine of the pool ends with nobody waiting |
| PoolAlone.RefreshShrinks | pool/workerqueue.go:53-73 | a purge of a stack that is not empty always takes its bottom worker |
| PoolCapacity.SpawnDecision | pool/gpool.go:53-56 | a submission becomes a spawner only by its own decision and only when running was below the capacity |
| PoolCapacity.CapacityStep | pool/gpool.go:70-75 | each step keeps running plus spawns in progress within m + n - 1 |
| PoolCapacity.Capacity | pool/gpool.go:53-75 | over every run with capacities up to m and at most n calls in flight: busy workers <= running <= running + spawns <= m + n - 1 |
| PoolOvershoot.BoundIsReached | pool/gpool.go:53-56 | for every m and n there is a run to exactly m + n - 1 goroutines |
| WorkerStack.WorkerStack.constructor | pool/workerqueue.go:16-20 | a new stack is empty |
| WorkerStack.WorkerStack.Insert | pool/workerqueue.go:33-36 | the worker is appended, growing the buffer when it is full; the expiry list is untouched |
| WorkerStack.WorkerStack.Detach | pool/workerqueue.go:39-50 | returns and removes the worker inserted last and clears its slot, or nil on an empty stack |
| WorkerStack.WorkerStack.BinarySearch | pool/workerqueue.go:75-86 | terminates in bounds, on any stack where Search says; in a sorted range at the first fresh worker before r, or at r |
| WorkerStack.WorkerStack.Refresh | pool/workerqueue.go:53-73 | on any stack: splits it in two without reordering, the purged part, in the expiry list, as long as PurgeCount says; if all but the last worker are sorted it is those last used ten seconds ago or earlier among them and one more |
| WorkerStack.WorkerStack.MoveOut | pool/workerqueue.go:63-70 | the first k workers are the new expiry list, the others the new stack |
| WorkerStack.WorkerStack.FillExpiry | pool/workerqueue.go:63-65 | the expiry list becomes the first k workers in order |
| WorkerStack.WorkerStack.Shift | pool/workerqueue.go:66-70 | the rest moves to the front and every slot behind it is cleared |
| WorkerStack.WorkerStack.Reset | pool/workerqueue.go:89-95 | finishes all workers in stack order and leaves an empty, cleared stack |
| WorkerStack.SearchSplits | pool/workerqueue.go:75-86 | in a sorted range the search splits the workers at the cutoff, whatever stands behind the range |
| WorkerStack.SearchBetween | pool/workerqueue.go:75-86 | on any stack, sorted or not, the search ends right behind a stale worker and right before a fresh one |
| WorkerStack.PurgeMeans | pool/gpool.go:220-241 | in milliseconds: with the front sorted a purge takes the workers last used 10000 ms ago or earlier and one more; with all sorted it leaves none of them and takes at most one later one |
| WorkerStack.PurgeCountOfFront | pool/workerqueue.go:59-65 | with all but the last worker sorted a purge takes the stale ones among them and one more |
| WorkerStack.PurgeCountWhenSorted | pool/workerqueue.go:59-65 | on a sorted stack of n workers with s stale ones a purge takes min(s + 1, n) |
| WorkerStack.PurgeTakes | pool/workerqueue.go:59-70 | after a purge of a sorted stack no stale worker is left, and all but the last purged one were stale |
| WorkerStack.OnlyStaleGo | pool/workerqueue.go:61-65 | only stale workers go if and only if all workers are stale |
| WorkerStack.InsertExact | pool/gpool.go:90-97 | on a sorted stack an insert leaves every purge clean if and only if its stamp is not before the one on top |
| WorkerStack.SortedExact | pool/gpool.go:84-105 | over every sequence of reverts with stamps taken at any time, detaches, purges and resets the stack is sorted throughout if and only if no insert is out of order |
| WorkerStack.RunSorted | pool/gpool.go:84-105 | over every such sequence with inserts in order, no worker at or before the cutoff is left by a purge |
| WorkerStack.StampedAtInsertIsInOrder | pool/gpool.go:90-92 | stamps taken at the insert from a clock that does not step back are in order |
| WorkerStack.LastInFirstOut | pool/workerqueue.go:33-50 | whatever nested inserts and detaches follow, the stack below is returned unchanged |
| WorkerStack.OutOfOrderKeepsStale | pool/gpool.go:90-92 | two reverts inserted against the order of their stamps: the purge takes the fresh worker and leaves the stale one |
| GPool.GPool.constructor | pool/gpool.go:107-131 | a new pool object is the initial state of the machine |
| GPool.GPool.Admit | pool/gpool.go:207-210 | one machine step: on an open pool the call goes on to the lock, on a closed one it is rejected |
| GPool.GPool.Look | pool/gpool.go:50-62 | takes the worker inserted last, or spawns when there is room, or joins the waiters |
| GPool.GPool.RetrieveLocked | pool/gpool.go:49-62 | exactly one Retrieve step: the worker inserted last if there is one, else a spawn if the capacity is above running, else a wait that is counted |
| GPool.GPool.LookAgain | pool/gpool.go:63-78 | a woken submission gives up on a closed pool, else takes a worker, spawns, or waits again |
| GPool.GPool.RetryLocked | pool/gpool.go:63-78 | exactly one Retry step: gives up if the pool is closed, else the worker inserted last, else a spawn if there is room, else waits again; the count follows |
| GPool.GPool.StartWorker | pool/worker.go:24-26 | addRunning(1) with the start of the goroutine is one Run step, and running is one more |
| GPool.GPool.StopWorker | pool/worker.go:28 | addRunning(-1) is one Decrement step, before the signal, and running is one less |
| GPool.GPool.RevertTest | pool/gpool.go:85 | the unlocked test passes if and only if running is within the capacity and the pool is open; otherwise the worker is on its way out |
| GPool.GPool.RevertLocked | pool/gpool.go:92-104 | inserts the stamped worker on top and signals unless the pool has been closed meanwhile, as one Insert step |
| GPool.GPool.CloseState | pool/gpool.go:162-164 | the first Release wins, later ones change nothing |
| GPool.GPool.ResetLocked | pool/gpool.go:165-167 | nil is in the channels of exactly the idle workers, in stack order, and the stack is empty, as one Reset step |
| GPool.GPool.PurgeLocked | pool/gpool.go:240-247 | the purger takes exactly PurgeCount workers of any stack, as one Refresh step, and finds the pool dormant if and only if it has no goroutine or took as many as it has |
| GPool.GPool.OpenState | pool/gpool.go:174-178 | opens a closed pool as one Reboot step, after which the purger waits for its ticker again, and does nothing to an open one |
| GPool.GPool.TuneRead | pool/gpool.go:184-187 | reads the capacity, and goes on if and only if the size is positive and differs from it |
| GPool.GPool.TuneWrite | pool/gpool.go:188-195 | stores the size and owes a wake-up of the rise over the capacity read, whatever the capacity is by now |
| GoWorker.GoWorker.constructor | pool/gpool.go:116-121 | a worker object of the cache has an empty one-slot channel and is in the hands of the submission |
| GoWorker.GoWorker.Start | pool/worker.go:24-26 | run counts the goroutine and leaves the submission holding a receiving worker |
| GoWorker.GoWorker.Input | pool/worker.go:58-60 | the send of a task finds the slot free and is one Send step |
| GoWorker.GoWorker.Finish | pool/worker.go:50-52 | the send of nil finds the slot free and is one FinishOne step |
| GoWorker.GoWorker.Receive | pool/worker.go:37-40 | takes the message out, starts its task or ends the loop on nil |
| GoWorker.GoWorker.Execute | pool/worker.go:30-41 | a task returns or panics, and a panic goes straight to the deferred exit |
| GoWorker.GoWorker.Declined | pool/gpool.go:85-88 | the broadcast of a refused revert is one Decline step |
| GoWorker.GoWorker.Revert | pool/gpool.go:84-105 | run alone: exactly the steps Check and Insert with its signal, or Check and Decline with its broadcast; it succeeds if and only if running was within the capacity and the pool open |
| GoWorker.GoWorker.Exit | pool/worker.go:27-35 | exactly the steps Decrement, Put and Signal, and the object is cached with an empty channel |
| GoWorker.GoWorker.Round | pool/worker_with_func.go:37-45 | one round of the loop as its exact sequence of machine steps, signals included; it goes on if and only if the message was no nil, the task did not panic and the worker was reverted |
| SpinLock.StepKeeps | pool/spinLock.go:20-35 | each step keeps: the word counts the threads inside, backoffs are powers of two up to 16 |
| SpinLock.MutualExclusion | pool/spinLock.go:20-35 | for any number of threads and any schedule at most one is inside, the word is 1 exactly then, every backoff is a power of two up to 16 |
| SpinLock.SpinLock.Swap | pool/spinLock.go:22 | the compare-and-swap succeeds if and only if the word was 0; the word is not 0 afterwards and the thread is inside if and only if it succeeded |
| SpinLock.SpinLock.Release | pool/spinLock.go:33-35 | the store of 0 is one Unlock step |
| SpinLock.WaitedClosed | pool/spinLock.go:20-31 | the backoffs are 1, 2, 4, 8, 16, 16, ..., so n failed attempts wait 15 + 16(n - 4) times from the fourth on |
| SpinLock.LockAlone | pool/spinLock.go:20-35 | Lock of a free lock takes one compare-and-swap, and Unlock gives back the same state |
| SpinLock.LockContended | pool/spinLock.go:20-31 | in the interleaved machine a thread that finds the lock taken n times has paused exactly as often as WaitedClosed counts, and nothing else has changed |
| SpinLock.SpinLock.Acquire | pool/spinLock.go:20-31 | the loop ends at the first compare-and-swap that finds the word free, having waited for exactly the failed attempts before it |
| Snowflake.Layout | utils/snowflake.go:16-29 | for fields in range the shift/or word is their weighted sum and below 2^63 |
| Snowflake.Decode | utils/snowflake.go:65-72 | the word determines time, datacenter, worker and sequence |
| Snowflake.OrAdds | utils/snowflake.go:72 | or of words without common bits is their sum |
| Snowflake.AndMask | utils/snowflake.go:53 | and with the mask is the remainder modulo 2^k |
| Snowflake.SnowflakeGenerator.constructor | utils/snowflake.go:39-46 | worker id and datacenter id are the arguments of these names, time and sequence are 0 |
| Snowflake.WaitsExactly | utils/snowflake.go:51-63 | a call waits if and only if the stored millisecond is read again with number 4095 issued; otherwise the number goes up by one in it and is 0 in another one |
| Snowflake.IssueInNumbers | utils/snowflake.go:48-75 | the word is (ms - 1577808000000) * 2^22 + datacenter * 2^17 + worker * 2^12 + number, up to ms 1577808000000 + 2^41 - 1 and an error after it; time and number are stored, after an error the number only |
| Snowflake.SnowflakeGenerator.NextVal | utils/snowflake.go:48-75 | result and new fields as Issue says on the readings used; a call that waits ends at the first reading past the stored millisecond, any other one reads once |
| Snowflake.ClockMakesRun | utils/snowflake.go:48-63 | the calls a generator makes one after the other on a clock that does not step back form a run as Increasing and Rate ask for |
| Snowflake.IssueAdvances | utils/snowflake.go:51-71 | a call issues a greater word with the next sequence number or number 0 of a later millisecond, and fails only when the time field is exhausted |
| Snowflake.Increasing | utils/snowflake.go:48-75 | over every run with a clock that does not step back the words rise strictly, and after the first failure every call fails |
| Snowflake.NamesGenerator | utils/snowflake.go:65-72 | every word of a run names its generator, whatever the clock does from the epoch on |
| Snowflake.NeverCollide | utils/snowflake.go:65-72 | generators with different ids in range never issue the same word, whatever their clocks do from the epoch on, backwards included |
| Snowflake.NewNames | utils/snowflake.go:39-46 | every word of a run of a generator made with (w, d) in range has worker w and datacenter d |
| Snowflake.NewNeverCollide | utils/snowflake.go:39-46 | generators made with different pairs in range never issue the same word |
| Snowflake.NewIncreases | utils/snowflake.go:39-75 | the words of a new generator with ids in range rise strictly on a clock that does not step back |
| Snowflake.Gapless | utils/snowflake.go:51-64 | neighbouring words carry consecutive sequence numbers of one millisecond or number 0 of a later one |
| Snowflake.Rate | utils/snowflake.go:51-64 | the words of one millisecond are numbered consecutively and at most 4096 |
| Snowflake.ClockStepExact | utils/snowflake.go:50-63 | the next word is greater if and only if the clock has not stepped back behind the stored millisecond |
| Snowflake.OrSplits | utils/snowflake.go:72 | or works on the low k bits and on the others separately |
| Snowflake.WordOfAnyIds | utils/snowflake.go:72 | for all ids: which bits of the ids end up on the time, on the two id fields, and which the shift drops |
| Snowflake.RunsOver | utils/snowflake.go:39-46 | ids out of range that do not reach the sign bit issue, for every time and sequence, the words of other ids in range |
| Snowflake.TimeIsLost | utils/snowflake.go:39-46 | ids that cover bits of the time issue the same words in all milliseconds that differ in those bits only |
| Snowflake.IdRangeExact | utils/snowflake.go:39-46 | over all integers, the words of two ids are no words of other ids in range and determine time and sequence if and only if both ids are in 0..31 or spill over into the sign bit only; the constructor does not check it |
| Snowflake.BeforeEpochIsGreater | utils/snowflake.go:65-72 | a word issued up to 2^41 ms before the epoch is above every word issued in range |
| Codec.PutGet | message/datapack.go:38-45 | little-endian writing and reading of every 32-bit value |
| Codec.GetPut | message/datapack.go:64-71 | reading four bytes and writing them gives them back |
| Codec.DataPack.Pack | message/datapack.go:33-53 | length and id, each with its lowest byte first, then the data |
| Codec.DataPack.ReadHead | message/datapack.go:64-76 | reads eight bytes off the reader, fails on fewer or on a length above the limit, and leaves the rest unread |
| Codec.DataPack.UnpackHead | message/datapack.go:87-111 | on every input, byte by byte: length b[0] + 256 b[1] + 65536 b[2] + 16777216 b[3], id likewise from b[4..8]; too short below 8 bytes; too large if and only if a limit is set and the length is above it |
| Codec.DataPack.Unpack | message/datapack.go:56-84 | on every input, with that length n: too large if and only if 0 < limit < n; a message if and only if n is allowed and 8 + n bytes are there, with the id and the n bytes behind the head |
| Codec.HeadOfPacked | message/datapack.go:33-111 | the head of a packed message is read back whatever follows it |
| Codec.UnpackOfPack | message/datapack.go:33-84 | Unpack undoes Pack if and only if the length field matches the data and is allowed |
| Codec.HeadBytes | message/datapack.go:87-111 | what the head of any bytes gives, byte by byte, and what the limit refuses |
| Codec.PackedBytes | message/datapack.go:33-53 | the bytes of a packed message: length and id with their lowest bytes first, then the data |
| Codec.SentIsReceived | message/message.go:16-22 | data of any length packaged under an id comes back with that id as its first |data| mod 2^32 bytes, or as too large for the limit; all of it if and only if it is below 2^32 bytes |
| Codec.PackOfUnpack | message/datapack.go:56-84 | whatever Unpack accepts is the first 8 + DataLen bytes of its input repacked |
| Codec.PackageFits | message/message.go:16-22 | a packaged message fits if and only if its data is below 2^32 bytes and within the limit |
| Framing.ParseOfStream | server/conn.go:133-159 | a concatenation of packed messages is cut back into exactly those messages with nothing left |
| Framing.CutMore | server/conn.go:133-159 | bytes that arrive later do not change what was cut |
| Framing.ParseInChunks | server/conn.go:133-159 | for all bytes, malformed ones included, two chunks read one after the other give what the whole gives |
| Framing.ChunkingIrrelevant | epoll/conn.go:116-147 | the same for any number of chunks |
| Framing.PrefixOfStream | server/conn.go:133-159 | any byte prefix gives a prefix of the messages |
| Framing.StreamInjective | message/datapack.go:33-53 | two different lists of messages never share a stream |
| Framing.RequestsOfPrefix | server/conn.go:160-180 | what the handler has got is at any moment a prefix of the non-heartbeat messages sent |
| Framing.NoHeartbeat | server/conn.go:160-166 | no heartbeat is handed to the handler |
| Framing.RequestsAreTheOthers | iface/iheartbeat.go:10 | the requests of a list of messages are those whose id is not 99999, in their order |
| Framing.Connection.Read | epoll/conn.go:116-170 | one round, from the bytes: blocks below 8 bytes or below 8 + n, drops the head alone if n is above the limit, else takes 8 + n bytes; a frame with id 99999 reaches no handler and updates the activity if there is a heartbeat, any other one is handed over with its id and its n bytes |
| Framing.Connection.StartReader | server/conn.go:128-181 | the loop hands over exactly the requests of all complete frames, in order, and leaves what is incomplete |
| Wire.StepKeeps | server/conn.go:104-111 | each step keeps: the queue, never above its capacity, is the frames of the accepted sends not yet taken, the wire is the stream of the taken ones up to the frame being written, and the writer is gone only from a closed connection |
| Wire.WireOrder | server/conn.go:99-120 | in every run, for any channel size, the bytes written are a prefix of the concatenated frames in channel order, and the channel is never overfull |
| Wire.PeerReceivesInOrder | server/conn.go:269-289 | however the bytes are chunked, what the peer has parsed is, in channel order, the first of the accepted sends with their ids, their data and the length of their data, also after a failed write |
| Wire.PeerReceivesAll | server/conn.go:106-111 | with an idle writer and an empty channel the peer parses exactly the accepted sends, ids and data, with nothing left |
| Wire.EverySendOnce | server/conn.go:269-289 | over every run the sends that found the connection open are, as a multiset of ids and data, those accepted and those on their way to the channel |
| Wire.ClosedRefuses | server/conn.go:274-276 | a closed connection stays closed and lets no send through, over every run |
| Wire.ShortWriteEnds | server/conn.go:109-112 | after a write of which the socket takes only a part: no later send is let through, no byte follows, and no earlier send is lost from the account |
| Wire.StopAlone | server/conn.go:114-117 | Stop closes the connection and an idle writer leaves; the channel and the wire stay as they are |
| Wire.WriterLeavesClosed | server/conn.go:104-119 | over every run the writer of an open connection is at work |
| Wire.Connection.CheckAndPack | server/conn.go:274-283 | Send fails exactly on a closed connection, else the frame carries the length, the id and the data byte by byte, so that a receiver with any limit that allows it gets exactly that id and data |
| Wire.Connection.PutOnChannel | server/conn.go:286 | the frame goes to the end of the channel |
| Wire.Connection.TakeFromChannel | server/conn.go:106 | the writer takes the oldest frame |
| Wire.Connection.WriteFrame | server/conn.go:109-111 | the socket has the bytes it took; a write that is cut short stops the writer and closes the connection |
| Wire.Connection.Stop | server/conn.go:210-220 | closes the connection and leaves channel and socket as they are |
| Dispatch.MsgHandle.AddRouter | message/messagehandler.go:49-57 | a second router for an id panics and leaves the routes as they were |
| Dispatch.MsgHandle.DoMsgHandler | message/messagehandler.go:34-46 | an id without a router runs nothing; otherwise PreHandle, Handle, PostHandle in this order, up to the stage that panics, of the registered router only, and of this request only |
| Dispatch.StagesAppend | message/messagehandler.go:43-45 | a stage entered for one request is the last stage of that request and of no other |
| EndToEnd.StepKeeps | message/messagehandler.go:60-88 | each step of a reader, the pool with its two-step wait, or a handler keeps the link between streams, submissions, started tasks, ended tasks and stages |
| EndToEnd.Start | server/conn.go:128-140 | connections about to receive well-formed streams meet that invariant |
| EndToEnd.StartedOnce | pool/worker_with_func.go:37-41 | no request is started twice, because its call is accepted at most once |
| EndToEnd.ExecutedOnce | pool/worker_with_func.go:37-41 | what a worker executes is executed by no other worker and has not ended before |
| EndToEnd.NothingEntered | message/messagehandler.go:43-45 | a request that a worker is about to start has entered no stage before |
| EndToEnd.StagesAfter | message/messagehandler.go:43-45 | the next call of a worker extends the stages of the request it executes and of no other |
| EndToEnd.HandledInOrder | server/conn.go:128-181 | for any number of connections and any schedule: the requests read are a prefix of each stream's non-heartbeats and all of them when it is read up; each is mailed or started once if accepted, never if not; a started one is being handled, has returned or has panicked, exactly one; each worker having its own program counter, one with a router still enters Pre, Handle, Post of that router in order and at most once, and all of them if it returns; nothing else reaches a router |
| InTurn.StepTurn | message/messagehandler.go:60-68 | each step keeps: the call of every request has returned, or the reader of its connection is in it |
| InTurn.OneAtATime | server/conn.go:173-176 | over every run: of two requests of one connection at most one is in a call of Invoke that has not returned, and none while the reader is not in a call |
| Completion.ServingRun | pool/gpool.go:207-216 | over every run without Release and Reboot the pool stays open, turns nobody away and keeps idle workers matched, late entries and crossing Tune calls included |
| Completion.QuietPoolSettled | message/messagehandler.go:34-46 | a handler can always take its next stage or return, so a server without a step has a settled pool |
| Completion.QuietReadersDone | server/conn.go:128-181 | in a server without a step in which nobody waits every reader has read all complete frames |
| Completion.QuietRequestEnded | message/messagehandler.go:60-68 | in a server without a step in which nobody waits the handling of each request has ended, by return or panic, once |
| Completion.QuietExact | message/messagehandler.go:60-88 | a server without a step has read every request of every stream and handled each exactly once if and only if no submission waits; those that wait find the pool empty |
| Completion.CalmIsDone | message/messagehandler.go:60-88 | if no wake-up was lost, a server without a step has handled everything, without the ticker |
| Completion.MeasureFalls | server/conn.go:128-181 | every step of a reader, the pool or a handler lowers a natural-number measure of the server, and a tick or a Tune call raises it by no more than a fixed amount |
| Completion.WorkEnds | server/conn.go:128-181 | every run is bounded in terms of the ticks and Tune calls in it, with the pool open or closed |
| Completion.RoundHelps | pool/gpool.go:231-257 | when submissions wait in a server without a step, then after a tick, whatever steps follow, the next such state has more calls accepted or everything handled |
| Completion.RoundsHandleAll | pool/gpool.go:231-257 | as many such rounds as calls are possible handle everything, whatever entries come late |
| Completion.EveryScheduleHandlesAll | server/conn.go:128-181 | with the wait in two steps, for every schedule without Release, Reboot and end of the purger: it is bounded; it can be continued to a state without a step; there everything is handled if and only if nobody waits, so if no wake-up was lost; and n rounds of the ticker from there, n being the bytes of all streams, are possible and handle everything |

## Left out

- Sockets, epoll, gnet, KCP, QUIC and WebSocket: calls into foreign code; those readers do not read whole frames, so the framing results do not carry over to them.
- Errors of a socket read (the TCP reader goes round again at once) and resynchronisation after a frame that is too large: the code does not skip the body, and `Framing.ParseInChunks` covers what it does with the bytes.
- Heartbeat timers and `IsAlive`: only the split between heartbeats and requests in the reader is modelled.
- Connection managers, property maps, hooks, configuration, logging, protobuf: bookkeeping or I/O.
- The unlimited pool (capacity -1): its stack cannot be made, since the slice would have a negative capacity.
- The 32-bit wrap of the pool counters: the model counts with unbounded integers.
- `WorkerPoolSize` of 0, where the reader starts a goroutine for each request instead of using the pool, and the unused `startOneWorker` queue.
- Submissions that first wait after the broadcast of Release: no progress is claimed for them; `PoolDrain.ReleaseTurnsAway` is about those that wait before it.
- Fairness of goroutines and the order of the notify list: the progress results say that some step is possible, that the steps under way are bounded, and what holds when no step is left.
- The field `lastUsed` of a worker object: it is the `lastUsed` of the worker's stack slot, so that the stack is an array of values and aliasing between a worker and its slot is not modelled.
- GoWorker.GoWorker.Round: one round without other goroutines in between; the interleaved run loop is the worker phases of `PoolMachine`, for which the whole-run results are proved.
- Completion.EveryScheduleHandlesAll: excludes Release, Reboot and the end of the purger; a closed pool rejects requests, and without the purger nobody wakes a stranded submission.
- SpinLock.SpinLock.Acquire: what its compare-and-swaps find is a parameter, because the other threads decide it; the interleaved loop is the machine of `SpinLock`.
- GPool.GPool.OpenState: a Reboot before the purger of the closed pool has left is not modelled; it would leave two purgers sharing the expiry list.
- GoWorker.GoWorker.Revert: run alone, like the round; the interleaved test and lock section are `GPool.GPool.RevertTest` and `GPool.GPool.RevertLocked`.
- EndToEnd.HandledInOrder: does not state which call of Send a router makes in reply; `Wire` covers the replies of one connection once they are sent.
- The unsynchronised accesses to `isClosed` and `lastActivityTime`: reads and writes are single steps, not data races.
