# Sequential cores of the Go concurrency exercises

This project is a Dafny model of the sequential data structures and state
machines inside a set of Go concurrency exercises. It proves properties about
each one:

- the timeout-bounded worker pool `WorkPool` (`workpool.dfy`);
- the non-blocking pool `Pool` (`pool.dfy`);
- the unbounded FIFO `Queue[T]` (`queue.dfy`);
- the `LRUCache` (`lru.dfy`);
- the `ObjectPool[T]` (`objectpool.dfy`);
- the hand-written `Once` (`once.dfy`);
- the ceiling-division chunking of an index range (`chunking.dfy`);
- the chunked log-level count (`logcount.dfy`);
- the chunked squaring (`squares.dfy`).

`tasks.dfy` holds the task token and the `uint32` range. `wrappers.dfy` holds
`Option` and `Result`.

Every Go operation becomes one atomic step. Goroutines, mutexes and
condition variables are replaced by a sequential reading:

- **Worker goroutines** become explicit steps. A worker receives the next
  task (`WorkerTake`) and later returns from it (`WorkerFinish`).
- **Tasks** are abstract tokens. "The task ran" means the token moved into
  the ghost multiset `done`.
- **Blocking** becomes a precondition, as in `Queue.Pop`, or a failure
  outcome, as in `ObjectPool.Get` and `WorkPool.Submit`.
- **A channel send in a `select`** succeeds at once in two cases: when the
  buffer has room, or when the buffer is empty and a worker is idle. In the
  second case the worker takes the task directly, which is the only way a
  send succeeds when the capacity is 0. Otherwise the timer or the `default`
  case wins.
- **Chunked loops** that Go runs in separate goroutines run one after the
  other. The chunks are disjoint and merging commutes, so the result is the
  same.

## Model

| member | source | states |
|---|---|---|
| WorkPools.WorkerCount | concurrency20_test.go:24-27 | the worker count is positive: 5 when `workerNum` is 0 (the only unsigned value `<= 0`), else exactly `workerNum` |
| WorkPools.BufferCapacity | concurrency20_test.go:28-32 | the buffer capacity equals `taskNum`: the `taskNum <= 0` branch changes nothing for an unsigned value |
| WorkPools.WorkPool.constructor | concurrency20_test.go:24-41 | a new pool is valid and running, with an empty buffer of capacity `taskNum`, no task running or accepted, and all `WorkerCount(workerNum)` workers started |
| WorkPools.WorkPool.Start | concurrency20_test.go:43-56 | `Start` counts one wait-group entry per worker until all `workers` are live, and the pool invariant holds |
| WorkPools.WorkPool.Close | concurrency20_test.go:58-63 | after `Close` the pool is closed and `shutdown` is closed; a second call changes nothing (idempotent); the lifecycle never moves backwards |
| WorkPools.WorkPool.Submit | concurrency20_test.go:65-80 | true exactly when the pool is open and the send can proceed at once; an accepted task goes to an idle worker (a nil one is dropped) or to the back of the buffer; a rejected task changes nothing, so it never runs |
| WorkPools.WorkPool.WorkerTake | concurrency20_test.go:49-53 | a worker receives the oldest buffered task and starts it, or drops it at once if it is nil |
| WorkPools.WorkPool.WorkerFinish | concurrency20_test.go:49-53 | a busy worker's task moves to `done`; its error is discarded and the worker goes idle; at most `workers` tasks run at once (invariant) |
| WorkPools.WorkPool.CloseTasks | concurrency20_test.go:84-86 | `tasks` is closed the first time only; later calls change nothing, so no second close panics |
| WorkPools.WorkPool.Drain | concurrency20_test.go:49-55 | once `tasks` is closed, the workers empty the buffer, finish every running task and return |
| WorkPools.WorkPool.Wait | concurrency20_test.go:82-88 | `Wait` leaves the pool closed with `tasks` closed, nothing buffered or running, and no live worker; every accepted task has been run (`done == accepted`) |
| WorkPools.BasicScenario | concurrency20_test.go:91-118 | three workers and capacity 10 accept ten tasks in a row |
| WorkPools.UnbufferedTimeoutScenario | concurrency20_test.go:120-147 | with capacity 0 and one worker blocked on the first task, the second `Submit` fails |
| WorkPools.FullBufferTimeoutScenario | concurrency20_test.go:296-326 | with capacity 2 and one worker, three submits succeed (one runs, two are buffered) and the fourth fails |
| WorkPools.RejectAfterCloseScenario | concurrency20_test.go:149-176 | `Submit` succeeds before `Close` and fails after it, though the buffer has room |
| NonBlockingPools.Message | concurrency18_test.go:37-47 | the two error texts end in a full stop; exactly the closed error reads "task queue is closed." and exactly the full error reads "task queue is full." |
| NonBlockingPools.Pool.constructor | concurrency18_test.go:20-35 | a new pool has an empty buffer of `queueSize` slots, is open, and has all `workers` workers started |
| NonBlockingPools.Pool.Submit | concurrency18_test.go:37-47 | for a non-nil task (a worker calls every task it receives): a closed pool gives the closed error first; an open pool with no slot gives the full error; no error exactly when the pool is open and has a slot; an error changes nothing; the buffer never exceeds `queueSize` and no nil task is ever accepted (invariant) |
| NonBlockingPools.Pool.WorkerTake | concurrency18_test.go:29-31 | a worker receives the oldest buffered task |
| NonBlockingPools.Pool.WorkerFinish | concurrency18_test.go:29-31 | a busy worker's task moves to `done` |
| NonBlockingPools.Pool.Drain | concurrency18_test.go:29-33 | once `tasks` is closed, the workers empty the buffer and finish every task |
| NonBlockingPools.Pool.Shutdown | concurrency18_test.go:48-52 | `closed` is 1, `tasks` is closed and every worker has returned; with at least one worker every accepted task has run; requires that `Shutdown` has not run before, because a second close panics |
| NonBlockingPools.BurstScenario | concurrency18_test.go:53-64 | 20 submits to `NewPool(5, 10)` with no worker finishing in between: five go to the workers, ten are buffered, and five are refused as full |
| NonBlockingPools.KeepingUpScenario | concurrency18_test.go:53-64 | when a worker finishes each task before the next submit, all 20 submits to `NewPool(5, 10)` succeed, as the test expects |
| FifoQueues.Queue.constructor | concurrency21_test.go:17-22 | a new queue is empty |
| FifoQueues.Queue.Push | concurrency21_test.go:24-29 | the item is appended at the tail; the length grows by one and the earlier items are unchanged |
| FifoQueues.Queue.Pop | concurrency21_test.go:31-40 | on a non-empty queue (Go waits for one), returns the head and removes it; the length shrinks by one |
| FifoQueues.PushAllThenPopAll | concurrency21_test.go:233-251 | pushing any sequence of any element type and popping as many items gives the same sequence (FIFO) |
| FifoQueues.AlternatingScenario | concurrency21_test.go:253-265 | `Push(i)` then `Pop()` on an empty queue gives back `i`, for every `i` in turn |
| FifoQueues.ZeroValueScenario | concurrency21_test.go:446-465 | zero values come back in order like any other values |
| LruCaches.IndexOfKey | concurrency11_test.go:77 | a key held in the list is found at a position holding that key |
| LruCaches.SyncedMeans | concurrency11_test.go:52-57 | when map and list are in step, the map's keys are exactly the list's keys, the list's keys are distinct, each key maps to its list entry, and the sizes agree |
| LruCaches.RemoveAtSynced | concurrency11_test.go:94-97 | removing one entry from the list and its key from the map keeps them in step |
| LruCaches.MoveToFrontSynced | concurrency11_test.go:77-79 | moving an entry to the front, with its value possibly updated, keeps map and list in step |
| LruCaches.PushFrontSynced | concurrency11_test.go:92-93 | pushing a new key at the front and into the map keeps them in step |
| LruCaches.DropBackSynced | concurrency11_test.go:94-98 | removing the back entry from both list and map keeps them in step |
| LruCaches.RemoveKeyAt | concurrency11_test.go:78 | with distinct keys, taking a key out of the list is cutting out its one position |
| LruCaches.LRUCache.constructor | concurrency11_test.go:59-66 | a new cache is empty and keeps the given capacity |
| LruCaches.LRUCache.Get | concurrency11_test.go:73-82 | a present key gives its value and true and moves to the front; the keys and values do not change; an absent key gives (0, false) and changes nothing |
| LruCaches.LRUCache.Put | concurrency11_test.go:83-99 | an existing key gets the new value and moves to the front, size unchanged; a new key is pushed at the front; when that overfills the cache, the back entry leaves both list and map; map and list stay in step and the size stays within capacity (invariant) |
| LruCaches.FilledScenario | concurrency11_test.go:16-25 | with capacity 3, putting 1, 2, 3 and getting 1 leaves the order 1, 3, 2 |
| LruCaches.EvictionScenario | concurrency11_test.go:16-47 | then putting 4 evicts key 2: the order is 4, 1, 3 and key 2 is not found; putting 5 then evicts key 3: the order is 5, 4, 1 and key 3 is not found |
| ObjectPools.ObjectPool.constructor | concurrency25_test.go:16-26 | a new pool holds exactly `size` objects, the k-th made by the k-th call of `fn` |
| ObjectPools.ObjectPool.Get | concurrency25_test.go:28-39 | success exactly when an object is buffered and the scheduler does not pick the done context; success returns the oldest object and removes it; a done context gives its error, and otherwise the timeout error; a failure leaves the pool unchanged |
| ObjectPools.ObjectPool.Put | concurrency25_test.go:41-46 | with a free slot the object goes to the back; on a full pool it is dropped and the pool is unchanged; the pool never exceeds `size` (invariant) |
| ObjectPools.CycleScenario | concurrency25_test.go:16-46 | emptying a new pool gives its objects in creation order; putting them back refills it, one more `Put` is dropped, and one more `Get` than there are objects fails |
| Onces.Once.constructor | concurrency15_test.go:10-13 | a zero `Once` has `done == 0` and has run nothing |
| Onces.Once.Do | concurrency15_test.go:15-19 | `f` runs only when `done` is 0, and `done` is then 1; later calls are no-ops; `done` only takes the values 0 and 1 (invariant) |
| Onces.Once.DoSlow | concurrency15_test.go:20-27 | under the lock, `done` is checked again, `f` runs, and `done` is set to 1 afterwards |
| Onces.DoAll | concurrency15_test.go:15-27 | over any sequence of `Do` calls on a fresh `Once`, only the first function passed runs, and it runs once |
| Chunks.ChunkSize | concurrency4_test.go:28 | the chunk size is the ceiling of `n / workers` |
| Chunks.ChunkEnd | concurrency4_test.go:31-34 | a chunk ends at the smaller of `n` and one chunk after its start |
| Chunks.ChunksDisjoint | concurrency14_test.go:15-20 | no index lies in the chunks of two different workers |
| Chunks.ChunksCover | concurrency4_test.go:28-34 | every index in `[0, n)` lies in the chunk of worker `j / chunkSize`, one of the `workers` workers |
| Chunks.ChunksPartition | concurrency4_test.go:29-34 | every index in `[0, n)` is in exactly one worker's chunk |
| Chunks.ChunksConsecutive | concurrency4_test.go:30-34 | each chunk starts where the previous one ended, unless both are already clipped at `n` |
| Chunks.CoveredAll | concurrency4_test.go:28-34 | the chunks of all workers reach `n` |
| Squares.SquareChunk | concurrency14_test.go:21-26 | each worker writes the square of `arr[j]` to `res[j]` for every `j` in its chunk and touches no other index; an empty chunk writes nothing |
| Squares.SquareInChunks | concurrency14_test.go:10-28 | after all three chunks, the result has the input's length and holds the square of each input element at its index |
| Squares.SquaresScenario | concurrency14_test.go:10-29 | for 1 .. 10 the result is 1, 4, 9, ..., 100; no sum is formed |
| LogCounts.ColonIndex | concurrency4_test.go:49 | `strings.Index(line, ":")` on a line with a colon: a colon sits there and none before it |
| LogCounts.Level | concurrency4_test.go:49 | the level is a colon-free prefix of the line that is followed by a colon |
| LogCounts.LevelUnique | concurrency4_test.go:49 | any colon-free prefix followed by a colon is the level, so the level is well defined |
| LogCounts.MergedMeans | concurrency4_test.go:55-57 | merging adds each local count to the global count for that level and leaves other levels unchanged |
| LogCounts.CountConcat | concurrency4_test.go:48-51 | counting the lines of a level splits over concatenation |
| LogCounts.TallyCount | concurrency4_test.go:47-51 | the local map holds exactly the levels that occur, each with the number of its lines |
| LogCounts.TallyConcat | concurrency4_test.go:44-58 | counting two consecutive ranges and merging the counts equals counting both ranges at once |
| LogCounts.MergedCommutes | concurrency4_test.go:29-38 | the global map does not depend on the order in which two workers merge |
| LogCounts.TotalMerged | concurrency4_test.go:55-57 | merging raises the total of the global map by the total of the local map |
| LogCounts.TallyTotal | concurrency4_test.go:47-51 | counting `n` lines gives counts that sum to `n` |
| LogCounts.LocalCounts | concurrency4_test.go:47-51 | the first loop of `countLogLevels` gives the count of the lines in `[start, end)`, and nothing when `start >= end` |
| LogCounts.LevelCounts.Merge | concurrency4_test.go:53-57 | the merge loop, whatever order it visits the levels in, leaves the merged map |
| LogCounts.LevelCounts.CountLogLevels | concurrency4_test.go:44-58 | `countLogLevels` merges the count of its range into `counts`, raising the total by `end - start` |
| LogCounts.CountAllLevels | concurrency4_test.go:27-38 | with any positive number of workers, the chunked counts equal the count of all lines, level by level, and sum to the number of lines |
| LogCounts.LevelOfLine | concurrency4_test.go:12-23 | a line written as level, colon and message has that level |
| LogCounts.SampleTally | concurrency4_test.go:12-23 | the test's ten lines count INFO 4, ERROR 3, WARNING 3 |
| LogCounts.SampleScenario | concurrency4_test.go:11-38 | three workers counting the test's lines give INFO 4, ERROR 3, WARNING 3, ten in all |

## Left out

- Goroutines, wait groups, mutexes, read-write locks, `sync.Cond` and atomics are left out. Every operation is one atomic step. Worker goroutines are explicit steps that the caller chooses to take.
- Scheduling nondeterminism in `select` is left out. When an object is buffered and the context is done, `ObjectPool.Get` takes the choice as its `pickCtx` parameter. `WorkPool.Submit`'s closed check comes first, which only rules out the `shutdown` case.
- `WorkPools.WorkPool.Submit` takes the timer never to be ready while the send is. That holds for a positive timeout only. With `timeout <= 0` the timer can be ready at once, so Go may pick it at random and return false though a slot is free; the model then accepts.
- `ObjectPools.ObjectPool.Get` likewise takes `time.After` never to be ready while an object is buffered or the context is done, which holds for a positive `timeout` only. With `timeout <= 0`, Go may pick the timeout at random over a ready object or a done context.
- Timers, durations and all timing assertions of the tests are left out. A `WorkPool.Submit` whose send cannot proceed at once counts as timed out. An `ObjectPool.Get` with no object and a live context times out.
- In Go, `WorkPool.Submit` can send on a closed `tasks` channel and panic when `Wait` runs between its closed check and its send. Each step is atomic here, so that interleaving does not exist.
- The concurrent-submit tests of `WorkPool` (concurrency20_test.go:178-250) are left out. They depend on workers finishing while submitters wait, and on timing.
- `WorkPools.WorkPool.Start`: only the call from `NewWorkPool` is modelled. Calling it a second time would start more workers than `workers`.
- `WorkPools.WorkPool.Submit`: task bodies, their side effects and their returned errors are not modelled. A task is a token.
- `NonBlockingPools.Pool.Shutdown`: a second call is excluded by a precondition, because Go panics when it closes `tasks` again.
- `NonBlockingPools.Pool.Submit`: a nil task is excluded by a precondition. A worker calls every task it receives without a nil check, so in Go a nil task panics the program when a worker runs it.
- In Go, `Pool.Submit` can send on a closed `tasks` channel and panic when `Shutdown` closes `tasks` between its closed check and its send. Each step is atomic here, so that interleaving does not exist.
- `NonBlockingPools.Pool.constructor` takes natural numbers: a negative `queueSize` makes `make` panic and a negative `workers` makes `wg.Add` panic in Go, and neither panic is modelled.
- `ObjectPools.ObjectPool.constructor` takes a natural `size`: a negative size makes `make` panic in Go, and that panic is not modelled.
- With zero workers, `NonBlockingPools.Pool.Shutdown` leaves buffered tasks unrun, as the Go code does.
- `NonBlockingPools.BurstScenario`: the Go test expects all 20 submits to `NewPool(5, 10)` to succeed. That only happens when workers finish tasks between submits. The model shows both schedules: the burst with no worker finishing, where five are refused, and `KeepingUpScenario`, where a worker finishes each task before the next submit and all 20 succeed.
- `ObjectPools.ObjectPool.Get`: a failure returns an error value, not Go's zero value of `T` next to an error. The context's own error text is not modelled.
- `ObjectPools.ObjectPool.constructor`: `fn` is modelled as a function of its call index, so side effects between calls are not captured.
- `Squares.SquareInChunks`: Go's 64-bit `int` multiplication can overflow. The model's integers are unbounded.
- `LogCounts.CountAllLevels`: Go's `int` counters are unbounded here, and printing the counts is left out.
- `LogCounts.Level`: a line without a colon makes Go's slice expression panic. The model requires every line to have a colon.
- `LruCaches.LRUCache.Get` changes the list order under a read lock in Go, which is a data race. Only the sequential meaning is modelled.
- `LruCaches.LRUCache`: the map holds a copy of each entry instead of a pointer to the shared list element. `Synced` states that the copies agree.
- `Onces.Once.Do`: the lock and the atomic load and store are left out. The fast-path check and the check under the lock see the same `done`.
- The rest of the repository is not part of this model: network servers and clients, file I/O, ticker and timer demos, channel hand-offs, random fan-outs, semaphores, errgroups and the singleton.
