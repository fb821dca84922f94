/**
 * The timeout-bounded worker pool `WorkPool` (concurrency20_test.go), as a
 * sequential state machine.
 *
 * Every operation is atomic. Goroutines become explicit worker steps:
 * `WorkerTake` (an idle worker receives the next task from the `tasks`
 * channel) and `WorkerFinish` (a busy worker returns from its task). A task
 * is an abstract token; a worker that is done with it moves it into the
 * ghost multiset `done`. The Go `select` in `Submit` becomes one non-blocking attempt:
 * when the send cannot proceed at once, the timer is taken to have fired.
 */
module WorkPools {
  import opened Tasks

  /** Worker count used when `NewWorkPool` is given 0. */
  const DefaultWorkers: uint32 := 5

  /** The worker count `NewWorkPool` settles on: 0 (the only unsigned value `<= 0`) means the default. */
  function WorkerCount(workerNum: uint32): (n: uint32)
    ensures n > 0
    ensures workerNum != 0 ==> n == workerNum
    ensures workerNum == 0 ==> n == DefaultWorkers
  {
    if workerNum <= 0 then DefaultWorkers else workerNum
  }

  /** The buffer capacity `NewWorkPool` settles on: the `taskNum <= 0` branch changes nothing. */
  function BufferCapacity(taskNum: uint32): (c: uint32)
    ensures c == taskNum
  {
    if taskNum <= 0 then 0 else taskNum
  }

  /** The pool's lifecycle. `NewWorkPool` starts the workers, so there is no observable "created" state. */
  datatype Lifecycle = Running | ShuttingDown | Closed

  /** Lifecycle states in the only order they are visited. */
  function Rank(s: Lifecycle): nat
  {
    match s
    case Running => 0
    case ShuttingDown => 1
    case Closed => 2
  }

  class WorkPool {
    /** The `tasks` channel: its buffer (oldest first), capacity, and whether it was closed. */
    var queue: seq<Task>
    const capacity: uint32
    var tasksClosed: bool
    /** `taskOnce`: whether the once guarding `close(pool.tasks)` has run. */
    var taskOnce: bool

    /** The number of worker goroutines. */
    const workers: uint32
    /** The `closed` flag, the `shutdown` channel, and the once guarding both. */
    var closed: bool
    var shutdown: bool
    var shutdownOnce: bool

    /** Tasks that busy workers are executing now. */
    var running: seq<Task>
    /** The `wg` counter: worker goroutines that have not returned. */
    var liveWorkers: nat

    /** Every task for which `Submit` returned true. */
    ghost var accepted: multiset<Task>
    /**
     * Every task a worker has received and is done with: a non-nil task
     * after running it to completion (its error discarded), a nil task at
     * once, without calling it.
     */
    ghost var done: multiset<Task>

    ghost predicate Valid()
      reads this
    {
      && workers > 0
      && |queue| <= capacity
      && |running| <= workers
      && closed == shutdown == shutdownOnce
      && taskOnce == tasksClosed
      && (tasksClosed ==> closed)
      && (liveWorkers == workers || (liveWorkers == 0 && tasksClosed && queue == [] && running == []))
      && NilTask !in running
      && accepted == done + multiset(running) + multiset(queue)
    }

    /** Where the pool is in its lifecycle. */
    function State(): Lifecycle
      reads this
    {
      if !closed then Running else if liveWorkers > 0 then ShuttingDown else Closed
    }

    /** Some worker is idle, i.e. blocked receiving from `tasks`. */
    predicate HasIdleWorker()
      reads this
    {
      |running| < workers
    }

    /**
     * Whether the send `pool.tasks <- task` can proceed at once: the buffer
     * has room, or the buffer is empty and an idle worker takes the task
     * directly (the only way when the capacity is 0).
     */
    predicate HasSlot()
      reads this
    {
      |queue| < capacity || (queue == [] && HasIdleWorker())
    }

    /** `NewWorkPool`: a running pool with no tasks. */
    constructor (workerNum: uint32, taskNum: uint32)
      ensures Valid()
      ensures workers == WorkerCount(workerNum) && capacity == BufferCapacity(taskNum)
      ensures queue == [] && running == [] && liveWorkers == workers
      ensures State() == Running && !tasksClosed
      ensures accepted == multiset{} && done == multiset{}
    {
      workers := WorkerCount(workerNum);
      capacity := BufferCapacity(taskNum);
      queue, tasksClosed, taskOnce := [], false, false;
      closed, shutdown, shutdownOnce := false, false, false;
      running, liveWorkers := [], 0;
      accepted, done := multiset{}, multiset{};
      new;
      Start();
    }

    /** `Start`: launch `workers` worker goroutines, each counted in the wait group. */
    method Start()
      requires workers > 0 && liveWorkers == 0 && !closed && !shutdown && !shutdownOnce
      requires !tasksClosed && !taskOnce && queue == [] && running == []
      requires accepted == done == multiset{}
      modifies this`liveWorkers
      ensures Valid() && liveWorkers == workers
    {
      var i := 0;
      while i < workers
        invariant 0 <= i <= workers && liveWorkers == i
      {
        liveWorkers := liveWorkers + 1;
        i := i + 1;
      }
    }

    /**
     * `Close`: the first call sets `closed` and closes `shutdown`; the once
     * makes every later call change nothing.
     */
    method Close()
      requires Valid()
      modifies this`closed, this`shutdown, this`shutdownOnce
      ensures Valid() && closed && shutdown
      ensures old(closed) ==> unchanged(this)
      ensures Rank(old(State())) <= Rank(State())
    {
      if !shutdownOnce {
        shutdownOnce := true;
        closed := true;
        // closing a closed channel panics in Go; the once rules that out
        assert !shutdown;
        shutdown := true;
      }
    }

    /**
     * `Submit`: reject at once if the pool is closed; otherwise the send
     * succeeds when there is a slot, and the timer wins when there is none.
     * An accepted task goes to an idle worker directly when the buffer is
     * empty (a nil one is dropped by that worker at once), and to the back of
     * the buffer otherwise. A rejected task is neither queued nor run.
     */
    method Submit(task: Task) returns (ok: bool)
      requires Valid()
      modifies this`queue, this`running, this`accepted, this`done
      ensures Valid()
      ensures ok <==> !old(closed) && old(HasSlot())
      ensures ok ==> accepted == old(accepted) + multiset{task}
      ensures ok && old(queue) == [] && old(HasIdleWorker()) ==>
        queue == [] &&
        (task == NilTask ==> running == old(running) && done == old(done) + multiset{task}) &&
        (task != NilTask ==> running == old(running) + [task] && done == old(done))
      ensures ok && !(old(queue) == [] && old(HasIdleWorker())) ==>
        queue == old(queue) + [task] && running == old(running) && done == old(done)
      ensures !ok ==> unchanged(this)
    {
      if closed {
        return false;
      }
      // not closed, so neither `tasks` nor `shutdown` is closed: only the send or the timer can win
      if queue == [] && HasIdleWorker() {
        HandOff(task);
        ok := true;
      } else if |queue| < capacity {
        Buffer(task);
        ok := true;
      } else {
        ok := false;
      }
    }

    /** The send meets an idle worker's receive: the worker starts the task, or drops it if nil. */
    method HandOff(task: Task)
      requires Valid() && !closed && queue == [] && HasIdleWorker()
      modifies this`running, this`accepted, this`done
      ensures Valid()
      ensures accepted == old(accepted) + multiset{task}
      ensures task == NilTask ==> running == old(running) && done == old(done) + multiset{task}
      ensures task != NilTask ==> running == old(running) + [task] && done == old(done)
    {
      if task != NilTask {
        running := running + [task];
      } else {
        done := done + multiset{task};
      }
      accepted := accepted + multiset{task};
    }

    /** The send puts the task at the back of the buffer. */
    method Buffer(task: Task)
      requires Valid() && !closed && |queue| < capacity
      modifies this`queue, this`accepted
      ensures Valid()
      ensures queue == old(queue) + [task] && accepted == old(accepted) + multiset{task}
    {
      queue := queue + [task];
      accepted := accepted + multiset{task};
    }

    /**
     * One turn of a worker's `for task := range pool.tasks` loop: an idle
     * worker receives the oldest buffered task and starts it; a nil task it
     * drops at once without calling it.
     */
    method WorkerTake()
      requires Valid() && HasIdleWorker() && queue != []
      modifies this`queue, this`running, this`done
      ensures Valid()
      ensures queue == old(queue)[1..]
      ensures old(queue)[0] == NilTask ==> running == old(running) && done == old(done) + multiset{NilTask}
      ensures old(queue)[0] != NilTask ==> running == old(running) + [old(queue)[0]] && done == old(done)
    {
      var task := queue[0];
      assert multiset(queue) == multiset{task} + multiset(queue[1..]) by {
        assert queue == [task] + queue[1..];
      }
      queue := queue[1..];
      if task != NilTask {
        assert multiset(running + [task]) == multiset(running) + multiset{task};
        running := running + [task];
      } else {
        done := done + multiset{task};
      }
    }

    /** The `i`-th busy worker returns from its task; the task's error is discarded and the worker goes idle. */
    method WorkerFinish(i: nat)
      requires Valid() && i < |running|
      modifies this`running, this`done
      ensures Valid()
      ensures running == old(running)[..i] + old(running)[i + 1..]
      ensures done == old(done) + multiset{old(running)[i]}
    {
      var task := running[i];
      assert running == running[..i] + [task] + running[i + 1..];
      running := running[..i] + running[i + 1..];
      done := done + multiset{task};
    }

    /** The `taskOnce` body: close `tasks` the first time only. */
    method CloseTasks()
      requires Valid() && closed
      modifies this`taskOnce, this`tasksClosed
      ensures Valid() && tasksClosed
      ensures old(tasksClosed) ==> unchanged(this)
    {
      if !taskOnce {
        taskOnce := true;
        // closing a closed channel panics in Go; the once rules that out
        assert !tasksClosed;
        tasksClosed := true;
      }
    }

    /** The workers run until `tasks`, closed, is empty; then they return and `wg.Wait` does too. */
    method Drain()
      requires Valid() && tasksClosed
      modifies this`queue, this`running, this`done, this`liveWorkers
      ensures Valid() && queue == [] && running == [] && liveWorkers == 0
      ensures done == old(done) + multiset(old(running)) + multiset(old(queue))
    {
      while queue != [] || running != []
        invariant Valid()
        invariant done + multiset(running) + multiset(queue) == old(done) + multiset(old(running)) + multiset(old(queue))
        decreases 2 * |queue| + |running|
      {
        if running != [] {
          WorkerFinish(0);
        } else {
          WorkerTake();
        }
      }
      liveWorkers := 0;
    }

    /**
     * `Wait`: close the pool, close `tasks` once, and let the workers drain
     * the buffer and return. Afterwards every accepted task has been run
     * (or dropped, if nil) and the pool is closed.
     */
    method Wait()
      requires Valid()
      modifies this
      ensures Valid()
      ensures closed && tasksClosed && queue == [] && running == [] && liveWorkers == 0
      ensures State() == Closed
      ensures accepted == old(accepted) && done == accepted
      ensures done == old(done) + multiset(old(running)) + multiset(old(queue))
    {
      Close();
      CloseTasks();
      Drain();
    }
  }

  /**
   * The basic case of `TestConcurrency20`: three workers, capacity 10. If no
   * worker finishes in between, three of ten tasks go straight to the
   * workers and seven fill the buffer: all ten are accepted, and `Wait`
   * runs them all.
   */
  method BasicScenario() returns (allAccepted: bool)
    ensures allAccepted
  {
    var pool := new WorkPool(3, 10);
    allAccepted := true;
    var i := 0;
    while i < 10
      invariant 0 <= i <= 10 && pool.Valid() && !pool.closed && allAccepted
      invariant pool.workers == 3 && pool.capacity == 10
      invariant i <= 3 ==> |pool.running| == i && pool.queue == []
      invariant 3 <= i ==> |pool.running| == 3 && |pool.queue| == i - 3
    {
      var ok := pool.Submit(Job(i));
      allAccepted := allAccepted && ok;
      i := i + 1;
    }
    pool.Wait();
  }

  /**
   * The unbuffered timeout case of `TestConcurrency20`: one worker, capacity 0. The
   * first task goes straight to the worker and blocks it; the second finds
   * no slot and is rejected.
   */
  method UnbufferedTimeoutScenario() returns (first: bool, second: bool)
    ensures first && !second
  {
    var pool := new WorkPool(1, 0);
    first := pool.Submit(Job(0));
    second := pool.Submit(Job(1));
    pool.Wait();
  }

  /**
   * The full-queue timeout case of `TestConcurrency20`: one worker, capacity 2.
   * One task runs, two are buffered, and the fourth is rejected.
   */
  method FullBufferTimeoutScenario() returns (outcomes: seq<bool>)
    ensures outcomes == [true, true, true, false]
  {
    var pool := new WorkPool(1, 2);
    var a := pool.Submit(Job(0));
    var b := pool.Submit(Job(1));
    var c := pool.Submit(Job(2));
    var d := pool.Submit(Job(3));
    outcomes := [a, b, c, d];
    pool.Wait();
  }

  /** After `Close`, `Submit` is rejected even though the buffer has room. */
  method RejectAfterCloseScenario() returns (before: bool, after: bool)
    ensures before && !after
  {
    var pool := new WorkPool(3, 10);
    before := pool.Submit(Job(0));
    pool.Close();
    after := pool.Submit(Job(1));
    pool.Wait();
  }
}
