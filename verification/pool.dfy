/**
 * The fixed-size pool with non-blocking submission `Pool`
 * (concurrency18_test.go), as a sequential state machine.
 *
 * As for `WorkPool`, goroutines become explicit worker steps and a task is
 * an abstract token that a worker moves into the ghost multiset `done` once
 * it has run it. `Submit` never waits: it reports a closed pool or a full
 * buffer as an error. A worker calls each task it receives without a nil
 * check, so a nil task would panic: `Submit` is never given one, and no
 * nil task ever reaches a worker (`Valid`).
 */
module NonBlockingPools {
  import opened Tasks
  import opened Wrappers

  /** The two errors `Submit` can return. */
  datatype SubmitError = QueueClosed | QueueFull

  /** The text of each error, as `Submit` formats it. */
  function Message(e: SubmitError): (msg: string)
    ensures |msg| > 0 && msg[|msg| - 1] == '.'
    ensures (msg == "task queue is closed.") <==> e == QueueClosed
    ensures (msg == "task queue is full.") <==> e == QueueFull
  {
    match e
    case QueueClosed => "task queue is closed."
    case QueueFull => "task queue is full."
  }

  class Pool {
    /** The `tasks` channel: its buffer (oldest first), capacity, and whether it was closed. */
    var queue: seq<Task>
    const queueSize: nat
    var tasksClosed: bool
    /** The `closed` word, 0 or 1. */
    var closed: uint32

    /** The number of worker goroutines. */
    const workers: nat
    /** Tasks that busy workers are executing now. */
    var running: seq<Task>
    /** The `wg` counter: worker goroutines that have not returned. */
    var liveWorkers: nat

    /** Every task for which `Submit` returned nil. */
    ghost var accepted: multiset<Task>
    /** Every task a worker has run to completion. */
    ghost var done: multiset<Task>

    ghost predicate Valid()
      reads this
    {
      && closed <= 1
      && |queue| <= queueSize
      && |running| <= workers
      && (tasksClosed ==> closed == 1)
      && (liveWorkers == workers || (liveWorkers == 0 && tasksClosed && running == [] && (workers > 0 ==> queue == [])))
      && accepted == done + multiset(running) + multiset(queue)
      && NilTask !in accepted
    }

    /** Some worker is idle, i.e. blocked receiving from `tasks`. */
    predicate HasIdleWorker()
      reads this
    {
      |running| < workers
    }

    /** Whether the send in `Submit`'s `select` can proceed without blocking. */
    predicate HasSlot()
      reads this
    {
      |queue| < queueSize || (queue == [] && HasIdleWorker())
    }

    /**
     * `NewPool`: a buffer of `queueSize` slots and `workers` started workers.
     * Go panics on a negative size or wait-group count, hence the naturals.
     */
    constructor (workers: nat, queueSize: nat)
      ensures Valid()
      ensures this.workers == workers && this.queueSize == queueSize
      ensures queue == [] && running == [] && closed == 0 && !tasksClosed
      ensures liveWorkers == workers
      ensures accepted == multiset{} && done == multiset{}
    {
      this.workers := workers;
      this.queueSize := queueSize;
      queue, tasksClosed, closed := [], false, 0;
      running, liveWorkers := [], workers;
      accepted, done := multiset{}, multiset{};
    }

    /**
     * `Submit`: a closed pool refuses first; otherwise the task is sent if
     * that can happen at once, and refused as full if not. Only a nil error
     * means the task was taken.
     */
    method Submit(task: Task) returns (err: Option<SubmitError>)
      requires Valid() && task != NilTask
      modifies this`queue, this`running, this`accepted
      ensures Valid()
      ensures old(closed) == 1 ==> err == Some(QueueClosed)
      ensures old(closed) == 0 && !old(HasSlot()) ==> err == Some(QueueFull)
      ensures err == None <==> old(closed) == 0 && old(HasSlot())
      ensures err == None ==> accepted == old(accepted) + multiset{task}
      ensures err == None && old(queue) == [] && old(HasIdleWorker()) ==>
        queue == [] && running == old(running) + [task]
      ensures err == None && !(old(queue) == [] && old(HasIdleWorker())) ==>
        queue == old(queue) + [task] && running == old(running)
      ensures err != None ==> unchanged(this)
    {
      if closed == 1 {
        return Some(QueueClosed);
      }
      // the pool is open, so `tasks` is too
      if queue == [] && HasIdleWorker() {
        HandOff(task);
        err := None;
      } else if |queue| < queueSize {
        Buffer(task);
        err := None;
      } else {
        err := Some(QueueFull);
      }
    }

    /** The send meets an idle worker's receive, and that worker starts the task. */
    method HandOff(task: Task)
      requires Valid() && closed == 0 && queue == [] && HasIdleWorker() && task != NilTask
      modifies this`running, this`accepted
      ensures Valid()
      ensures running == old(running) + [task] && accepted == old(accepted) + multiset{task}
    {
      running := running + [task];
      accepted := accepted + multiset{task};
    }

    /** The send puts the task at the back of the buffer. */
    method Buffer(task: Task)
      requires Valid() && closed == 0 && |queue| < queueSize && task != NilTask
      modifies this`queue, this`accepted
      ensures Valid()
      ensures queue == old(queue) + [task] && accepted == old(accepted) + multiset{task}
    {
      queue := queue + [task];
      accepted := accepted + multiset{task};
    }

    /** One turn of a worker's `for task := range pool.tasks` loop: an idle worker receives the oldest buffered task. */
    method WorkerTake()
      requires Valid() && HasIdleWorker() && queue != []
      modifies this`queue, this`running
      ensures Valid()
      ensures queue == old(queue)[1..] && running == old(running) + [old(queue)[0]]
    {
      var task := queue[0];
      assert multiset(queue) == multiset{task} + multiset(queue[1..]) by {
        assert queue == [task] + queue[1..];
      }
      queue := queue[1..];
      assert multiset(running + [task]) == multiset(running) + multiset{task};
      running := running + [task];
    }

    /** The `i`-th busy worker returns from its task and goes idle. */
    method WorkerFinish(i: nat)
      requires Valid() && i < |running|
      modifies this`running, this`done
      ensures Valid()
      ensures running == old(running)[..i] + old(running)[i + 1..]
      ensures done == old(done) + multiset{old(running)[i]}
    {
      var task := running[i];
      assert running == running[..i] + [task] + running[i + 1..];
      running := running[..i] + running[i + 1..];
      done := done + multiset{task};
    }

    /**
     * `Shutdown`: store 1 in `closed`, close `tasks`, and wait for the
     * workers. Closing `tasks` a second time panics in Go, so a second call
     * is excluded. With at least one worker, every accepted task has run
     * when it returns; with none, buffered tasks never run.
     */
    method Shutdown()
      requires Valid() && !tasksClosed
      modifies this`closed, this`tasksClosed, this`queue, this`running, this`done, this`liveWorkers
      ensures Valid()
      ensures closed == 1 && tasksClosed && running == [] && liveWorkers == 0
      ensures workers > 0 ==> queue == [] && done == accepted
      ensures workers > 0 ==> done == old(done) + multiset(old(running)) + multiset(old(queue))
      ensures workers == 0 ==> queue == old(queue) && done == old(done)
    {
      closed := 1;
      tasksClosed := true;
      if workers > 0 {
        Drain();
      }
      // `tasks` is closed and, if anyone reads it, empty: every worker returns
      liveWorkers := 0;
    }

    /** The workers run until `tasks`, closed, is empty. */
    method Drain()
      requires Valid() && tasksClosed && workers > 0
      modifies this`queue, this`running, this`done
      ensures Valid() && queue == [] && running == []
      ensures done == old(done) + multiset(old(running)) + multiset(old(queue))
    {
      while queue != [] || running != []
        invariant Valid()
        invariant done + multiset(running) + multiset(queue) == old(done) + multiset(old(running)) + multiset(old(queue))
        decreases 2 * |queue| + |running|
      {
        if running != [] {
          WorkerFinish(0);
        } else {
          WorkerTake();
        }
      }
    }
  }

  /**
   * `TestConcurrency18` submits 20 tasks to `NewPool(5, 10)` and expects no
   * error. If no worker finishes a task in between, five tasks go straight
   * to the five workers, ten fill the buffer, and the last five are refused
   * as full: the test relies on the workers keeping up.
   */
  method BurstScenario() returns (refused: nat)
    ensures refused == 5
  {
    var pool := new Pool(5, 10);
    refused := 0;
    var i := 0;
    while i < 20
      invariant 0 <= i <= 20 && pool.Valid() && pool.closed == 0
      invariant i <= 5 ==> |pool.running| == i && pool.queue == [] && refused == 0
      invariant 5 <= i <= 15 ==> |pool.running| == 5 && |pool.queue| == i - 5 && refused == 0
      invariant 15 <= i ==> |pool.running| == 5 && |pool.queue| == 10 && refused == i - 15
    {
      var err := pool.Submit(Job(i));
      if err != None {
        refused := refused + 1;
      }
      i := i + 1;
    }
    pool.Shutdown();
  }

  /**
   * The schedule under which `TestConcurrency18`'s expectation holds: after
   * each `Submit` a worker runs the task it was handed and goes idle again,
   * so every one of the 20 submits finds an idle worker and succeeds, and
   * `Shutdown` finds all 20 tasks run.
   */
  method KeepingUpScenario() returns (allAccepted: bool)
    ensures allAccepted
  {
    var pool := new Pool(5, 10);
    allAccepted := true;
    var i := 0;
    while i < 20
      invariant 0 <= i <= 20 && pool.Valid() && pool.closed == 0 && !pool.tasksClosed
      invariant pool.workers == 5 && pool.queue == [] && pool.running == [] && allAccepted
      invariant |pool.accepted| == i
    {
      var err := pool.Submit(Job(i));
      allAccepted := allAccepted && err == None;
      pool.WorkerFinish(0);
      i := i + 1;
    }
    pool.Shutdown();
    assert |pool.done| == 20;
  }
}
