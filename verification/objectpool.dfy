/**
 * The generic object pool with a timed `Get` `ObjectPool[T]`
 * (concurrency25_test.go).
 *
 * The channel buffer `pool` holds the idle objects, oldest first, in at
 * most `size` slots. Neither the timer nor the context is modelled as a
 * clock: whether the context is already done is a parameter of `Get`, and
 * so is the scheduler's choice when both an object and a done context are
 * ready at once. With no object and a live context, the timer is the only
 * case left, so `Get` times out.
 */
module ObjectPools {
  import opened Wrappers

  /** Why `Get` returned no object: the context's own error, or the "Get Value timeout" error. */
  datatype GetError = ContextDone | Timeout

  class ObjectPool<T> {
    /** The buffered objects, oldest first. */
    var pool: seq<T>
    /** The buffer's capacity. */
    const size: nat

    ghost predicate Valid()
      reads this
    {
      |pool| <= size
    }

    /**
     * `NewObjectPool`: a buffer of `size` slots filled with `size` objects
     * from `fn`. `make` panics on a negative size, hence the natural; the
     * `k`-th call of `fn` is modelled as `fn(k)`.
     */
    constructor (size: nat, fn: nat -> T)
      ensures Valid() && this.size == size
      ensures |pool| == size && forall k :: 0 <= k < size ==> pool[k] == fn(k)
    {
      this.size := size;
      pool := [];
      new;
      var k := 0;
      while k < size
        invariant 0 <= k <= size && |pool| == k
        invariant forall m :: 0 <= m < k ==> pool[m] == fn(m)
      {
        pool := pool + [fn(k)];
        k := k + 1;
      }
    }

    /**
     * `Get`: the `select` takes the oldest object when one is buffered and
     * the scheduler does not pick the done context instead; a done context
     * gives its error; otherwise the timer fires. A failure leaves the pool
     * as it was.
     */
    method Get(ctxDone: bool, pickCtx: bool) returns (r: Result<T, GetError>)
      requires Valid()
      modifies this`pool
      ensures Valid()
      ensures old(pool) != [] && !(ctxDone && pickCtx) ==>
        r == Ok(old(pool)[0]) && pool == old(pool)[1..]
      ensures ctxDone && (old(pool) == [] || pickCtx) ==> r == Err(ContextDone) && pool == old(pool)
      ensures !ctxDone && old(pool) == [] ==> r == Err(Timeout) && pool == old(pool)
      ensures r.Ok? <==> old(pool) != [] && !(ctxDone && pickCtx)
    {
      if pool != [] && !(ctxDone && pickCtx) {
        r := Ok(pool[0]);
        pool := pool[1..];
      } else if ctxDone {
        r := Err(ContextDone);
      } else {
        r := Err(Timeout);
      }
    }

    /** `Put`: the object goes to the back if there is a free slot, and is dropped otherwise. */
    method Put(obj: T)
      requires Valid()
      modifies this`pool
      ensures Valid()
      ensures |old(pool)| < size ==> pool == old(pool) + [obj]
      ensures |old(pool)| == size ==> pool == old(pool)
    {
      if |pool| < size {
        pool := pool + [obj];
      }
    }
  }

  /**
   * Taking every object out of a new pool and putting it back leaves the
   * same objects in the same order; one more `Put` is dropped, and one more
   * `Get` than there are objects fails.
   */
  method CycleScenario(size: nat) returns (taken: seq<nat>, extraPutKept: bool, extraGetOk: bool)
    ensures |taken| == size && forall k :: 0 <= k < size ==> taken[k] == k
    ensures !extraPutKept && !extraGetOk
  {
    var op := new ObjectPool<nat>(size, k => k);
    taken := [];
    while |taken| < size
      invariant op.Valid() && op.size == size
      invariant |taken| <= size && taken + op.pool == seq(size, k => k)
    {
      var r := op.Get(false, false);
      taken := taken + [r.value];
    }
    assert taken == seq(size, k => k);
    var k := 0;
    while k < size
      invariant 0 <= k <= size && op.Valid() && op.size == size
      invariant op.pool == taken[..k]
    {
      op.Put(taken[k]);
      k := k + 1;
    }
    op.Put(size);
    extraPutKept := op.pool != taken;
    k := 0;
    while k < size
      invariant 0 <= k <= size && op.Valid() && op.size == size
      invariant op.pool == taken[k..]
    {
      var _ := op.Get(false, false);
      k := k + 1;
    }
    var r := op.Get(false, false);
    extraGetOk := r.Ok?;
  }
}
