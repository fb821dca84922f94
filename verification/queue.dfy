/**
 * The unbounded generic FIFO queue `Queue[T]` (concurrency21_test.go).
 *
 * The mutex is left out, since every operation is atomic here, and so is the
 * condition variable: `Pop` waits while the queue is empty, which the model
 * states as its precondition.
 */
module FifoQueues {

  class Queue<T> {
    /** The `items` slice, head first. */
    var items: seq<T>

    /** `NewQueue`: an empty queue. */
    constructor ()
      ensures items == []
    {
      items := [];
    }

    /** `Push`: append `item` at the tail; the earlier items stay as they were. */
    method Push(item: T)
      modifies this
      ensures items == old(items) + [item]
      ensures |items| == |old(items)| + 1 && items[..|old(items)|] == old(items)
    {
      items := items + [item];
    }

    /** `Pop`: remove and return the head. A caller blocks until there is one. */
    method Pop() returns (item: T)
      requires items != []
      modifies this
      ensures item == old(items)[0]
      ensures items == old(items)[1..] && |items| == |old(items)| - 1
      ensures [item] + items == old(items)
    {
      item := items[0];
      items := items[1..];
    }
  }

  /**
   * Pushing `xs` onto a new queue and popping as many items returns `xs` in
   * the same order, for any element type, zero values included.
   */
  method PushAllThenPopAll<T>(xs: seq<T>) returns (ys: seq<T>)
    ensures ys == xs
  {
    var q := new Queue<T>();
    var i := 0;
    while i < |xs|
      invariant 0 <= i <= |xs| && q.items == xs[..i]
    {
      q.Push(xs[i]);
      i := i + 1;
    }
    assert q.items == xs;
    ys := [];
    while |ys| < |xs|
      invariant |ys| <= |xs| && ys + q.items == xs
    {
      var item := q.Pop();
      ys := ys + [item];
    }
  }

  /** On an empty queue, `Push(i)` then `Pop()` gives back `i`, for every `i` in turn. */
  method AlternatingScenario(n: nat) returns (popped: seq<int>)
    ensures |popped| == n && forall i :: 0 <= i < n ==> popped[i] == i
  {
    var q := new Queue<int>();
    popped := [];
    var i := 0;
    while i < n
      invariant 0 <= i <= n && q.items == [] && |popped| == i
      invariant forall k :: 0 <= k < i ==> popped[k] == k
    {
      q.Push(i);
      var val := q.Pop();
      popped := popped + [val];
      i := i + 1;
    }
  }

  /** The zero-value case of `TestConcurrency21`: 0, 1, 0, 2 come back as pushed. */
  method ZeroValueScenario() returns (popped: seq<int>)
    ensures popped == [0, 1, 0, 2]
  {
    var q := new Queue<int>();
    q.Push(0);
    q.Push(1);
    q.Push(0);
    q.Push(2);
    var a := q.Pop();
    var b := q.Pop();
    var c := q.Pop();
    var d := q.Pop();
    popped := [a, b, c, d];
  }
}
