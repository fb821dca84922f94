/**
 * The hand-written `Once` (concurrency15_test.go).
 *
 * A function value passed to `Do` is an opaque token `Func`; calling it is
 * recorded by appending it to `calls`, the log of every function the
 * `Once` has run. The mutex and the atomic load and store are left out:
 * each `Do` is atomic here, and so the fast-path check and the check under
 * the lock see the same `done`.
 */
module Onces {
  import opened Tasks

  /** A function value passed to `Do`. */
  datatype Func = Func(id: nat)

  class Once {
    /** The `done` word: 0 until a function has run, then 1. */
    var done: uint32
    /** The functions run so far, in order. */
    var calls: seq<Func>

    ghost predicate Valid()
      reads this
    {
      && done <= 1
      && (done == 0 <==> calls == [])
      && |calls| <= 1
    }

    /** The zero value of `Once`: nothing has run. */
    constructor ()
      ensures Valid() && done == 0 && calls == []
    {
      done := 0;
      calls := [];
    }

    /** `Do`: run `f` through `doSlow` only while `done` is still 0. */
    method Do(f: Func)
      requires Valid()
      modifies this
      ensures Valid()
      ensures old(done) == 0 ==> calls == [f] && done == 1
      ensures old(done) != 0 ==> calls == old(calls) && done == old(done)
    {
      if done == 0 {
        DoSlow(f);
      }
    }

    /** `doSlow`: under the lock, check `done` again, run `f`, then set `done` to 1 on the way out. */
    method DoSlow(f: Func)
      requires Valid()
      modifies this
      ensures Valid()
      ensures old(done) == 0 ==> calls == old(calls) + [f] && done == 1
      ensures old(done) != 0 ==> calls == old(calls) && done == old(done)
    {
      if done == 0 {
        calls := calls + [f];
        done := 1;
      }
    }
  }

  /**
   * Any sequence of `Do` calls on a fresh `Once` runs exactly the first
   * function passed, once, and nothing else.
   */
  method DoAll(fs: seq<Func>) returns (ran: seq<Func>)
    ensures fs == [] ==> ran == []
    ensures fs != [] ==> ran == [fs[0]]
    ensures |ran| <= 1
  {
    var once := new Once();
    var i := 0;
    while i < |fs|
      invariant 0 <= i <= |fs| && once.Valid()
      invariant i == 0 ==> once.calls == []
      invariant i > 0 ==> once.calls == [fs[0]]
    {
      once.Do(fs[i]);
      i := i + 1;
    }
    ran := once.calls;
  }
}
