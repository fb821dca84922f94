/**
 * How the log-counting and squaring exercises split an index range among
 * workers (concurrency4_test.go and concurrency14_test.go): every worker
 * gets `chunkSize`, the ceiling of `n / workers`, consecutive indices,
 * starting at `i * chunkSize`, with the end clipped to `n`. A late worker's
 * start can lie beyond `n`; its chunk is then empty.
 */
module Chunks {

  /** `(n + workers - 1) / workers`: the ceiling of `n / workers`. */
  function ChunkSize(n: nat, workers: nat): (c: nat)
    requires workers > 0
    ensures c * workers >= n
    ensures c > 0 ==> (c - 1) * workers < n
  {
    (n + workers - 1) / workers
  }

  /** Where worker `i`'s chunk starts. */
  function ChunkStart(i: nat, c: nat): nat
  {
    i * c
  }

  /** Where worker `i`'s chunk ends: one chunk on from its start, but never past `n`. */
  function ChunkEnd(i: nat, c: nat, n: nat): (e: nat)
    ensures e <= n && e <= ChunkStart(i, c) + c
    ensures e == n || e == ChunkStart(i, c) + c
  {
    var end := ChunkStart(i, c) + c;
    if end > n then n else end
  }

  /** Whether index `j` is in worker `i`'s chunk. */
  predicate InChunk(j: int, i: nat, c: nat, n: nat)
  {
    ChunkStart(i, c) <= j < ChunkEnd(i, c, n)
  }

  /** Two different workers never share an index. */
  lemma ChunksDisjoint(i: nat, k: nat, c: nat, n: nat, j: int)
    requires InChunk(j, i, c, n) && InChunk(j, k, c, n)
    ensures i == k
  {
    if i < k {
      assert (i + 1) * c <= k * c by {
        MulMonotone(i + 1, k, c);
      }
    } else if k < i {
      assert (k + 1) * c <= i * c by {
        MulMonotone(k + 1, i, c);
      }
    }
  }

  /** `a <= b` implies `a * c <= b * c`. */
  lemma MulMonotone(a: nat, b: nat, c: nat)
    requires a <= b
    ensures a * c <= b * c
  {
    assert b * c == a * c + (b - a) * c;
  }

  /**
   * With `ChunkSize(n, workers)`, the chunks of workers `0 .. workers - 1`
   * cover `[0, n)`: index `j` lies in the chunk of worker `j / c`.
   */
  lemma ChunksCover(n: nat, workers: nat, j: int)
    requires workers > 0 && 0 <= j < n
    ensures var c := ChunkSize(n, workers);
      c > 0 && j / c < workers && InChunk(j, j / c, c, n)
  {
    var c := ChunkSize(n, workers);
    var i := j / c;
    assert i * c <= j < i * c + c;
    if i >= workers {
      MulMonotone(workers, i, c);
      assert false;
    }
  }

  /** Index `j` is covered by at most one worker and at least one, so every index is processed exactly once. */
  lemma ChunksPartition(n: nat, workers: nat, j: int)
    requires workers > 0 && 0 <= j < n
    ensures exists i :: 0 <= i < workers && InChunk(j, i, ChunkSize(n, workers), n)
    ensures forall i, k ::
      InChunk(j, i, ChunkSize(n, workers), n) && InChunk(j, k, ChunkSize(n, workers), n) ==> i == k
  {
    var c := ChunkSize(n, workers);
    ChunksCover(n, workers, j);
    assert InChunk(j, j / c, c, n);
    forall i: nat, k: nat | InChunk(j, i, c, n) && InChunk(j, k, c, n)
      ensures i == k
    {
      ChunksDisjoint(i, k, c, n, j);
    }
  }

  /**
   * The chunks follow one another: worker `i + 1` starts where worker `i`
   * ends, unless both are already clipped at `n`.
   */
  lemma ChunksConsecutive(i: nat, c: nat, n: nat)
    ensures ChunkEnd(i, c, n) < n ==> ChunkStart(i + 1, c) == ChunkEnd(i, c, n)
    ensures ChunkEnd(i, c, n) == n ==> ChunkEnd(i + 1, c, n) == n
  {
    assert ChunkStart(i + 1, c) == ChunkStart(i, c) + c;
  }

  /** How many leading indices the first `i` workers have covered. */
  function Covered(i: nat, c: nat, n: nat): (k: nat)
    ensures k <= n
  {
    if ChunkStart(i, c) < n then ChunkStart(i, c) else n
  }

  /** All `workers` chunks of size `ChunkSize(n, workers)` together cover `[0, n)`. */
  lemma CoveredAll(n: nat, workers: nat)
    requires workers > 0
    ensures Covered(workers, ChunkSize(n, workers), n) == n
  {
  }
}
