/**
 * The chunked squaring of `TestConcurrency14` (concurrency14_test.go):
 * three workers each square one chunk of the input into a shared result
 * array. The workers write disjoint chunks, so running them one after the
 * other gives what running them at once gives. Despite the exercise's
 * title no sum is formed: the result is the array of squares. Go's `int`
 * is 64 bits wide and `arr[j] * arr[j]` can overflow; the model's integers
 * are unbounded.
 */
module Squares {
  import opened Chunks

  /** One worker: `res[j] = arr[j] * arr[j]` for `j` in `[start, end)`, and no other index. */
  method SquareChunk(arr: array<int>, res: array<int>, start: nat, end: nat)
    requires arr != res && arr.Length == res.Length && end <= res.Length
    modifies res
    ensures forall j :: start <= j < end ==> res[j] == arr[j] * arr[j]
    ensures forall j :: 0 <= j < res.Length && !(start <= j < end) ==> res[j] == old(res[j])
  {
    var j := start;
    while j < end
      invariant j == start || start <= j <= end
      invariant forall k :: start <= k < j && k < end ==> res[k] == arr[k] * arr[k]
      invariant forall k :: 0 <= k < res.Length && !(start <= k < j) ==> res[k] == old(res[k])
    {
      res[j] := arr[j] * arr[j];
      j := j + 1;
    }
  }

  /**
   * The test body for any input: a result of the input's length whose every
   * element is the square of the input's element at that index.
   */
  method SquareInChunks(nums: seq<int>) returns (result: seq<int>)
    ensures |result| == |nums|
    ensures forall j :: 0 <= j < |nums| ==> result[j] == nums[j] * nums[j]
  {
    var arr := new int[|nums|](j requires 0 <= j < |nums| => nums[j]);
    var res := new int[|nums|];
    var chunkSize := (|nums| + 2) / 3;
    assert chunkSize == ChunkSize(|nums|, 3);
    var i := 0;
    while i < 3
      invariant 0 <= i <= 3
      invariant arr[..] == nums
      invariant forall j :: 0 <= j < |nums| && j < ChunkStart(i, chunkSize) ==> res[j] == nums[j] * nums[j]
    {
      var start := i * chunkSize;
      var end := start + chunkSize;
      if end > |nums| {
        end := |nums|;
      }
      assert end == ChunkEnd(i, chunkSize, |nums|);
      SquareChunk(arr, res, start, end);
      forall j | 0 <= j < |nums| && j < ChunkStart(i + 1, chunkSize)
        ensures res[j] == nums[j] * nums[j]
      {
        assert arr[j] == nums[j];
      }
      i := i + 1;
    }
    result := res[..];
  }

  /** For 1 .. 10 the result is 1, 4, 9, ..., 100. */
  method SquaresScenario() returns (result: seq<int>)
    ensures result == [1, 4, 9, 16, 25, 36, 49, 64, 81, 100]
  {
    result := SquareInChunks([1, 2, 3, 4, 5, 6, 7, 8, 9, 10]);
  }
}
