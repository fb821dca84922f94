/**
 * The log-level count of `TestConcurrency4` and `countLogLevels`
 * (concurrency4_test.go).
 *
 * Each worker counts the levels of its chunk of lines into a local map and
 * then, under the mutex, adds every local count into the shared map. The
 * workers run one after the other here; since merging is commutative the
 * order does not matter, which `MergedCommutes` states.
 */
module LogCounts {
  import opened Chunks

  /** A level-to-count map such as `counts` and `localCounts`. */
  type Counts = map<string, int>

  /** Reading a map in Go: an absent level reads as 0. */
  function Get(m: Counts, level: string): int
  {
    if level in m then m[level] else 0
  }

  /** `strings.Index(line, ":")` on a line that has a colon: the position of the first one. */
  function ColonIndex(line: string): (k: nat)
    requires ':' in line
    ensures k < |line| && line[k] == ':' && ':' !in line[..k]
  {
    if line[0] == ':' then 0
    else
      assert ':' in line[1..] by {
        assert line == [line[0]] + line[1..];
      }
      var k := ColonIndex(line[1..]);
      assert line[..k + 1] == [line[0]] + line[1..][..k];
      k + 1
  }

  /** The level of a line: everything before its first colon. */
  function Level(line: string): (level: string)
    requires ':' in line
    ensures |level| < |line| && line[..|level|] == level && line[|level|] == ':'
    ensures ':' !in level
  {
    line[..ColonIndex(line)]
  }

  /** A colon-free prefix followed by a colon is the level: the level is well defined. */
  lemma LevelUnique(line: string, p: string)
    requires ':' !in p && |p| < |line| && line[..|p|] == p && line[|p|] == ':'
    ensures p == Level(line)
  {
  }

  /** Every line has a colon. Go's slice expression panics on a line without one. */
  predicate Leveled(lines: seq<string>)
  {
    forall i :: 0 <= i < |lines| ==> ':' in lines[i]
  }

  /** `localCounts[level]++`. */
  function Inc(m: Counts, level: string): Counts
  {
    m[level := Get(m, level) + 1]
  }

  /** The local map after counting `lines` in order, one increment per line. */
  function Tally(lines: seq<string>): Counts
    requires Leveled(lines)
    decreases |lines|
  {
    if lines == [] then map[]
    else Inc(Tally(lines[..|lines| - 1]), Level(lines[|lines| - 1]))
  }

  /** The reference count: how many of `lines` have level `level`. */
  function Count(lines: seq<string>, level: string): nat
    requires Leveled(lines)
    decreases |lines|
  {
    if lines == [] then 0
    else (if Level(lines[0]) == level then 1 else 0) + Count(lines[1..], level)
  }

  /** `for level, count := range local { counts[level] += count }`, as one map. */
  function Merged(g: Counts, l: Counts): Counts
  {
    map level | level in g.Keys + l.Keys :: Get(g, level) + Get(l, level)
  }

  /** A merged map holds the levels of both maps, each with the sum of its two counts. */
  lemma MergedMeans(g: Counts, l: Counts)
    ensures Merged(g, l).Keys == g.Keys + l.Keys
    ensures forall level :: Get(Merged(g, l), level) == Get(g, level) + Get(l, level)
  {
  }

  /** Counting splits over concatenation. */
  lemma {:induction false} CountConcat(a: seq<string>, b: seq<string>, level: string)
    requires Leveled(a) && Leveled(b)
    ensures Leveled(a + b)
    ensures Count(a + b, level) == Count(a, level) + Count(b, level)
    decreases |a|
  {
    if a != [] {
      CountConcat(a[1..], b, level);
      assert (a + b)[0] == a[0] && (a + b)[1..] == a[1..] + b;
    } else {
      assert a + b == b;
    }
  }

  /** The local map holds exactly the levels that occur, each with the number of lines at that level. */
  lemma {:induction false} TallyCount(lines: seq<string>, level: string)
    requires Leveled(lines)
    ensures Get(Tally(lines), level) == Count(lines, level)
    ensures level in Tally(lines) <==> Count(lines, level) > 0
    decreases |lines|
  {
    if lines != [] {
      var init, last := lines[..|lines| - 1], lines[|lines| - 1];
      TallyCount(init, level);
      CountConcat(init, [last], level);
      assert init + [last] == lines;
      assert [last][1..] == [];
    }
  }

  /** `TallyCount` for every level at once. */
  lemma TallyCounts(lines: seq<string>)
    requires Leveled(lines)
    ensures forall level :: Get(Tally(lines), level) == Count(lines, level)
  {
    forall level | true
      ensures Get(Tally(lines), level) == Count(lines, level)
    {
      TallyCount(lines, level);
    }
  }

  /** Counting `a + b` is counting `a`, counting `b`, and merging. */
  lemma TallyConcat(a: seq<string>, b: seq<string>)
    requires Leveled(a) && Leveled(b)
    ensures Leveled(a + b) && Tally(a + b) == Merged(Tally(a), Tally(b))
  {
    CountConcat(a, b, "");
    var left, right := Tally(a + b), Merged(Tally(a), Tally(b));
    MergedMeans(Tally(a), Tally(b));
    forall level | true
      ensures level in left <==> level in right
      ensures level in left ==> left[level] == right[level]
    {
      TallyCount(a + b, level);
      TallyCount(a, level);
      TallyCount(b, level);
      CountConcat(a, b, level);
    }
  }

  /** Merging nothing changes nothing. */
  lemma MergedEmpty(g: Counts)
    ensures Merged(g, map[]) == g
  {
    MergedMeans(g, map[]);
    assert forall level :: level in g ==> Get(g, level) == g[level];
  }

  /** Merging local maps in either order gives the same global map. */
  lemma MergedCommutes(g: Counts, a: Counts, b: Counts)
    ensures Merged(Merged(g, a), b) == Merged(Merged(g, b), a)
  {
    var left, right := Merged(Merged(g, a), b), Merged(Merged(g, b), a);
    MergedMeans(g, a);
    MergedMeans(g, b);
    MergedMeans(Merged(g, a), b);
    MergedMeans(Merged(g, b), a);
    assert left.Keys == right.Keys;
    forall level | level in left
      ensures left[level] == right[level]
    {
      assert left[level] == Get(left, level) && right[level] == Get(right, level);
    }
  }

  /** Merging one more local entry is one more `+=`. */
  lemma MergedAddKey(g: Counts, h: Counts, level: string, count: int)
    requires level !in h
    ensures Merged(g, h[level := count]) == Merged(g, h)[level := Get(Merged(g, h), level) + count]
  {
    var left, right := Merged(g, h[level := count]), Merged(g, h)[level := Get(Merged(g, h), level) + count];
    MergedMeans(g, h);
    MergedMeans(g, h[level := count]);
    assert forall k :: k in left ==> left[k] == Get(left, k);
    assert forall k :: k in right ==> right[k] == Get(right, k);
  }

  /** Some level of a non-empty set. */
  ghost function Pick(levels: set<string>): (level: string)
    requires levels != {}
    ensures level in levels
  {
    var level :| level in levels;
    level
  }

  /** The sum of the counts of `levels` in `m`, an absent level counting 0. */
  ghost function SumOver(m: Counts, levels: set<string>): int
    decreases levels
  {
    if levels == {} then 0
    else Get(m, Pick(levels)) + SumOver(m, levels - {Pick(levels)})
  }

  /** The sum of all counts in a map. */
  ghost function Total(m: Counts): int
  {
    SumOver(m, m.Keys)
  }

  /** A sum can be taken apart at any level. */
  lemma {:induction false} SumRemove(m: Counts, levels: set<string>, level: string)
    requires level in levels
    ensures SumOver(m, levels) == Get(m, level) + SumOver(m, levels - {level})
    decreases levels
  {
    var chosen := Pick(levels);
    if chosen != level {
      SumRemove(m, levels - {chosen}, level);
      SumRemove(m, levels - {level}, chosen);
      assert levels - {chosen} - {level} == levels - {level} - {chosen};
    }
  }

  /** Two maps that agree on `levels` have the same sum over them. */
  lemma {:induction false} SumAgree(m: Counts, m': Counts, levels: set<string>)
    requires forall level :: level in levels ==> Get(m, level) == Get(m', level)
    ensures SumOver(m, levels) == SumOver(m', levels)
    decreases levels
  {
    if levels != {} {
      SumAgree(m, m', levels - {Pick(levels)});
    }
  }

  /** Levels a map does not hold add nothing to a sum. */
  lemma {:induction false} SumAbsent(m: Counts, levels: set<string>, extra: set<string>)
    requires forall level :: level in extra ==> level !in m && level !in levels
    ensures SumOver(m, levels + extra) == SumOver(m, levels)
    decreases extra
  {
    if extra != {} {
      var level := Pick(extra);
      SumRemove(m, levels + extra, level);
      assert levels + extra - {level} == levels + (extra - {level});
      SumAbsent(m, levels, extra - {level});
    } else {
      assert levels + extra == levels;
    }
  }

  /** The sum over a merged map is the sum of the two sums. */
  lemma {:induction false} SumMerged(g: Counts, l: Counts, levels: set<string>)
    ensures SumOver(Merged(g, l), levels) == SumOver(g, levels) + SumOver(l, levels)
    decreases levels
  {
    if levels != {} {
      MergedMeans(g, l);
      SumMerged(g, l, levels - {Pick(levels)});
    }
  }

  /** Adding `count` to one level adds `count` to the total. */
  lemma TotalAdd(m: Counts, level: string, count: int)
    ensures Total(m[level := Get(m, level) + count]) == Total(m) + count
  {
    var m' := m[level := Get(m, level) + count];
    var rest := m.Keys - {level};
    SumRemove(m', m'.Keys, level);
    assert m'.Keys - {level} == rest;
    SumAgree(m', m, rest);
    if level in m {
      SumRemove(m, m.Keys, level);
    } else {
      assert m.Keys == rest;
    }
  }

  /** The merged total is the sum of the totals: `countLogLevels` adds its local total to the global one. */
  lemma TotalMerged(g: Counts, l: Counts)
    ensures Total(Merged(g, l)) == Total(g) + Total(l)
  {
    var all := g.Keys + l.Keys;
    MergedMeans(g, l);
    SumMerged(g, l, all);
    SumAbsent(g, g.Keys, l.Keys - g.Keys);
    assert g.Keys + (l.Keys - g.Keys) == all;
    SumAbsent(l, l.Keys, g.Keys - l.Keys);
    assert l.Keys + (g.Keys - l.Keys) == all;
  }

  /** Counting `n` lines gives counts that sum to `n`. */
  lemma {:induction false} TallyTotal(lines: seq<string>)
    requires Leveled(lines)
    ensures Total(Tally(lines)) == |lines|
    decreases |lines|
  {
    if lines != [] {
      var init := lines[..|lines| - 1];
      TallyTotal(init);
      TotalAdd(Tally(init), Level(lines[|lines| - 1]), 1);
    }
  }

  /**
   * The first loop of `countLogLevels`: count the lines in `[start, end)`
   * into a new local map. When `start >= end` the loop does nothing, even
   * if `start` is past the end of `logs`.
   */
  method LocalCounts(logs: seq<string>, start: nat, end: nat) returns (local: Counts)
    requires end <= |logs| && forall i :: start <= i < end ==> ':' in logs[i]
    ensures start < end ==> Leveled(logs[start..end]) && local == Tally(logs[start..end])
    ensures start >= end ==> local == map[]
  {
    local := map[];
    var i := start;
    while i < end
      invariant i == start || start < i <= end
      invariant start < i ==> Leveled(logs[start..i]) && local == Tally(logs[start..i])
      invariant i == start ==> local == map[]
    {
      assert Leveled(logs[start..i + 1]);
      var level := Level(logs[i]);
      local := local[level := Get(local, level) + 1];
      assert logs[start..i + 1][..i - start] == logs[start..i];
      i := i + 1;
    }
  }

  /** The shared map `counts` that the workers merge into. */
  class LevelCounts {
    var counts: Counts

    constructor ()
      ensures counts == map[]
    {
      counts := map[];
    }

    /** The second loop of `countLogLevels`: add every local count into `counts`, in any order. */
    method Merge(local: Counts)
      modifies this
      ensures counts == Merged(old(counts), local)
    {
      ghost var start := counts;
      var remaining := local.Keys;
      assert local - remaining == map[];
      MergedEmpty(start);
      while remaining != {}
        invariant remaining <= local.Keys
        invariant counts == Merged(start, local - remaining)
        decreases |remaining|
      {
        var level :| level in remaining;
        var count := local[level];
        ghost var before := local - remaining;
        assert local - (remaining - {level}) == before[level := count];
        MergedAddKey(start, before, level, count);
        counts := counts[level := Get(counts, level) + count];
        remaining := remaining - {level};
      }
      assert local - remaining == local;
    }

    /** `countLogLevels`: count the chunk `[start, end)` locally, then merge. */
    method CountLogLevels(logs: seq<string>, start: nat, end: nat)
      requires end <= |logs| && forall i :: start <= i < end ==> ':' in logs[i]
      modifies this
      ensures start < end ==> Leveled(logs[start..end]) && counts == Merged(old(counts), Tally(logs[start..end]))
      ensures start >= end ==> counts == old(counts)
      ensures Total(counts) == Total(old(counts)) + (if start < end then end - start else 0)
    {
      var local := LocalCounts(logs, start, end);
      Merge(local);
      MergedEmpty(old(counts));
      TotalMerged(old(counts), local);
      if start < end {
        TallyTotal(logs[start..end]);
      }
    }
  }

  /**
   * One turn of the chunk loop: merging the counts of worker `i`'s chunk
   * into the counts of the lines before it gives the counts of the lines up
   * to the chunk's end.
   */
  lemma ChunkStep(logs: seq<string>, i: nat, c: nat)
    requires Leveled(logs)
    ensures var start, end := ChunkStart(i, c), ChunkEnd(i, c, |logs|);
      && (start < end ==>
        && Leveled(logs[start..end])
        && Tally(logs[..Covered(i + 1, c, |logs|)]) == Merged(Tally(logs[..Covered(i, c, |logs|)]), Tally(logs[start..end])))
      && (start >= end ==> Covered(i + 1, c, |logs|) == Covered(i, c, |logs|))
  {
    var start, end := ChunkStart(i, c), ChunkEnd(i, c, |logs|);
    ChunksConsecutive(i, c, |logs|);
    if start < end {
      assert Covered(i, c, |logs|) == start && Covered(i + 1, c, |logs|) == end;
      assert logs[..end] == logs[..start] + logs[start..end];
      TallyConcat(logs[..start], logs[start..end]);
    }
  }

  /** One turn of the test's chunk loop: worker `i` counts its chunk into the shared map. */
  method CountChunk(shared: LevelCounts, logs: seq<string>, i: nat, chunkSize: nat)
    requires Leveled(logs) && shared.counts == Tally(logs[..Covered(i, chunkSize, |logs|)])
    modifies shared
    ensures shared.counts == Tally(logs[..Covered(i + 1, chunkSize, |logs|)])
  {
    var start := i * chunkSize;
    var end := start + chunkSize;
    if end > |logs| {
      end := |logs|;
    }
    assert start == ChunkStart(i, chunkSize) && end == ChunkEnd(i, chunkSize, |logs|);
    ChunkStep(logs, i, chunkSize);
    shared.CountLogLevels(logs, start, end);
  }

  /**
   * The body of `TestConcurrency4` for any lines and number of workers:
   * the chunks are counted one after the other and the result is the count
   * of all the lines.
   */
  method CountAllLevels(logs: seq<string>, numWorkers: nat) returns (counts: Counts)
    requires numWorkers > 0 && Leveled(logs)
    ensures counts == Tally(logs)
    ensures forall level :: Get(counts, level) == Count(logs, level)
    ensures Total(counts) == |logs|
  {
    var shared := new LevelCounts();
    var chunkSize := (|logs| + numWorkers - 1) / numWorkers;
    assert chunkSize == ChunkSize(|logs|, numWorkers);
    assert logs[..Covered(0, chunkSize, |logs|)] == [];
    var i := 0;
    while i < numWorkers
      invariant 0 <= i <= numWorkers
      invariant shared.counts == Tally(logs[..Covered(i, chunkSize, |logs|)])
    {
      CountChunk(shared, logs, i, chunkSize);
      i := i + 1;
    }
    CoveredAll(|logs|, numWorkers);
    assert logs[..|logs|] == logs;
    counts := shared.counts;
    TallyCounts(logs);
    TallyTotal(logs);
  }

  /** Counting already-parsed levels, one increment per level. */
  function CountLevels(levels: seq<string>): Counts
    decreases |levels|
  {
    if levels == [] then map[]
    else Inc(CountLevels(levels[..|levels| - 1]), levels[|levels| - 1])
  }

  /** Counting lines is parsing their levels and counting those. */
  lemma {:induction false} TallyByLevels(lines: seq<string>, levels: seq<string>)
    requires Leveled(lines) && |levels| == |lines|
    requires forall i :: 0 <= i < |lines| ==> Level(lines[i]) == levels[i]
    ensures Tally(lines) == CountLevels(levels)
    decreases |lines|
  {
    if lines != [] {
      TallyByLevels(lines[..|lines| - 1], levels[..|levels| - 1]);
    }
  }

  /** A log line: its level, a colon, a space and the message. */
  function Line(level: string, message: string): string
  {
    level + ": " + message
  }

  /** The level of a line is the level it was written with, when that has no colon. */
  lemma LevelOfLine(level: string, message: string)
    requires ':' !in level
    ensures ':' in Line(level, message) && Level(Line(level, message)) == level
  {
    var line := Line(level, message);
    assert line[..|level|] == level && line[|level|] == ':';
    LevelUnique(line, level);
  }

  const SampleLevelsList: seq<string> :=
    ["INFO", "ERROR", "WARNING", "INFO", "ERROR", "INFO", "WARNING", "ERROR", "INFO", "WARNING"]

  const SampleMessages: seq<string> := [
    "User logged in", "Database connection failed", "Disk space low", "File uploaded",
    "Timeout while fetching data", "User logged out", "High memory usage detected",
    "Failed to write to disk", "Scheduled job started", "CPU temperature high"
  ]

  /** The ten lines of the test. */
  const SampleLogs: seq<string> := seq(10, i requires 0 <= i < 10 => Line(SampleLevelsList[i], SampleMessages[i]))

  /** The levels of the test's lines. */
  lemma SampleLevels()
    ensures Leveled(SampleLogs)
    ensures forall i :: 0 <= i < |SampleLogs| ==> Level(SampleLogs[i]) == SampleLevelsList[i]
  {
    forall i | 0 <= i < |SampleLogs|
      ensures ':' in SampleLogs[i] && Level(SampleLogs[i]) == SampleLevelsList[i]
    {
      assert ':' !in SampleLevelsList[i];
      LevelOfLine(SampleLevelsList[i], SampleMessages[i]);
    }
  }

  /** Counting the test's levels, one line at a time. */
  lemma SampleCountLevels()
    ensures CountLevels(SampleLevelsList) == map["INFO" := 4, "ERROR" := 3, "WARNING" := 3]
  {
    var levels := SampleLevelsList;
    assert levels[..0] == [];
    assert levels[..1][..0] == levels[..0];
    assert CountLevels(levels[..1]) == map["INFO" := 1];
    assert levels[..2][..1] == levels[..1];
    assert CountLevels(levels[..2]) == map["INFO" := 1, "ERROR" := 1];
    assert levels[..3][..2] == levels[..2];
    assert CountLevels(levels[..3]) == map["INFO" := 1, "ERROR" := 1, "WARNING" := 1];
    assert levels[..4][..3] == levels[..3];
    assert CountLevels(levels[..4]) == map["INFO" := 2, "ERROR" := 1, "WARNING" := 1];
    assert levels[..5][..4] == levels[..4];
    assert CountLevels(levels[..5]) == map["INFO" := 2, "ERROR" := 2, "WARNING" := 1];
    assert levels[..6][..5] == levels[..5];
    assert CountLevels(levels[..6]) == map["INFO" := 3, "ERROR" := 2, "WARNING" := 1];
    assert levels[..7][..6] == levels[..6];
    assert CountLevels(levels[..7]) == map["INFO" := 3, "ERROR" := 2, "WARNING" := 2];
    assert levels[..8][..7] == levels[..7];
    assert CountLevels(levels[..8]) == map["INFO" := 3, "ERROR" := 3, "WARNING" := 2];
    assert levels[..9][..8] == levels[..8];
    assert CountLevels(levels[..9]) == map["INFO" := 4, "ERROR" := 3, "WARNING" := 2];
    assert levels[..10][..9] == levels[..9];
    assert CountLevels(levels[..10]) == map["INFO" := 4, "ERROR" := 3, "WARNING" := 3];
    assert levels[..10] == levels;
  }

  /** What counting the test's lines gives. */
  lemma SampleTally()
    ensures Leveled(SampleLogs)
    ensures Tally(SampleLogs) == map["INFO" := 4, "ERROR" := 3, "WARNING" := 3]
  {
    SampleLevels();
    TallyByLevels(SampleLogs, SampleLevelsList);
    SampleCountLevels();
  }

  /** The test's lines, counted by three workers: INFO 4, ERROR 3, WARNING 3, ten in all. */
  method SampleScenario() returns (counts: Counts)
    ensures counts == map["INFO" := 4, "ERROR" := 3, "WARNING" := 3]
    ensures Total(counts) == |SampleLogs|
  {
    SampleTally();
    counts := CountAllLevels(SampleLogs, 3);
  }
}
