/**
 Walk statistics: saturating counters, the newest modification time and a bounded
 sample of skipped paths, with the in-place recorder that updates them.
 */
module WalkAccounting {
  import opened Wrappers

  const U64_MAX := 0xFFFF_FFFF_FFFF_FFFF
  type U64 = x: int | 0 <= x <= 0xFFFF_FFFF_FFFF_FFFF

  const SKIP_SAMPLE_CAP := 32
  const SKIP_REASON_MAX_BYTES := 128

  type Path = seq<nat>

  function Min(a: int, b: int): int {
    if a <= b then a else b
  }

  function Max(a: int, b: int): (m: int)
    ensures m >= a && m >= b
  {
    if a >= b then a else b
  }

  function SaturatingAdd(a: U64, b: U64): U64 {
    if a + b > U64_MAX then U64_MAX else a + b
  }

  /** The later of two modification times; a file without one never wins. */
  function Newest(a: Option<int>, b: Option<int>): Option<int> {
    match (a, b)
    case (Some(x), Some(y)) => if y > x then b else a
    case (None, _) => b
    case (_, None) => a
  }

  // ----- values ------------------------------------------------------------------------

  // The counters, by position.
  const DIRS: nat := 0
  const FILES: nat := 1
  const BYTES_APPARENT: nat := 2
  const BYTES_ALLOCATED: nat := 3
  const BYTES_HARDLINKED: nat := 4
  const INODES: nat := 5
  const STAT_OPS: nat := 6
  const READDIR_OPS: nat := 7
  const SKIPPED_TOTAL: nat := 8
  const SHARED_WRITABLE_DIRS: nat := 9
  const EXCLUDED_ENTRIES: nat := 10
  const EXCLUDED_CREDENTIALS: nat := 11
  const COUNTERS: nat := 12

  type Counts = s: seq<U64> | |s| == COUNTERS witness [0, 0, 0, 0, 0, 0, 0, 0, 0, 0, 0, 0]

  function Sum(a: Counts, b: Counts): Counts {
    seq(COUNTERS, i requires 0 <= i < COUNTERS => SaturatingAdd(a[i], b[i]))
  }

  /** Everything a walk adds up: twelve saturating counters and the newest modification time. */
  datatype Tally = Tally(counts: Counts, newest: Option<int>) {
    function Plus(t: Tally): Tally {
      Tally(Sum(counts, t.counts), Newest(newest, t.newest))
    }

    function SkippedTotal(): U64 {
      counts[SKIPPED_TOTAL]
    }

    /** Every counter is at most the other's, and so is the newest time. */
    predicate Below(t: Tally) {
      && (forall i :: 0 <= i < COUNTERS ==> counts[i] <= t.counts[i])
      && (newest.Some? ==> t.newest.Some? && newest.value <= t.newest.value)
    }
  }

  const NO_COUNTS: Counts := [0, 0, 0, 0, 0, 0, 0, 0, 0, 0, 0, 0]
  const ZERO := Tally(NO_COUNTS, None)

  /** A single step of one counter. */
  function Once(counter: nat): Tally
    requires counter < COUNTERS
  {
    Tally(NO_COUNTS[counter := 1], None)
  }

  datatype Skipped = Skipped(path: Path, reason: string)

  datatype Stats = Stats(tally: Tally, truncated: bool, unvisited: U64, skipped: seq<Skipped>) {
    /** Counters add up; the sample keeps the first paths up to its cap. */
    function Merge(s: Stats): Stats {
      var remaining := if |skipped| >= SKIP_SAMPLE_CAP then 0 else SKIP_SAMPLE_CAP - |skipped|;
      Stats(tally.Plus(s.tally), truncated || s.truncated, SaturatingAdd(unvisited, s.unvisited),
            skipped + s.skipped[..Min(remaining, |s.skipped|)])
    }

    /** The sample is as long as the cap and the number of skips allow. */
    predicate Sampled() {
      |skipped| == Min(SKIP_SAMPLE_CAP, tally.SkippedTotal())
    }
  }

  const NOTHING := Stats(ZERO, false, 0, [])

  datatype FileMeta = FileMeta(
    uid: nat, dev: nat, len: U64, blocks: U64, nlink: nat, mtime: Option<int>, mode: bv32)

  // What one recorded event contributes on its own.

  function FileTally(meta: FileMeta): Tally {
    Tally(NO_COUNTS[FILES := 1][INODES := 1][BYTES_APPARENT := meta.len][BYTES_ALLOCATED := meta.blocks]
          [BYTES_HARDLINKED := if meta.nlink > 1 then meta.blocks else 0],
          meta.mtime)
  }

  function DirectoryTally(meta: FileMeta): Tally {
    Tally(NO_COUNTS[DIRS := 1][INODES := 1][SHARED_WRITABLE_DIRS := if meta.mode & 0x12 != 0 then 1 else 0], None)
  }

  function Counted(t: Tally): Stats {
    NOTHING.(tally := t)
  }

  function SkipStats(path: Path, reason: string): Stats {
    Stats(Once(SKIPPED_TOTAL), false, 0, [Skipped(path, Clip(reason, SKIP_REASON_MAX_BYTES))])
  }

  const STAT_OP := Once(STAT_OPS)
  const READDIR_OP := Once(READDIR_OPS)

  function ExclusionTally(credential: bool): Tally {
    Tally(NO_COUNTS[EXCLUDED_ENTRIES := 1][EXCLUDED_CREDENTIALS := if credential then 1 else 0], None)
  }

  const CUT := NOTHING.(truncated := true, unvisited := 1)

  // ----- the algebra of statistics --------------------------------------------------------

  lemma PlusZero(a: Tally)
    ensures a.Plus(ZERO) == a && ZERO.Plus(a) == a
  {
  }

  lemma PlusCommutes(a: Tally, b: Tally)
    ensures a.Plus(b) == b.Plus(a)
  {
  }

  /** Saturation does not break associativity: either grouping ends at the same cap. */
  lemma PlusAssociates(a: Tally, b: Tally, c: Tally)
    ensures a.Plus(b).Plus(c) == a.Plus(b.Plus(c))
  {
  }

  lemma PlusIncreases(a: Tally, b: Tally)
    ensures a.Below(a.Plus(b))
  {
  }

  lemma MergeKeepsSample(a: Stats, b: Stats)
    requires a.Sampled() && b.Sampled()
    ensures a.Merge(b).Sampled()
  {
  }

  /** Merging partial results in any grouping keeps the same counters and the same sample. */
  lemma MergeAssociates(a: Stats, b: Stats, c: Stats)
    requires a.Sampled() && b.Sampled() && c.Sampled()
    ensures a.Merge(b).Merge(c) == a.Merge(b.Merge(c))
  {
    PlusAssociates(a.tally, b.tally, c.tally);
    assert a.Merge(b).Merge(c).skipped == a.Merge(b.Merge(c)).skipped;
  }

  lemma CountedMerge(a: Stats, t: Tally)
    ensures a.Merge(Counted(t)) == a.(tally := a.tally.Plus(t))
  {
    assert a.skipped + [] == a.skipped;
  }

  // ----- bounded reasons -----------------------------------------------------------------

  function Utf8Length(c: char): nat {
    if c < '\U{80}' then 1 else if c < '\U{800}' then 2 else if c < '\U{10000}' then 3 else 4
  }

  function Utf8Bytes(s: string): nat {
    if s == [] then 0 else Utf8Bytes(s[..|s| - 1]) + Utf8Length(s[|s| - 1])
  }

  lemma {:induction false} Utf8Prefix(s: string, k: nat)
    requires k <= |s|
    ensures Utf8Bytes(s[..k]) + (|s| - k) <= Utf8Bytes(s)
    decreases |s|
  {
    if k < |s| {
      Utf8Prefix(s[..|s| - 1], k);
      assert s[..|s| - 1][..k] == s[..k];
    } else {
      assert s[..k] == s;
    }
  }

  /** Drop whole characters from the end until the byte budget holds. */
  function Clip(reason: string, budget: nat): string
    decreases |reason|
  {
    if Utf8Bytes(reason) <= budget then reason else Clip(reason[..|reason| - 1], budget)
  }

  /** A prefix within the budget that could not be longer is the clipped reason. */
  lemma {:induction false} ClipIsLongest(reason: string, budget: nat, end: nat)
    requires end <= |reason| && Utf8Bytes(reason[..end]) <= budget
    requires end < |reason| ==> Utf8Bytes(reason[..end + 1]) > budget
    ensures reason[..end] == Clip(reason, budget)
    decreases |reason|
  {
    if end == |reason| {
      assert reason[..end] == reason;
    } else {
      var shorter := reason[..|reason| - 1];
      Utf8Prefix(reason, end + 1);
      assert shorter[..end] == reason[..end];
      if end < |shorter| {
        assert shorter[..end + 1] == reason[..end + 1];
      }
      ClipIsLongest(shorter, budget, end);
    }
  }

  method TruncateReason(reason: string) returns (r: string)
    ensures r == Clip(reason, SKIP_REASON_MAX_BYTES)
  {
    var end, bytes := 0, 0;
    while end < |reason| && bytes + Utf8Length(reason[end]) <= SKIP_REASON_MAX_BYTES
      invariant 0 <= end <= |reason|
      invariant bytes == Utf8Bytes(reason[..end]) <= SKIP_REASON_MAX_BYTES
    {
      assert reason[..end + 1][..end] == reason[..end];
      bytes := bytes + Utf8Length(reason[end]);
      end := end + 1;
    }
    r := reason[..end];
    if end < |reason| {
      assert reason[..end + 1][..end] == reason[..end];
    }
    ClipIsLongest(reason, SKIP_REASON_MAX_BYTES, end);
  }

  // ----- the recorder ------------------------------------------------------------------------

  class WalkStats {
    var counts: Counts
    var newest: Option<int>
    var truncated: bool
    var unvisited: U64
    var skipped: seq<Skipped>

    function Value(): Stats
      reads this
    {
      Stats(Tally(counts, newest), truncated, unvisited, skipped)
    }

    constructor ()
      ensures Value() == NOTHING
    {
      counts, newest, truncated, unvisited, skipped := NO_COUNTS, None, false, 0, [];
    }

    method Add(counter: nat, n: U64)
      requires counter < COUNTERS
      modifies this`counts
      ensures counts == old(counts)[counter := SaturatingAdd(old(counts)[counter], n)]
    {
      counts := counts[counter := SaturatingAdd(counts[counter], n)];
    }

    method Merge(partial: Stats)
      modifies this
      ensures Value() == old(Value()).Merge(partial)
    {
      var i := 0;
      while i < COUNTERS
        invariant 0 <= i <= COUNTERS
        invariant forall k :: 0 <= k < i ==> counts[k] == SaturatingAdd(old(counts)[k], partial.tally.counts[k])
        invariant forall k :: i <= k < COUNTERS ==> counts[k] == old(counts)[k]
        modifies this`counts
      {
        Add(i, partial.tally.counts[i]);
        i := i + 1;
      }
      assert counts == Sum(old(counts), partial.tally.counts);
      RecordMtime(partial.tally.newest);
      truncated := truncated || partial.truncated;
      unvisited := SaturatingAdd(unvisited, partial.unvisited);
      var remaining := if |skipped| >= SKIP_SAMPLE_CAP then 0 else SKIP_SAMPLE_CAP - |skipped|;
      skipped := skipped + partial.skipped[..Min(remaining, |partial.skipped|)];
    }

    method RecordMtime(mtime: Option<int>)
      modifies this`newest
      ensures newest == Newest(old(newest), mtime)
    {
      if mtime.Some? && !(newest.Some? && mtime.value <= newest.value) {
        newest := mtime;
      }
    }

    method RecordSkip(path: Path, reason: string)
      modifies this
      ensures Value() == old(Value()).Merge(SkipStats(path, reason))
    {
      Add(SKIPPED_TOTAL, 1);
      assert counts == Sum(old(counts), Once(SKIPPED_TOTAL).counts);
      var clipped := TruncateReason(reason);
      if |skipped| < SKIP_SAMPLE_CAP {
        skipped := skipped + [Skipped(path, clipped)];
      }
    }

    method RecordFile(meta: FileMeta)
      modifies this`counts, this`newest
      ensures Value() == old(Value()).Merge(Counted(FileTally(meta)))
    {
      Add(FILES, 1);
      Add(INODES, 1);
      Add(BYTES_APPARENT, meta.len);
      Add(BYTES_ALLOCATED, meta.blocks);
      Add(BYTES_HARDLINKED, if meta.nlink > 1 then meta.blocks else 0);
      RecordMtime(meta.mtime);
      assert counts == Sum(old(counts), FileTally(meta).counts);
      CountedMerge(old(Value()), FileTally(meta));
    }

    method RecordDirectory(meta: FileMeta)
      modifies this`counts
      ensures Value() == old(Value()).Merge(Counted(DirectoryTally(meta)))
    {
      Add(DIRS, 1);
      Add(INODES, 1);
      if meta.mode & 0x12 != 0 {
        Add(SHARED_WRITABLE_DIRS, 1);
      }
      assert counts == Sum(old(counts), DirectoryTally(meta).counts);
      CountedMerge(old(Value()), DirectoryTally(meta));
    }

    /** One system call of the given kind. */
    method RecordOp(counter: nat)
      requires counter < COUNTERS
      modifies this`counts
      ensures Value() == old(Value()).Merge(Counted(Once(counter)))
    {
      Add(counter, 1);
      assert counts == Sum(old(counts), Once(counter).counts);
      CountedMerge(old(Value()), Once(counter));
    }

    method RecordExclusion(isCredential: bool)
      modifies this`counts
      ensures Value() == old(Value()).Merge(Counted(ExclusionTally(isCredential)))
    {
      Add(EXCLUDED_ENTRIES, 1);
      if isCredential {
        Add(EXCLUDED_CREDENTIALS, 1);
      }
      assert counts == Sum(old(counts), ExclusionTally(isCredential).counts);
      CountedMerge(old(Value()), ExclusionTally(isCredential));
    }

    method MarkTruncated()
      modifies this`truncated, this`unvisited
      ensures Value() == old(Value()).Merge(CUT)
    {
      truncated := true;
      unvisited := SaturatingAdd(unvisited, 1);
      PlusZero(old(Value()).tally);
      assert skipped + [] == skipped;
    }
  }
}
