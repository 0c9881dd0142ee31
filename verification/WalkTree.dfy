/**
 One directory of a walk: what scanning it records, which child directories it
 defers, and the recursive fold of a whole tree that the pool must reproduce.

 A tree is the finite set of facts the file system returns: whether a verified
 open succeeds, whether the directory lists, and what inspecting each entry says.
 */
module WalkTree {
  import opened Wrappers
  import opened WalkAccounting

  /** The walk's policy; the wording of its two skip reasons is a parameter. */
  datatype WalkOptions = WalkOptions(
    requiredUid: Option<nat>, rootDevice: Option<nat>, excludedNames: set<string>, credentialNames: set<string>,
    ownerReason: string, boundaryReason: string)
  {
    predicate ForeignOwner(meta: FileMeta) {
      requiredUid.Some? && meta.uid != requiredUid.value
    }

    predicate CrossesFilesystem(meta: FileMeta) {
      rootDevice.Some? && meta.dev != rootDevice.value
    }
  }

  datatype Dir = Dir(meta: FileMeta, opening: Opening, listing: Listing)

  /** The verified open: only a missing name is benign, any other failure is a skip. */
  datatype Opening = Opens | Vanished | Refused(reason: string)

  datatype Listing = Unlistable(reason: string) | Entries(entries: seq<Entry>)

  datatype Entry = Failed(reason: string) | Named(name: string, probe: Probe)

  datatype Probe = Gone | Unstatable(reason: string) | Leaf(meta: FileMeta) | Subdirectory(dir: Dir)

  /** A deferred directory; the root has the empty path and was already opened and counted. */
  datatype Pending = Pending(path: Path, dir: Dir)

  datatype ScanResult = ScanResult(stats: Stats, dirs: seq<Pending>)

  // ----- one entry --------------------------------------------------------------------------

  /** What inspecting a named, non-excluded entry records after its stat. */
  function ProbeStats(o: WalkOptions, path: Path, probe: Probe): Stats {
    match probe
    case Gone => NOTHING
    case Unstatable(reason) => SkipStats(path, reason)
    case Leaf(meta) =>
      if o.ForeignOwner(meta) then SkipStats(path, o.ownerReason) else Counted(FileTally(meta))
    case Subdirectory(dir) =>
      if o.ForeignOwner(dir.meta) then SkipStats(path, o.ownerReason)
      else if o.CrossesFilesystem(dir.meta) then SkipStats(path, o.boundaryReason)
      else NOTHING
  }

  function EntryStats(o: WalkOptions, dirPath: Path, index: nat, e: Entry): Stats {
    match e
    case Failed(reason) => SkipStats(dirPath, reason)
    case Named(name, probe) =>
      if name in o.excludedNames then Counted(ExclusionTally(name in o.credentialNames))
      else Counted(STAT_OP).Merge(ProbeStats(o, dirPath + [index], probe))
  }

  /** The child directory an entry defers, if any. */
  function EntryChild(o: WalkOptions, e: Entry): Option<Dir> {
    if e.Named? && e.name !in o.excludedNames && e.probe.Subdirectory?
       && !o.ForeignOwner(e.probe.dir.meta) && !o.CrossesFilesystem(e.probe.dir.meta)
    then Some(e.probe.dir)
    else None
  }

  function EntryDirs(o: WalkOptions, dirPath: Path, index: nat, e: Entry): seq<Pending> {
    match EntryChild(o, e)
    case Some(child) => [Pending(dirPath + [index], child)]
    case None => []
  }

  // ----- a scan cut off by the deadline --------------------------------------------------------

  /** The directory read and its first `n` entries. */
  function EntriesStats(o: WalkOptions, p: Path, es: seq<Entry>, n: nat): (s: Stats)
    requires n <= |es|
    ensures !s.truncated && s.unvisited == 0
    decreases n
  {
    if n == 0 then Counted(READDIR_OP) else EntriesStats(o, p, es, n - 1).Merge(EntryStats(o, p, n - 1, es[n - 1]))
  }

  function EntriesDirs(o: WalkOptions, p: Path, es: seq<Entry>, n: nat): seq<Pending>
    requires n <= |es|
  {
    if n == 0 then [] else EntriesDirs(o, p, es, n - 1) + EntryDirs(o, p, n - 1, es[n - 1])
  }

  /**
   `expiry` numbers the first deadline poll of a scan that reports expiry, if any: poll 0
   comes before the directory is read, poll `i + 1` before its entry `i`.
   */
  predicate Expired(expiry: Option<nat>, poll: nat) {
    expiry.Some? && poll >= expiry.value
  }

  /** How many of a directory's entries are scanned. */
  function Reached(count: nat, expiry: Option<nat>): (n: nat)
    ensures n <= count
  {
    if expiry.Some? && expiry.value <= count then Max(expiry.value - 1, 0) else count
  }

  function ScanStats(o: WalkOptions, p: Path, listing: Listing, expiry: Option<nat>): Stats {
    if Expired(expiry, 0) then CUT
    else
      match listing
      case Unlistable(reason) => Counted(READDIR_OP).Merge(SkipStats(p, reason))
      case Entries(es) =>
        var n := Reached(|es|, expiry);
        if n < |es| then EntriesStats(o, p, es, n).Merge(CUT) else EntriesStats(o, p, es, n)
  }

  function ScanDirs(o: WalkOptions, p: Path, listing: Listing, expiry: Option<nat>): seq<Pending> {
    if Expired(expiry, 0) || listing.Unlistable? then []
    else EntriesDirs(o, p, listing.entries, Reached(|listing.entries|, expiry))
  }

  /** The root's directory record was made before the walk; a child's needs its verified open. */
  function OpenStats(item: Pending): Stats {
    if item.path == [] then NOTHING
    else
      match item.dir.opening
      case Opens => Counted(DirectoryTally(item.dir.meta))
      case Vanished => NOTHING
      case Refused(reason) => SkipStats(item.path, reason)
  }

  predicate Scans(item: Pending) {
    item.path == [] || item.dir.opening.Opens?
  }

  function Consumed(o: WalkOptions, item: Pending, expiry: Option<nat>): ScanResult {
    if Scans(item)
    then ScanResult(OpenStats(item).Merge(ScanStats(o, item.path, item.dir.listing, expiry)),
                    ScanDirs(o, item.path, item.dir.listing, expiry))
    else ScanResult(OpenStats(item), [])
  }

  // ----- the scanner itself ------------------------------------------------------------------

  method ScanEntry(o: WalkOptions, stats: WalkStats, dirPath: Path, index: nat, e: Entry) returns (found: seq<Pending>)
    modifies stats
    ensures stats.Value() == old(stats.Value()).Merge(EntryStats(o, dirPath, index, e))
    ensures found == EntryDirs(o, dirPath, index, e)
  {
    found := [];
    match e
    case Failed(reason) => stats.RecordSkip(dirPath, reason);
    case Named(name, probe) =>
      if name in o.excludedNames {
        stats.RecordExclusion(name in o.credentialNames);
      } else {
        found := ScanProbe(o, stats, dirPath + [index], probe);
      }
  }

  method ScanProbe(o: WalkOptions, stats: WalkStats, path: Path, probe: Probe) returns (found: seq<Pending>)
    modifies stats
    ensures stats.Value() == old(stats.Value()).Merge(Counted(STAT_OP).Merge(ProbeStats(o, path, probe)))
    ensures found == if probe.Subdirectory? && !o.ForeignOwner(probe.dir.meta) && !o.CrossesFilesystem(probe.dir.meta)
                     then [Pending(path, probe.dir)] else []
  {
    ghost var before := stats.Value();
    found := [];
    stats.RecordOp(STAT_OPS);
    ghost var inspected := stats.Value();
    match probe {
      case Gone =>
      case Unstatable(reason) => stats.RecordSkip(path, reason);
      case Leaf(meta) =>
        if o.ForeignOwner(meta) {
          stats.RecordSkip(path, o.ownerReason);
        } else {
          stats.RecordFile(meta);
        }
      case Subdirectory(dir) =>
        if o.ForeignOwner(dir.meta) {
          stats.RecordSkip(path, o.ownerReason);
        } else if o.CrossesFilesystem(dir.meta) {
          stats.RecordSkip(path, o.boundaryReason);
        } else {
          found := [Pending(path, dir)];
        }
    }
    assert stats.Value() == inspected.Merge(ProbeStats(o, path, probe)) by {
      MergeNothingRight(inspected);
    }
    CountedFirst(before, STAT_OP, ProbeStats(o, path, probe));
  }

  lemma MergeNothingRight(a: Stats)
    ensures a.Merge(NOTHING) == a
  {
    CountedMerge(a, ZERO);
    PlusZero(a.tally);
  }

  /** Counting first and then merging is merging the counted sum. */
  lemma CountedFirst(a: Stats, t: Tally, b: Stats)
    requires |b.skipped| <= SKIP_SAMPLE_CAP
    ensures a.Merge(Counted(t)).Merge(b) == a.Merge(Counted(t).Merge(b))
  {
    CountedMerge(a, t);
    PlusAssociates(a.tally, t, b.tally);
    assert Counted(t).Merge(b).skipped == b.skipped;
  }

  method ScanDir(o: WalkOptions, p: Path, listing: Listing, expiry: Option<nat>)
    returns (stats: WalkStats, dirs: seq<Pending>)
    ensures fresh(stats)
    ensures stats.Value() == ScanStats(o, p, listing, expiry)
    ensures dirs == ScanDirs(o, p, listing, expiry)
  {
    stats := new WalkStats();
    dirs := [];
    if Expired(expiry, 0) {
      stats.MarkTruncated();
      return;
    }
    stats.RecordOp(READDIR_OPS);
    assert stats.Value() == Counted(READDIR_OP);
    match listing
    case Unlistable(reason) => stats.RecordSkip(p, reason);
    case Entries(es) =>
      var n;
      dirs, n := ScanEntries(o, stats, p, es, expiry);
      if n < |es| {
        stats.MarkTruncated();
      }
  }

  /** The recorder and the deferred list are exactly as the first `n` entries leave them. */
  predicate ScannedTo(o: WalkOptions, stats: WalkStats, dirs: seq<Pending>, p: Path, es: seq<Entry>, n: nat)
    requires n <= |es|
    reads stats
  {
    stats.Value() == EntriesStats(o, p, es, n) && dirs == EntriesDirs(o, p, es, n)
  }

  method ScanNext(o: WalkOptions, stats: WalkStats, dirs: seq<Pending>, p: Path, es: seq<Entry>, n: nat)
    returns (extended: seq<Pending>)
    requires n < |es| && ScannedTo(o, stats, dirs, p, es, n)
    modifies stats
    ensures ScannedTo(o, stats, extended, p, es, n + 1)
  {
    var found := ScanEntry(o, stats, p, n, es[n]);
    extended := dirs + found;
  }

  method ScanEntries(o: WalkOptions, stats: WalkStats, p: Path, es: seq<Entry>, expiry: Option<nat>)
    returns (dirs: seq<Pending>, n: nat)
    requires stats.Value() == Counted(READDIR_OP) && !Expired(expiry, 0)
    modifies stats
    ensures n == Reached(|es|, expiry)
    ensures ScannedTo(o, stats, dirs, p, es, n)
  {
    n, dirs := 0, [];
    var polls := if expiry.Some? then expiry.value else |es| + 1;
    while n < |es| && n + 1 < polls
      invariant n <= |es| && n < polls
      invariant ScannedTo(o, stats, dirs, p, es, n)
    {
      dirs := ScanNext(o, stats, dirs, p, es, n);
      n := n + 1;
    }
  }

  lemma EntrySampled(o: WalkOptions, p: Path, index: nat, e: Entry)
    ensures EntryStats(o, p, index, e).Sampled()
  {
    if e.Named? {
      MergeKeepsSample(Counted(STAT_OP), ProbeStats(o, p + [index], e.probe));
    }
  }

  lemma {:induction false} EntriesSampled(o: WalkOptions, p: Path, es: seq<Entry>, n: nat)
    requires n <= |es|
    ensures EntriesStats(o, p, es, n).Sampled()
  {
    if n > 0 {
      EntriesSampled(o, p, es, n - 1);
      EntrySampled(o, p, n - 1, es[n - 1]);
      MergeKeepsSample(EntriesStats(o, p, es, n - 1), EntryStats(o, p, n - 1, es[n - 1]));
    }
  }
}
