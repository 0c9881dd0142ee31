/**
 What the reported numbers are: a census of the tree, taken without any counter, and the
 proof that every schedule without a deadline reports exactly that census.
 */
module WalkCensus {
  import opened Wrappers
  import opened WalkAccounting
  import opened WalkTree
  import opened WalkFold
  import opened WalkPool
  import opened WalkTheorems

  /** A counted file and where it lies. */
  datatype Located = Located(path: Path, meta: FileMeta)

  /**
   Files counted and directories entered, by name rather than by number; entries left out by
   name, those of them that are credential boundaries, events skipped, and calls made.
   */
  datatype Census = Census(
    files: seq<Located>, dirs: seq<Located>, excluded: nat, credentials: nat, skips: nat, stats: nat, listings: nat)
  {
    function Plus(c: Census): Census {
      Census(files + c.files, dirs + c.dirs, excluded + c.excluded, credentials + c.credentials,
             skips + c.skips, stats + c.stats, listings + c.listings)
    }
  }

  const NOBODY := Census([], [], 0, 0, 0, 0, 0)

  // ----- taking the census -------------------------------------------------------------------------

  predicate NamedIn(o: WalkOptions, e: Entry) {
    e.Named? && e.name !in o.excludedNames
  }

  /** A named, not excluded leaf that belongs to the required user. */
  predicate CountedLeaf(o: WalkOptions, e: Entry) {
    NamedIn(o, e) && e.probe.Leaf? && (o.requiredUid.Some? ==> e.probe.meta.uid == o.requiredUid.value)
  }

  /** A named, not excluded directory of the required user on the root's file system. */
  predicate WalkedInto(o: WalkOptions, e: Entry) {
    && NamedIn(o, e) && e.probe.Subdirectory?
    && (o.requiredUid.Some? ==> e.probe.dir.meta.uid == o.requiredUid.value)
    && (o.rootDevice.Some? ==> e.probe.dir.meta.dev == o.rootDevice.value)
  }

  /** Read but neither counted nor walked into: an error, a foreign owner or another file system. */
  predicate SkippedEntry(o: WalkOptions, e: Entry) {
    e.Failed? || (NamedIn(o, e) && !e.probe.Gone? && !CountedLeaf(o, e) && !WalkedInto(o, e))
  }

  function One(condition: bool): nat {
    if condition then 1 else 0
  }

  /** One entry by itself. */
  function EntryCensus(o: WalkOptions, path: Path, e: Entry): Census {
    Census(if CountedLeaf(o, e) then [Located(path, e.probe.meta)] else [], [],
           One(e.Named? && e.name in o.excludedNames),
           One(e.Named? && e.name in o.excludedNames && e.name in o.credentialNames),
           One(SkippedEntry(o, e)), One(NamedIn(o, e)), 0)
  }

  /** The root is entered before the walk; a child when its verified open succeeds. */
  function Opening(p: Path, dir: Dir): Census {
    NOBODY.(dirs := if p != [] && dir.opening.Opens? then [Located(p, dir.meta)] else [],
            skips := One(p != [] && dir.opening.Refused?))
  }

  function Listing(dir: Dir): Census {
    NOBODY.(listings := 1, skips := One(dir.listing.Unlistable?))
  }

  function DirCensus(p: Path, dir: Dir): Census {
    if p == [] || dir.opening.Opens? then Opening(p, dir).Plus(Listing(dir)) else Opening(p, dir)
  }

  /** A subtree: its directory and, where it opens and lists, its entries with all below them. */
  function TreeCensus(o: WalkOptions, p: Path, dir: Dir): Census
    decreases dir
  {
    if (p == [] || dir.opening.Opens?) && dir.listing.Entries?
    then DirCensus(p, dir).Plus(EntriesCensus(o, p, dir.listing.entries, |dir.listing.entries|))
    else DirCensus(p, dir)
  }

  function EntriesCensus(o: WalkOptions, p: Path, es: seq<Entry>, n: nat): Census
    requires n <= |es|
    decreases es, n
  {
    if n == 0 then NOBODY else EntriesCensus(o, p, es, n - 1).Plus(BelowCensus(o, p + [n - 1], es[n - 1]))
  }

  function BelowCensus(o: WalkOptions, path: Path, e: Entry): Census
    decreases e
  {
    if WalkedInto(o, e) then EntryCensus(o, path, e).Plus(TreeCensus(o, path, e.probe.dir)) else EntryCensus(o, path, e)
  }

  // ----- reporting it --------------------------------------------------------------------------------

  function Apparent(files: seq<Located>): nat {
    if files == [] then 0 else Apparent(files[..|files| - 1]) + files[|files| - 1].meta.len
  }

  function Allocated(files: seq<Located>): nat {
    if files == [] then 0 else Allocated(files[..|files| - 1]) + files[|files| - 1].meta.blocks
  }

  function Hardlinked(files: seq<Located>): nat {
    if files == [] then 0
    else
      Hardlinked(files[..|files| - 1])
      + if files[|files| - 1].meta.nlink > 1 then files[|files| - 1].meta.blocks else 0
  }

  function Shared(dirs: seq<Located>): nat {
    if dirs == [] then 0 else Shared(dirs[..|dirs| - 1]) + One(dirs[|dirs| - 1].meta.mode & 0x12 != 0)
  }

  function Latest(files: seq<Located>): Option<int> {
    if files == [] then None else Newest(Latest(files[..|files| - 1]), files[|files| - 1].meta.mtime)
  }

  /** What each counter stands for, without any limit. */
  function Exact(c: Census, counter: nat): nat {
    if counter == DIRS then |c.dirs|
    else if counter == FILES then |c.files|
    else if counter == BYTES_APPARENT then Apparent(c.files)
    else if counter == BYTES_ALLOCATED then Allocated(c.files)
    else if counter == BYTES_HARDLINKED then Hardlinked(c.files)
    else if counter == INODES then |c.files| + |c.dirs|
    else if counter == STAT_OPS then c.stats
    else if counter == READDIR_OPS then c.listings
    else if counter == SKIPPED_TOTAL then c.skips
    else if counter == SHARED_WRITABLE_DIRS then Shared(c.dirs)
    else if counter == EXCLUDED_ENTRIES then c.excluded
    else c.credentials
  }

  /** The counters of a census, each capped at the largest 64-bit number. */
  function Report(c: Census): Tally {
    Tally(seq(COUNTERS, i requires 0 <= i < COUNTERS => Clamp(Exact(c, i))), Latest(c.files))
  }

  lemma {:induction false} SumsAppend(a: seq<Located>, b: seq<Located>)
    ensures Apparent(a + b) == Apparent(a) + Apparent(b) && Allocated(a + b) == Allocated(a) + Allocated(b)
    ensures Hardlinked(a + b) == Hardlinked(a) + Hardlinked(b) && Shared(a + b) == Shared(a) + Shared(b)
    ensures Latest(a + b) == Newest(Latest(a), Latest(b))
    decreases |b|
  {
    if b == [] {
      assert a + b == a;
    } else {
      assert (a + b)[..|a + b| - 1] == a + b[..|b| - 1];
      SumsAppend(a, b[..|b| - 1]);
    }
  }

  lemma ClampAdds(a: nat, b: nat)
    ensures Clamp(a + b) == SaturatingAdd(Clamp(a), Clamp(b))
  {
  }

  /** The figures that are sums over files or directories. */
  predicate IsSum(counter: nat) {
    counter == BYTES_APPARENT || counter == BYTES_ALLOCATED || counter == BYTES_HARDLINKED
    || counter == SHARED_WRITABLE_DIRS
  }

  lemma SumAdds(a: Census, b: Census, counter: nat)
    requires IsSum(counter)
    ensures Exact(a.Plus(b), counter) == Exact(a, counter) + Exact(b, counter)
  {
    if counter == SHARED_WRITABLE_DIRS {
      SumsAppend(a.dirs, b.dirs);
    } else {
      SumsAppend(a.files, b.files);
    }
  }

  lemma ExactAdds(a: Census, b: Census, counter: nat)
    ensures Exact(a.Plus(b), counter) == Exact(a, counter) + Exact(b, counter)
  {
    if IsSum(counter) {
      SumAdds(a, b, counter);
    }
  }

  /** Reporting two censuses together is adding up their reports. */
  lemma ReportAdds(a: Census, b: Census)
    ensures Report(a.Plus(b)) == Report(a).Plus(Report(b))
  {
    SumsAppend(a.files, b.files);
    var x, y, z := Report(a).counts, Report(b).counts, Report(a.Plus(b)).counts;
    forall i | 0 <= i < COUNTERS
      ensures z[i] == Sum(x, y)[i]
    {
      ExactAdds(a, b, i);
      ClampAdds(Exact(a, i), Exact(b, i));
    }
    assert z == Sum(x, y);
  }

  // ----- the fold is the census ----------------------------------------------------------------------

  lemma NoFiles()
    ensures Apparent([]) == Allocated([]) == Hardlinked([]) == Shared([]) == 0 && Latest([]) == None
  {
  }

  lemma OneFile(f: Located)
    ensures Apparent([f]) == f.meta.len && Allocated([f]) == f.meta.blocks
    ensures Hardlinked([f]) == if f.meta.nlink > 1 then f.meta.blocks else 0
    ensures Shared([f]) == One(f.meta.mode & 0x12 != 0) && Latest([f]) == f.meta.mtime
  {
    assert [f][..0] == [];
  }

  lemma ReportNobody()
    ensures Report(NOBODY) == ZERO
  {
    NoFiles();
  }

  lemma ReportFile(f: Located)
    ensures Report(NOBODY.(files := [f])) == FileTally(f.meta)
  {
    NoFiles();
    OneFile(f);
  }

  lemma ReportDir(f: Located)
    ensures Report(NOBODY.(dirs := [f])) == DirectoryTally(f.meta)
  {
    NoFiles();
    OneFile(f);
  }

  lemma ReportSkip()
    ensures Report(NOBODY.(skips := 1)) == Once(SKIPPED_TOTAL)
  {
    NoFiles();
  }

  lemma ReportStat()
    ensures Report(NOBODY.(stats := 1)) == STAT_OP
  {
    NoFiles();
  }

  lemma ReportListing()
    ensures Report(NOBODY.(listings := 1)) == READDIR_OP
  {
    NoFiles();
  }

  lemma ReportExclusion(credential: bool)
    ensures Report(NOBODY.(excluded := 1, credentials := One(credential))) == ExclusionTally(credential)
  {
    NoFiles();
  }

  lemma ProbeReported(o: WalkOptions, path: Path, e: Entry)
    requires NamedIn(o, e)
    ensures Report(EntryCensus(o, path, e).(stats := 0)) == ProbeStats(o, path, e.probe).tally
  {
    var c := EntryCensus(o, path, e).(stats := 0);
    ReportNobody();
    ReportSkip();
    if CountedLeaf(o, e) {
      ReportFile(Located(path, e.probe.meta));
      assert c == NOBODY.(files := [Located(path, e.probe.meta)]);
    } else if SkippedEntry(o, e) {
      assert c == NOBODY.(skips := 1);
    } else {
      assert c == NOBODY;
    }
  }

  lemma EntryReported(o: WalkOptions, p: Path, index: nat, e: Entry)
    ensures Report(EntryCensus(o, p + [index], e)) == EntryStats(o, p, index, e).tally
  {
    var c := EntryCensus(o, p + [index], e);
    if NamedIn(o, e) {
      var stat, probe := NOBODY.(stats := 1), c.(stats := 0);
      ProbeReported(o, p + [index], e);
      ReportStat();
      ReportAdds(stat, probe);
      assert [] + c.files == c.files && [] + c.dirs == c.dirs;
      assert c == stat.Plus(probe);
    } else if e.Failed? {
      ReportSkip();
      assert c == NOBODY.(skips := 1);
    } else {
      ReportExclusion(e.name in o.credentialNames);
      assert c == NOBODY.(excluded := 1, credentials := One(e.name in o.credentialNames));
    }
  }

  lemma WalkedIntoIsChild(o: WalkOptions, e: Entry)
    ensures EntryChild(o, e) == if WalkedInto(o, e) then Some(e.probe.dir) else None
  {
  }

  /** The opening of a directory, before it is listed. */
  lemma OpeningReported(p: Path, dir: Dir)
    ensures Report(Opening(p, dir)) == OpenStats(Pending(p, dir)).tally
  {
    ReportNobody();
    ReportSkip();
    ReportDir(Located(p, dir.meta));
  }

  lemma ListingReported(dir: Dir)
    ensures Report(Listing(dir)) ==
              if dir.listing.Entries? then READDIR_OP else READDIR_OP.Plus(Once(SKIPPED_TOTAL))
  {
    ReportListing();
    ReportSkip();
    ReportAdds(NOBODY.(listings := 1), NOBODY.(skips := 1));
    assert NOBODY.(listings := 1).Plus(NOBODY.(skips := 1)) == NOBODY.(listings := 1, skips := 1);
  }

  /** A directory without its entries. */
  lemma DirReported(p: Path, dir: Dir)
    ensures var stats := OpenStats(Pending(p, dir)).tally;
            Report(DirCensus(p, dir)) ==
              if !Scans(Pending(p, dir)) then stats
              else if dir.listing.Entries? then stats.Plus(READDIR_OP)
              else stats.Plus(READDIR_OP.Plus(Once(SKIPPED_TOTAL)))
  {
    OpeningReported(p, dir);
    ListingReported(dir);
    ReportAdds(Opening(p, dir), Listing(dir));
  }

  /** The counters of a subtree are the report of its census. */
  lemma {:induction false} TreeReported(o: WalkOptions, p: Path, dir: Dir)
    ensures FullTally(o, p, dir) == Report(TreeCensus(o, p, dir))
    decreases dir
  {
    DirReported(p, dir);
    if Scans(Pending(p, dir)) && dir.listing.Entries? {
      var es := dir.listing.entries;
      EntriesReported(o, p, es, |es|);
      ReportAdds(DirCensus(p, dir), EntriesCensus(o, p, es, |es|));
      PlusAssociates(OpenStats(Pending(p, dir)).tally, READDIR_OP, Report(EntriesCensus(o, p, es, |es|)));
    }
  }

  predicate EntriesAgree(o: WalkOptions, p: Path, es: seq<Entry>, n: nat)
    requires n <= |es|
  {
    TallyEntries(o, p, es, n) == READDIR_OP.Plus(Report(EntriesCensus(o, p, es, n)))
  }

  lemma {:induction false} EntriesReported(o: WalkOptions, p: Path, es: seq<Entry>, n: nat)
    requires n <= |es|
    ensures EntriesAgree(o, p, es, n)
    decreases es, 1
  {
    EntriesAgreeStart(o, p, es);
    for i := 0 to n
      invariant EntriesAgree(o, p, es, i)
    {
      BelowReported(o, p, i, es[i]);
      EntriesAgreeNext(o, p, es, i);
    }
  }

  lemma EntriesAgreeStart(o: WalkOptions, p: Path, es: seq<Entry>)
    ensures EntriesAgree(o, p, es, 0)
  {
    ReportNobody();
    PlusZero(READDIR_OP);
  }

  lemma EntriesAgreeNext(o: WalkOptions, p: Path, es: seq<Entry>, n: nat)
    requires n < |es| && EntriesAgree(o, p, es, n)
    requires TallyEntry(o, p, n, es[n]) == Report(BelowCensus(o, p + [n], es[n]))
    ensures EntriesAgree(o, p, es, n + 1)
  {
    var before, last := EntriesCensus(o, p, es, n), BelowCensus(o, p + [n], es[n]);
    ReportAdds(before, last);
    PlusAssociates(READDIR_OP, Report(before), Report(last));
  }

  lemma {:induction false} BelowReported(o: WalkOptions, p: Path, index: nat, e: Entry)
    ensures TallyEntry(o, p, index, e) == Report(BelowCensus(o, p + [index], e))
    decreases e
  {
    EntryReported(o, p, index, e);
    WalkedIntoIsChild(o, e);
    if WalkedInto(o, e) {
      TreeReported(o, p + [index], e.probe.dir);
      ReportAdds(EntryCensus(o, p + [index], e), TreeCensus(o, p + [index], e.probe.dir));
    }
  }

  // ----- what every complete walk reports -------------------------------------------------------------

  /** The whole tree: the root, inspected and entered, and everything below it. */
  function WholeCensus(o: WalkOptions, root: Dir): Census {
    RootCensus(root).Plus(TreeCensus(o, [], root))
  }

  function RootCensus(root: Dir): Census {
    NOBODY.(stats := 1, dirs := [Located([], root.meta)])
  }

  lemma WholeReported(o: WalkOptions, root: Dir)
    ensures WholeWalk(o, root).tally == Report(WholeCensus(o, root))
  {
    var stat, dir := NOBODY.(stats := 1), NOBODY.(dirs := [Located([], root.meta)]);
    ReportStat();
    ReportDir(Located([], root.meta));
    ReportAdds(stat, dir);
    assert stat.Plus(dir) == RootCensus(root);
    TreeReported(o, [], root);
    ReportAdds(RootCensus(root), TreeCensus(o, [], root));
  }

  /** Each number is the census figure it stands for, capped at the largest 64-bit number. */
  predicate Numbers(c: Census, t: Tally) {
    && t.counts[FILES] == Clamp(|c.files|)
    && t.counts[DIRS] == Clamp(|c.dirs|)
    && t.counts[INODES] == Clamp(|c.files| + |c.dirs|)
    && t.counts[BYTES_APPARENT] == Clamp(Apparent(c.files))
    && t.counts[BYTES_ALLOCATED] == Clamp(Allocated(c.files))
    && t.counts[BYTES_HARDLINKED] == Clamp(Hardlinked(c.files))
    && t.counts[SHARED_WRITABLE_DIRS] == Clamp(Shared(c.dirs))
    && t.counts[SKIPPED_TOTAL] == Clamp(c.skips)
    && t.counts[EXCLUDED_ENTRIES] == Clamp(c.excluded)
    && t.counts[EXCLUDED_CREDENTIALS] == Clamp(c.credentials)
    && t.counts[STAT_OPS] == Clamp(c.stats)
    && t.counts[READDIR_OPS] == Clamp(c.listings)
    && t.newest == Latest(c.files)
  }

  lemma ReportNumbers(c: Census)
    ensures Numbers(c, Report(c))
  {
  }

  /** For every tree, worker count and schedule without a deadline, the reported numbers are the census. */
  lemma ReportedNumbers(o: WalkOptions, root: Dir, n: nat, moves: seq<Move>, t: Pool)
    requires n > 0 && Run(o, Start(root, n), moves) == Some(t) && AllReturned(t) && WithoutDeadline(moves)
    ensures Numbers(WholeCensus(o, root), t.stats.tally)
  {
    ScheduleIndependence(o, root, n, moves, t);
    WholeReported(o, root);
    ReportNumbers(WholeCensus(o, root));
  }

  /** The newest time is that of some file, and no file is newer. */
  lemma {:induction false} LatestMeaning(files: seq<Located>)
    ensures Latest(files) == None <==> forall f :: f in files ==> f.meta.mtime == None
    ensures Latest(files).Some? ==>
              && (exists f :: f in files && f.meta.mtime == Latest(files))
              && (forall f :: f in files && f.meta.mtime.Some? ==> f.meta.mtime.value <= Latest(files).value)
    decreases |files|
  {
    if files != [] {
      LatestMeaning(files[..|files| - 1]);
      SplitLast(files);
    }
  }

  // ----- which files are counted -----------------------------------------------------------------------

  /** The file a path of entry indices leads to, if the walk counts it. */
  function FileAt(o: WalkOptions, p: Path, dir: Dir, q: Path): Option<FileMeta>
    decreases dir
  {
    if q == [] || !(p == [] || dir.opening.Opens?) || !dir.listing.Entries? then None
    else FileIn(o, p, dir.listing.entries, q)
  }

  function FileIn(o: WalkOptions, p: Path, es: seq<Entry>, q: Path): Option<FileMeta>
    requires q != []
    decreases es
  {
    if q[0] >= |es| then None
    else if |q| == 1 then if CountedLeaf(o, es[q[0]]) then Some(es[q[0]].probe.meta) else None
    else FileBelow(o, p + [q[0]], es[q[0]], q[1..])
  }

  function FileBelow(o: WalkOptions, path: Path, e: Entry, q: Path): Option<FileMeta>
    decreases e
  {
    if WalkedInto(o, e) then FileAt(o, path, e.probe.dir, q) else None
  }

  /** The counted files of a subtree, wherever they are met. */
  function FilesOf(o: WalkOptions, p: Path, dir: Dir): multiset<Located>
    decreases dir
  {
    if (p == [] || dir.opening.Opens?) && dir.listing.Entries?
    then FilesOfEntries(o, p, dir.listing.entries, |dir.listing.entries|)
    else multiset{}
  }

  function FilesOfEntries(o: WalkOptions, p: Path, es: seq<Entry>, n: nat): multiset<Located>
    requires n <= |es|
    decreases es, n
  {
    if n == 0 then multiset{} else FilesOfEntries(o, p, es, n - 1) + FilesOfBelow(o, p + [n - 1], es[n - 1])
  }

  function FilesOfBelow(o: WalkOptions, path: Path, e: Entry): multiset<Located>
    decreases e
  {
    if CountedLeaf(o, e) then multiset{Located(path, e.probe.meta)}
    else if WalkedInto(o, e) then FilesOf(o, path, e.probe.dir)
    else multiset{}
  }

  /** Each file the walk should count is met exactly once, and nothing else is. */
  lemma {:induction false} FilesOnce(o: WalkOptions, p: Path, dir: Dir, f: Located)
    ensures FilesOf(o, p, dir)[f] == One(p <= f.path && FileAt(o, p, dir, f.path[|p|..]) == Some(f.meta))
    decreases dir
  {
    assert p <= f.path ==> (f.path[|p|..] == [] <==> p == f.path);
    if (p == [] || dir.opening.Opens?) && dir.listing.Entries? {
      var es := dir.listing.entries;
      EntriesFilesOnce(o, p, es, |es|, f);
      if p <= f.path && p != f.path {
        assert f.path[|p|..][0] == f.path[|p|];
      }
    }
  }

  lemma {:induction false} EntriesFilesOnce(o: WalkOptions, p: Path, es: seq<Entry>, n: nat, f: Located)
    requires n <= |es|
    ensures FilesOfEntries(o, p, es, n)[f]
         == One(p <= f.path && p != f.path && f.path[|p|] < n && FileIn(o, p, es, f.path[|p|..]) == Some(f.meta))
    decreases es, n
  {
    if n > 0 {
      EntriesFilesOnce(o, p, es, n - 1, f);
      BelowFilesOnce(o, p, es, n - 1, f);
    }
  }

  lemma {:induction false} BelowFilesOnce(o: WalkOptions, p: Path, es: seq<Entry>, i: nat, f: Located)
    requires i < |es|
    ensures FilesOfBelow(o, p + [i], es[i])[f]
         == One(p <= f.path && p != f.path && f.path[|p|] == i && FileIn(o, p, es, f.path[|p|..]) == Some(f.meta))
    decreases es, 0
  {
    if p <= f.path && p != f.path {
      var q := f.path[|p|..];
      assert q[0] == f.path[|p|] && q[1..] == f.path[|p| + 1..];
      assert (p + [i] <= f.path) == (f.path[|p|] == i);
    }
    assert f.path == p + [i] <==> p <= f.path && |f.path| == |p| + 1 && f.path[|p|] == i;
    if WalkedInto(o, es[i]) {
      FilesOnce(o, p + [i], es[i].probe.dir, f);
    }
  }

  // ----- which directories are entered ----------------------------------------------------------------

  /** The directory a path leads to, if the walk enters it. */
  function EnteredAt(o: WalkOptions, p: Path, dir: Dir, q: Path): Option<FileMeta>
    decreases dir
  {
    if q == [] then if p != [] && dir.opening.Opens? then Some(dir.meta) else None
    else if !(p == [] || dir.opening.Opens?) || !dir.listing.Entries? then None
    else EnteredIn(o, p, dir.listing.entries, q)
  }

  function EnteredIn(o: WalkOptions, p: Path, es: seq<Entry>, q: Path): Option<FileMeta>
    requires q != []
    decreases es
  {
    if q[0] >= |es| then None else EnteredBelow(o, p + [q[0]], es[q[0]], q[1..])
  }

  function EnteredBelow(o: WalkOptions, path: Path, e: Entry, q: Path): Option<FileMeta>
    decreases e
  {
    if WalkedInto(o, e) then EnteredAt(o, path, e.probe.dir, q) else None
  }

  /** The directories of a subtree that are entered, itself included unless it is the root. */
  function DirsOf(o: WalkOptions, p: Path, dir: Dir): multiset<Located>
    decreases dir
  {
    (if p != [] && dir.opening.Opens? then multiset{Located(p, dir.meta)} else multiset{})
    + if (p == [] || dir.opening.Opens?) && dir.listing.Entries?
      then DirsOfEntries(o, p, dir.listing.entries, |dir.listing.entries|) else multiset{}
  }

  function DirsOfEntries(o: WalkOptions, p: Path, es: seq<Entry>, n: nat): multiset<Located>
    requires n <= |es|
    decreases es, n
  {
    if n == 0 then multiset{} else DirsOfEntries(o, p, es, n - 1) + DirsOfBelow(o, p + [n - 1], es[n - 1])
  }

  function DirsOfBelow(o: WalkOptions, path: Path, e: Entry): multiset<Located>
    decreases e
  {
    if WalkedInto(o, e) then DirsOf(o, path, e.probe.dir) else multiset{}
  }

  /** Each directory the walk should enter is met exactly once, and nothing else is. */
  lemma {:induction false} DirsOnce(o: WalkOptions, p: Path, dir: Dir, f: Located)
    ensures DirsOf(o, p, dir)[f] == One(p <= f.path && EnteredAt(o, p, dir, f.path[|p|..]) == Some(f.meta))
    decreases dir
  {
    assert p <= f.path ==> (f.path[|p|..] == [] <==> p == f.path);
    if (p == [] || dir.opening.Opens?) && dir.listing.Entries? {
      var es := dir.listing.entries;
      EntriesDirsOnce(o, p, es, |es|, f);
      if p <= f.path && p != f.path {
        assert f.path[|p|..][0] == f.path[|p|];
      }
    }
  }

  lemma {:induction false} EntriesDirsOnce(o: WalkOptions, p: Path, es: seq<Entry>, n: nat, f: Located)
    requires n <= |es|
    ensures DirsOfEntries(o, p, es, n)[f]
         == One(p <= f.path && p != f.path && f.path[|p|] < n && EnteredIn(o, p, es, f.path[|p|..]) == Some(f.meta))
    decreases es, n
  {
    if n > 0 {
      EntriesDirsOnce(o, p, es, n - 1, f);
      BelowDirsOnce(o, p, es, n - 1, f);
    }
  }

  lemma {:induction false} BelowDirsOnce(o: WalkOptions, p: Path, es: seq<Entry>, i: nat, f: Located)
    requires i < |es|
    ensures DirsOfBelow(o, p + [i], es[i])[f]
         == One(p <= f.path && p != f.path && f.path[|p|] == i && EnteredIn(o, p, es, f.path[|p|..]) == Some(f.meta))
    decreases es, 0
  {
    if p <= f.path && p != f.path {
      var q := f.path[|p|..];
      assert q[0] == f.path[|p|] && q[1..] == f.path[|p| + 1..];
      assert (p + [i] <= f.path) == (f.path[|p|] == i);
    }
    if WalkedInto(o, es[i]) {
      DirsOnce(o, p + [i], es[i].probe.dir, f);
    }
  }

  // ----- the census lists just those --------------------------------------------------------------------

  lemma PlusLists(a: Census, b: Census)
    ensures multiset(a.Plus(b).files) == multiset(a.files) + multiset(b.files)
    ensures multiset(a.Plus(b).dirs) == multiset(a.dirs) + multiset(b.dirs)
  {
  }

  lemma DirLists(p: Path, dir: Dir)
    ensures multiset(DirCensus(p, dir).files) == multiset{}
    ensures multiset(DirCensus(p, dir).dirs)
         == if p != [] && dir.opening.Opens? then multiset{Located(p, dir.meta)} else multiset{}
  {
    PlusLists(Opening(p, dir), Listing(dir));
  }

  predicate ListsRight(o: WalkOptions, p: Path, dir: Dir) {
    && multiset(TreeCensus(o, p, dir).files) == FilesOf(o, p, dir)
    && multiset(TreeCensus(o, p, dir).dirs) == DirsOf(o, p, dir)
  }

  predicate EntriesListRight(o: WalkOptions, p: Path, es: seq<Entry>, n: nat)
    requires n <= |es|
  {
    && multiset(EntriesCensus(o, p, es, n).files) == FilesOfEntries(o, p, es, n)
    && multiset(EntriesCensus(o, p, es, n).dirs) == DirsOfEntries(o, p, es, n)
  }

  lemma {:induction false} TreeLists(o: WalkOptions, p: Path, dir: Dir)
    ensures ListsRight(o, p, dir)
    decreases dir
  {
    if (p == [] || dir.opening.Opens?) && dir.listing.Entries? {
      EntriesLists(o, p, dir.listing.entries, |dir.listing.entries|);
      ListedTree(o, p, dir);
    } else {
      UnlistedTree(o, p, dir);
    }
  }

  lemma ListedTree(o: WalkOptions, p: Path, dir: Dir)
    requires (p == [] || dir.opening.Opens?) && dir.listing.Entries?
    requires EntriesListRight(o, p, dir.listing.entries, |dir.listing.entries|)
    ensures ListsRight(o, p, dir)
  {
    TreeListsBelow(o, p, dir);
    TreeListsJoin(o, p, dir);
  }

  lemma UnlistedTree(o: WalkOptions, p: Path, dir: Dir)
    requires !((p == [] || dir.opening.Opens?) && dir.listing.Entries?)
    ensures ListsRight(o, p, dir)
  {
    DirLists(p, dir);
  }

  lemma TreeListsJoin(o: WalkOptions, p: Path, dir: Dir)
    requires (p == [] || dir.opening.Opens?) && dir.listing.Entries?
    ensures FilesOf(o, p, dir) == FilesOfEntries(o, p, dir.listing.entries, |dir.listing.entries|)
    ensures DirsOf(o, p, dir)
         == multiset(DirCensus(p, dir).dirs) + DirsOfEntries(o, p, dir.listing.entries, |dir.listing.entries|)
  {
    DirLists(p, dir);
  }

  lemma TreeListsBelow(o: WalkOptions, p: Path, dir: Dir)
    requires (p == [] || dir.opening.Opens?) && dir.listing.Entries?
    ensures var c, below := TreeCensus(o, p, dir), EntriesCensus(o, p, dir.listing.entries, |dir.listing.entries|);
            && multiset(c.files) == multiset(below.files)
            && multiset(c.dirs) == multiset(DirCensus(p, dir).dirs) + multiset(below.dirs)
  {
    DirLists(p, dir);
    PlusLists(DirCensus(p, dir), EntriesCensus(o, p, dir.listing.entries, |dir.listing.entries|));
  }

  lemma {:induction false} EntriesLists(o: WalkOptions, p: Path, es: seq<Entry>, n: nat)
    requires n <= |es|
    ensures EntriesListRight(o, p, es, n)
    decreases es, n
  {
    if n > 0 {
      EntriesLists(o, p, es, n - 1);
      BelowLists(o, p + [n - 1], es[n - 1]);
      PlusLists(EntriesCensus(o, p, es, n - 1), BelowCensus(o, p + [n - 1], es[n - 1]));
    }
  }

  lemma {:induction false} BelowLists(o: WalkOptions, path: Path, e: Entry)
    ensures multiset(BelowCensus(o, path, e).files) == FilesOfBelow(o, path, e)
    ensures multiset(BelowCensus(o, path, e).dirs) == DirsOfBelow(o, path, e)
    decreases e
  {
    if WalkedInto(o, e) {
      TreeLists(o, path, e.probe.dir);
      PlusLists(EntryCensus(o, path, e), TreeCensus(o, path, e.probe.dir));
    }
  }

  /**
   The files of the census are exactly those a path of entries leads to through directories that
   are entered, each once, and so are its directories besides the root.
   */
  lemma CensusIsTheTree(o: WalkOptions, root: Dir, f: Located)
    ensures multiset(WholeCensus(o, root).files)[f] == One(FileAt(o, [], root, f.path) == Some(f.meta))
    ensures multiset(WholeCensus(o, root).dirs)[f]
         == One(f == Located([], root.meta)) + One(EnteredAt(o, [], root, f.path) == Some(f.meta))
  {
    WholeLists(o, root);
    FilesOnce(o, [], root, f);
    DirsOnce(o, [], root, f);
    assert f.path[0..] == f.path;
  }

  lemma WholeLists(o: WalkOptions, root: Dir)
    ensures multiset(WholeCensus(o, root).files) == FilesOf(o, [], root)
    ensures multiset(WholeCensus(o, root).dirs) == multiset{Located([], root.meta)} + DirsOf(o, [], root)
  {
    PlusLists(RootCensus(root), TreeCensus(o, [], root));
    RootLists(root);
    TreeLists(o, [], root);
  }

  lemma RootLists(root: Dir)
    ensures multiset(RootCensus(root).files) == multiset{}
    ensures multiset(RootCensus(root).dirs) == multiset{Located([], root.meta)}
  {
  }
}
