/** What every interleaving of the worker pool guarantees. */
module WalkTheorems {
  import opened Wrappers
  import opened WalkAccounting
  import opened WalkTree
  import opened WalkFold
  import opened WalkPool

  // ----- the pool invariant ----------------------------------------------------------------

  function BusyCount(ws: seq<Worker>): nat {
    if ws == [] then 0 else BusyCount(ws[..|ws| - 1]) + if ws[|ws| - 1].Busy() then 1 else 0
  }

  function ReadyCount(ws: seq<Worker>): nat {
    if ws == [] then 0 else ReadyCount(ws[..|ws| - 1]) + if ws[|ws| - 1].Ready? then 1 else 0
  }

  function RunningCount(ws: seq<Worker>): nat {
    if ws == [] then 0 else RunningCount(ws[..|ws| - 1]) + if ws[|ws| - 1].Returned? then 0 else 1
  }

  lemma {:induction false} CountsUpdate(ws: seq<Worker>, w: nat, x: Worker)
    requires w < |ws|
    ensures BusyCount(ws[w := x]) + (if ws[w].Busy() then 1 else 0) == BusyCount(ws) + if x.Busy() then 1 else 0
    ensures ReadyCount(ws[w := x]) + (if ws[w].Ready? then 1 else 0) == ReadyCount(ws) + if x.Ready? then 1 else 0
    ensures RunningCount(ws[w := x]) + (if ws[w].Returned? then 0 else 1)
         == RunningCount(ws) + if x.Returned? then 0 else 1
    decreases |ws|
  {
    if w == |ws| - 1 {
      assert ws[w := x][..|ws| - 1] == ws[..|ws| - 1];
    } else {
      assert ws[w := x][..|ws| - 1] == ws[..|ws| - 1][w := x];
      CountsUpdate(ws[..|ws| - 1], w, x);
    }
  }

  lemma {:induction false} CountsAwake(ws: seq<Worker>)
    ensures BusyCount(Awake(ws)) == BusyCount(ws) && RunningCount(Awake(ws)) == RunningCount(ws)
    ensures ReadyCount(Awake(ws)) <= |ws| && ReadyCount(ws) <= |ws|
    decreases |ws|
  {
    if ws != [] {
      assert Awake(ws)[..|ws| - 1] == Awake(ws[..|ws| - 1]);
      CountsAwake(ws[..|ws| - 1]);
    }
  }

  lemma {:induction false} SomeBusy(ws: seq<Worker>)
    ensures BusyCount(ws) > 0 <==> exists w :: 0 <= w < |ws| && ws[w].Busy()
    decreases |ws|
  {
    if ws != [] {
      SomeBusy(ws[..|ws| - 1]);
      assert forall w :: 0 <= w < |ws| - 1 ==> ws[..|ws| - 1][w] == ws[w];
    }
  }

  /** Who may wait and who may have returned. */
  predicate Coordinated(s: Pool) {
    && s.active == BusyCount(s.workers)
    && (forall w :: 0 <= w < |s.workers| && s.workers[w].Waiting? ==> s.active > 0)
    && (forall w :: 0 <= w < |s.workers| && s.workers[w].Returned? ==>
          s.queue == [] && (s.stats.truncated || s.active == 0))
  }

  /** The truncation report adds up. */
  predicate Accounted(s: Pool) {
    && s.stats.Sampled()
    && (!s.stats.truncated ==> s.log.lost == EMPTY && s.log.unvisited == 0)
    && s.stats.unvisited == Clamp(s.log.unvisited)
    && 1 + s.log.discovered == |s.log.consumed| + s.log.unvisited + |s.queue| + s.active
  }

  lemma StartOk(o: WalkOptions, root: Dir, n: nat)
    ensures var s := Start(root, n); Coordinated(s) && Accounted(s) && Conserved(o, root, s)
  {
    var s := Start(root, n);
    AllIdle(s.workers);
    Single(o, Pending([], root));
    HeldIdle(o, s.workers);
    Neutral(Full(o, [], root));
    Neutral(Note(RootStats(root)));
  }

  lemma {:induction false} AllIdle(ws: seq<Worker>)
    requires forall w :: 0 <= w < |ws| ==> !ws[w].Busy()
    ensures BusyCount(ws) == 0
    decreases |ws|
  {
    if ws != [] {
      AllIdle(ws[..|ws| - 1]);
    }
  }

  lemma {:induction false} HeldIdle(o: WalkOptions, ws: seq<Worker>)
    requires forall w :: 0 <= w < |ws| ==> !ws[w].Busy()
    ensures Held(o, ws) == EMPTY
    decreases |ws|
  {
    if ws != [] {
      HeldIdle(o, ws[..|ws| - 1]);
      Neutral(EMPTY);
    }
  }

  lemma NextCoordinated(o: WalkOptions, s: Pool, w: nat, expired: bool)
    requires Coordinated(s) && w < |s.workers| && s.workers[w].Ready?
    ensures Coordinated(NextDir(o, s, w, expired))
  {
    var t := NextDir(o, s, w, expired);
    CountsAwake(s.workers);
    CountsUpdate(Awake(s.workers), w, Returned);
    if s.queue != [] {
      CountsUpdate(s.workers, w, Scanning(s.queue[|s.queue| - 1]));
    }
    CountsUpdate(s.workers, w, Waiting);
  }

  /** A busy worker lets go and wakes everybody. */
  lemma ReleaseCoordinated(s: Pool, t: Pool, w: nat)
    requires Coordinated(s) && w < |s.workers| && s.workers[w].Busy()
    requires t.workers == Awake(s.workers)[w := Ready] && t.active == s.active - 1
    requires s.stats.truncated ==> t.stats.truncated && t.queue == s.queue
    ensures Coordinated(t)
  {
    CountsAwake(s.workers);
    CountsUpdate(Awake(s.workers), w, Ready);
    SomeBusy(s.workers);
    forall v | 0 <= v < |t.workers| && t.workers[v].Returned?
      ensures t.queue == [] && (t.stats.truncated || t.active == 0)
    {
      assert s.workers[v].Returned?;
    }
  }

  lemma CompleteCoordinated(o: WalkOptions, s: Pool, w: nat)
    requires Coordinated(s) && w < |s.workers| && s.workers[w].Scanned?
    ensures Coordinated(CompleteDir(o, s, w))
  {
    ReleaseCoordinated(s, CompleteDir(o, s, w), w);
  }

  lemma MoveCoordinated(o: WalkOptions, s: Pool, move: Move)
    requires Coordinated(s) && Enabled(s, move)
    ensures Coordinated(Apply(o, s, move))
  {
    match move
    case Next(w, expired) => NextCoordinated(o, s, w, expired);
    case Consume(w, expiry) => CountsUpdate(s.workers, w, Scanned(s.workers[w].item, expiry));
    case Complete(w) => CompleteCoordinated(o, s, w);
    case Spurious(w) => CountsUpdate(s.workers, w, Ready);
  }

  lemma NextAccounted(o: WalkOptions, s: Pool, w: nat, expired: bool)
    requires Accounted(s) && w < |s.workers|
    ensures Accounted(NextDir(o, s, w, expired))
  {
  }

  lemma CompleteAccounted(o: WalkOptions, s: Pool, w: nat)
    requires Accounted(s) && w < |s.workers| && s.workers[w].Scanned?
    ensures Accounted(CompleteDir(o, s, w))
  {
    var item, expiry := s.workers[w].item, s.workers[w].expiry;
    var r := Consumed(o, item, expiry);
    CutIsMarked(o, item, expiry);
    ConsumedSampled(o, item, expiry);
    MergeKeepsSample(s.stats, r.stats);
    Neutral(EMPTY);
  }

  lemma MoveAccounted(o: WalkOptions, s: Pool, move: Move)
    requires Accounted(s) && Enabled(s, move)
    ensures Accounted(Apply(o, s, move))
  {
    match move
    case Next(w, expired) => NextAccounted(o, s, w, expired);
    case Complete(w) => CompleteAccounted(o, s, w);
    case _ =>
  }

  predicate PoolOk(o: WalkOptions, root: Dir, s: Pool) {
    Coordinated(s) && Accounted(s) && Conserved(o, root, s)
  }

  lemma MoveOk(o: WalkOptions, root: Dir, s: Pool, move: Move)
    requires PoolOk(o, root, s) && Enabled(s, move)
    ensures PoolOk(o, root, Apply(o, s, move)) && |Apply(o, s, move).workers| == |s.workers|
  {
    var t := Apply(o, s, move);
    MoveKeepsWorkers(o, s, move);
    assert Coordinated(t) by { MoveCoordinated(o, s, move); }
    assert Accounted(t) by { MoveAccounted(o, s, move); }
    assert Conserved(o, root, t) by { MoveConserves(o, s, move); }
  }

  lemma MoveKeepsWorkers(o: WalkOptions, s: Pool, move: Move)
    requires Enabled(s, move)
    ensures |Apply(o, s, move).workers| == |s.workers|
  {
  }

  lemma {:induction false} RunOk(o: WalkOptions, root: Dir, s: Pool, moves: seq<Move>, t: Pool)
    requires PoolOk(o, root, s) && Run(o, s, moves) == Some(t)
    ensures PoolOk(o, root, t) && |t.workers| == |s.workers|
    decreases |moves|
  {
    if moves != [] {
      MoveOk(o, root, s, moves[0]);
      RunOk(o, root, Apply(o, s, moves[0]), moves[1..], t);
    }
  }

  // ----- the theorems --------------------------------------------------------------------------

  function WholeWalk(o: WalkOptions, root: Dir): Ledger {
    Note(RootStats(root)).Plus(Full(o, [], root))
  }

  lemma ReachableOk(o: WalkOptions, root: Dir, n: nat, moves: seq<Move>, t: Pool)
    requires Run(o, Start(root, n), moves) == Some(t)
    ensures Coordinated(t) && Accounted(t) && Conserved(o, root, t) && |t.workers| == n
  {
    StartOk(o, root, n);
    RunOk(o, root, Start(root, n), moves, t);
  }

  lemma PartBelowWhole(part: Ledger, rest: Ledger, whole: Ledger)
    requires part.Plus(rest) == whole
    ensures part.tally.Below(whole.tally) && part.visits <= whole.visits
  {
    PlusIncreases(part.tally, rest.tally);
  }

  /**
   Honest truncation, in every reachable state of every run: the root and every discovered
   directory are fully consumed, unvisited, queued or being scanned; no counter exceeds the
   complete walk's; no directory is consumed twice or without being eligible.
   */
  lemma HonestTruncation(o: WalkOptions, root: Dir, n: nat, moves: seq<Move>, t: Pool)
    requires Run(o, Start(root, n), moves) == Some(t)
    ensures 1 + t.log.discovered == |t.log.consumed| + t.log.unvisited + |t.queue| + t.active
    ensures t.stats.unvisited == Clamp(t.log.unvisited)
    ensures t.stats.tally.Below(WholeWalk(o, root).tally)
    ensures forall q :: t.log.consumed[q] <= if Eligible(o, [], root, q) then 1 else 0
    ensures |t.stats.skipped| == Min(SKIP_SAMPLE_CAP, t.stats.tally.SkippedTotal())
  {
    ReachableOk(o, root, n, moves, t);
    var base := Ledger(t.stats.tally, t.log.consumed);
    Associates(base, t.log.lost, Outstanding(o, t));
    PartBelowWhole(base, t.log.lost.Plus(Outstanding(o, t)), WholeWalk(o, root));
    forall q
      ensures t.log.consumed[q] <= if Eligible(o, [], root, q) then 1 else 0
    {
      WholeVisits(o, root, q);
    }
  }

  lemma WholeVisits(o: WalkOptions, root: Dir, q: Path)
    ensures WholeWalk(o, root).visits[q] == if Eligible(o, [], root, q) then 1 else 0
  {
    VisitsOnce(o, [], root, q);
    assert q[0..] == q;
  }

  /** A result that is not marked truncated is the complete walk. */
  lemma UntruncatedIsComplete(o: WalkOptions, root: Dir, n: nat, moves: seq<Move>, t: Pool)
    requires n > 0 && Run(o, Start(root, n), moves) == Some(t) && AllReturned(t)
    ensures t.queue == [] && t.active == 0
    ensures 1 + t.log.discovered == |t.log.consumed| + t.log.unvisited
    ensures !t.stats.truncated ==>
              && t.stats.unvisited == 0
              && t.stats.tally == WholeWalk(o, root).tally
              && forall q :: t.log.consumed[q] == if Eligible(o, [], root, q) then 1 else 0
  {
    ReachableOk(o, root, n, moves, t);
    AllIdle(t.workers);
    assert t.workers[0].Returned?;
    HeldIdle(o, t.workers);
    Neutral(EMPTY);
    if !t.stats.truncated {
      var base := Ledger(t.stats.tally, t.log.consumed);
      Neutral(base);
      assert base == WholeWalk(o, root);
      forall q
        ensures t.log.consumed[q] == if Eligible(o, [], root, q) then 1 else 0
      {
        WholeVisits(o, root, q);
      }
    }
  }

  // ----- before the pool starts -----------------------------------------------------------------

  /** What inspecting the root leads to: an error, an immediate result, or a walk. */
  datatype Beginning = Unavailable | Immediate(stats: Stats) | Walking(pool: Pool)

  function Begin(o: WalkOptions, root: Probe, expired: bool, workers: nat): Beginning {
    match root
    case Gone => Unavailable
    case Unstatable(_) => Unavailable
    case Leaf(meta) => Immediate(Counted(STAT_OP).Merge(ProbeStats(o, [], root)))
    case Subdirectory(dir) =>
      if o.ForeignOwner(dir.meta) then Immediate(Counted(STAT_OP).Merge(SkipStats([], o.ownerReason)))
      else if expired then Immediate(RootStats(dir).Merge(CUT))
      else
        match dir.opening
        case Opens => Walking(Start(dir, workers))
        case Vanished => Unavailable
        case Refused(reason) => Immediate(RootStats(dir).Merge(SkipStats([], reason)))
  }

  /**
   An immediate result is honest too: it is truncated exactly when the deadline came before an
   owned root could be opened, then counts the root as unvisited, and is below the complete walk.
   */
  lemma BeginsHonestly(o: WalkOptions, root: Probe, expired: bool, workers: nat)
    ensures var b := Begin(o, root, expired, workers);
            b.Immediate? ==>
              && |b.stats.skipped| == Min(SKIP_SAMPLE_CAP, b.stats.tally.SkippedTotal())
              && (b.stats.truncated <==> root.Subdirectory? && !o.ForeignOwner(root.dir.meta) && expired)
              && b.stats.unvisited == (if b.stats.truncated then 1 else 0)
              && (b.stats.truncated ==> b.stats.tally.Below(WholeWalk(o, root.dir).tally))
    ensures Begin(o, root, expired, workers).Walking? ==>
              root.Subdirectory? && Begin(o, root, expired, workers).pool == Start(root.dir, workers)
  {
    MergeKeepsSample(Counted(STAT_OP), ProbeStats(o, [], root));
    MergeKeepsSample(Counted(STAT_OP), SkipStats([], o.ownerReason));
    if root.Subdirectory? {
      var stats := RootStats(root.dir);
      MergeKeepsSample(Counted(STAT_OP), Counted(DirectoryTally(root.dir.meta)));
      MergeKeepsSample(stats, CUT);
      if root.dir.opening.Refused? {
        MergeKeepsSample(stats, SkipStats([], root.dir.opening.reason));
      }
      PlusZero(stats.tally);
      PlusIncreases(stats.tally, FullTally(o, [], root.dir));
    }
  }

  predicate WithoutDeadline(moves: seq<Move>) {
    forall i :: 0 <= i < |moves| ==> (moves[i].Next? ==> !moves[i].expired) && (moves[i].Consume? ==> moves[i].expiry == None)
  }

  predicate Unhurried(s: Pool) {
    && !s.stats.truncated
    && forall w :: 0 <= w < |s.workers| && s.workers[w].Scanned? ==> s.workers[w].expiry == None
  }

  lemma {:induction false} StaysUnhurried(o: WalkOptions, s: Pool, moves: seq<Move>, t: Pool)
    requires Unhurried(s) && Run(o, s, moves) == Some(t) && WithoutDeadline(moves)
    ensures Unhurried(t)
    decreases |moves|
  {
    if moves != [] {
      if moves[0].Complete? {
        CutIsMarked(o, s.workers[moves[0].w].item, None);
      }
      StaysUnhurried(o, Apply(o, s, moves[0]), moves[1..], t);
    }
  }

  /**
   Schedule independence: without a deadline, for any tree, worker count and interleaving,
   each eligible directory is consumed exactly once and the counters are the tree's fold.
   */
  lemma ScheduleIndependence(o: WalkOptions, root: Dir, n: nat, moves: seq<Move>, t: Pool)
    requires n > 0 && Run(o, Start(root, n), moves) == Some(t) && AllReturned(t) && WithoutDeadline(moves)
    ensures !t.stats.truncated && t.stats.unvisited == 0
    ensures t.stats.tally == WholeWalk(o, root).tally
    ensures forall q :: t.log.consumed[q] == if Eligible(o, [], root, q) then 1 else 0
    ensures |t.stats.skipped| == Min(SKIP_SAMPLE_CAP, WholeWalk(o, root).tally.SkippedTotal())
  {
    StaysUnhurried(o, Start(root, n), moves, t);
    UntruncatedIsComplete(o, root, n, moves, t);
    HonestTruncation(o, root, n, moves, t);
  }

  /** Two schedules of the same tree, whatever their worker counts, report the same numbers. */
  lemma SameResult(o: WalkOptions, root: Dir, n: nat, moves: seq<Move>, t: Pool, n': nat, moves': seq<Move>, t': Pool)
    requires n > 0 && Run(o, Start(root, n), moves) == Some(t) && AllReturned(t) && WithoutDeadline(moves)
    requires n' > 0 && Run(o, Start(root, n'), moves') == Some(t') && AllReturned(t') && WithoutDeadline(moves')
    ensures t.stats.tally == t'.stats.tally && |t.stats.skipped| == |t'.stats.skipped|
    ensures t.log.consumed == t'.log.consumed
  {
    ScheduleIndependence(o, root, n, moves, t);
    ScheduleIndependence(o, root, n', moves', t');
  }

  // ----- progress ---------------------------------------------------------------------------------

  /**
   No stuck pool: unless every worker has returned, some worker can take a step that is not
   a spurious wake-up, and a waiting worker always coexists with a busy one.
   */
  lemma NoStuckPool(o: WalkOptions, root: Dir, n: nat, moves: seq<Move>, t: Pool)
    requires n > 0 && Run(o, Start(root, n), moves) == Some(t)
    ensures AllReturned(t) ==> t.queue == [] && t.active == 0
    ensures !AllReturned(t) ==>
              exists w :: 0 <= w < |t.workers| && (t.workers[w].Ready? || t.workers[w].Busy())
    ensures forall w :: 0 <= w < |t.workers| && t.workers[w].Waiting? ==>
              exists v :: 0 <= v < |t.workers| && t.workers[v].Busy()
    ensures forall w :: 0 <= w < |t.workers| && (t.workers[w].Ready? || t.workers[w].Busy()) ==>
              Enabled(t, Next(w, false)) || Enabled(t, Consume(w, None)) || Enabled(t, Complete(w))
  {
    ReachableOk(o, root, n, moves, t);
    SomeBusy(t.workers);
    if AllReturned(t) {
      UntruncatedIsComplete(o, root, n, moves, t);
    }
  }

  /** Directories of a subtree, an upper bound on how often it can be deferred. */
  function Size(dir: Dir): nat
    decreases dir
  {
    1 + if dir.listing.Entries? then SizeEntries(dir.listing.entries, |dir.listing.entries|) else 0
  }

  function SizeEntries(es: seq<Entry>, n: nat): nat
    requires n <= |es|
    decreases es, n
  {
    if n == 0 then 0 else SizeEntries(es, n - 1) + SizeEntry(es[n - 1])
  }

  function SizeEntry(e: Entry): nat
    decreases e
  {
    if e.Named? && e.probe.Subdirectory? then Size(e.probe.dir) else 0
  }

  function ItemsSize(items: seq<Pending>): nat {
    if items == [] then 0 else ItemsSize(items[..|items| - 1]) + Size(items[|items| - 1].dir)
  }

  lemma {:induction false} SizeAppend(a: seq<Pending>, b: seq<Pending>)
    ensures ItemsSize(a + b) == ItemsSize(a) + ItemsSize(b)
    decreases |b|
  {
    if b == [] {
      assert a + b == a;
    } else {
      assert (a + b)[..|a + b| - 1] == a + b[..|b| - 1];
      SizeAppend(a, b[..|b| - 1]);
    }
  }

  lemma EntryDeferredSize(o: WalkOptions, p: Path, i: nat, e: Entry)
    ensures ItemsSize(EntryDirs(o, p, i, e)) <= SizeEntry(e)
  {
    var more := EntryDirs(o, p, i, e);
    if more != [] {
      assert more[..0] == [];
    }
  }

  lemma DeferredSize(o: WalkOptions, p: Path, es: seq<Entry>, n: nat)
    requires n <= |es|
    ensures ItemsSize(EntriesDirs(o, p, es, n)) <= SizeEntries(es, n)
  {
    for i := 0 to n
      invariant ItemsSize(EntriesDirs(o, p, es, i)) <= SizeEntries(es, i)
    {
      EntryDeferredSize(o, p, i, es[i]);
      SizeAppend(EntriesDirs(o, p, es, i), EntryDirs(o, p, i, es[i]));
    }
  }

  lemma {:induction false} SizeGrows(es: seq<Entry>, n: nat, m: nat)
    requires n <= m <= |es|
    ensures SizeEntries(es, n) <= SizeEntries(es, m)
    decreases m
  {
    if n < m {
      SizeGrows(es, n, m - 1);
    }
  }

  /** A consumed directory defers strictly less than itself. */
  lemma ConsumedShrinks(o: WalkOptions, item: Pending, expiry: Option<nat>)
    ensures ItemsSize(Consumed(o, item, expiry).dirs) < Size(item.dir)
  {
    if item.dir.listing.Entries? {
      var es := item.dir.listing.entries;
      DeferredSize(o, item.path, es, Reached(|es|, expiry));
      SizeGrows(es, Reached(|es|, expiry), |es|);
    }
  }

  /** Steps still owed to a directory: taking it, scanning it, completing it. */
  function WorkerWork(worker: Worker): nat {
    match worker
    case Scanning(item) => 3 * Size(item.dir) - 1
    case Scanned(item, _) => 3 * Size(item.dir) - 2
    case _ => 0
  }

  function WorkersWork(ws: seq<Worker>): nat {
    if ws == [] then 0 else WorkersWork(ws[..|ws| - 1]) + WorkerWork(ws[|ws| - 1])
  }

  lemma {:induction false} WorkUpdate(ws: seq<Worker>, w: nat, x: Worker)
    requires w < |ws|
    ensures WorkersWork(ws[w := x]) + WorkerWork(ws[w]) == WorkersWork(ws) + WorkerWork(x)
    decreases |ws|
  {
    if w == |ws| - 1 {
      assert ws[w := x][..|ws| - 1] == ws[..|ws| - 1];
    } else {
      assert ws[w := x][..|ws| - 1] == ws[..|ws| - 1][w := x];
      WorkUpdate(ws[..|ws| - 1], w, x);
    }
  }

  lemma {:induction false} WorkAwake(ws: seq<Worker>)
    ensures WorkersWork(Awake(ws)) == WorkersWork(ws)
    decreases |ws|
  {
    if ws != [] {
      assert Awake(ws)[..|ws| - 1] == Awake(ws[..|ws| - 1]);
      WorkAwake(ws[..|ws| - 1]);
    }
  }

  function Work(s: Pool): nat {
    3 * ItemsSize(s.queue) + WorkersWork(s.workers)
  }

  /** Work and workers weigh more than everybody being ready at once. */
  function Measure(s: Pool): nat {
    Owed(s) * (|s.workers| + 1) + ReadyCount(s.workers)
  }

  lemma ReturnShrinks(s: Pool, t: Pool, w: nat)
    requires w < |s.workers| && s.workers[w].Ready?
    requires t.workers == Awake(s.workers)[w := Returned] && (t.queue == s.queue || t.queue == [])
    ensures Descends(s, t)
  {
    CountsAwake(s.workers);
    WorkAwake(s.workers);
    CountsUpdate(Awake(s.workers), w, Returned);
    WorkUpdate(Awake(s.workers), w, Returned);
  }

  lemma NextShrinks(o: WalkOptions, s: Pool, w: nat, expired: bool)
    requires w < |s.workers| && s.workers[w].Ready?
    ensures Descends(s, NextDir(o, s, w, expired))
  {
    var t := NextDir(o, s, w, expired);
    if (s.queue == [] && s.active == 0) || s.stats.truncated || expired {
      ReturnShrinks(s, t, w);
    } else if s.queue != [] {
      var item := s.queue[|s.queue| - 1];
      CountsUpdate(s.workers, w, Scanning(item));
      WorkUpdate(s.workers, w, Scanning(item));
    } else {
      CountsUpdate(s.workers, w, Waiting);
      WorkUpdate(s.workers, w, Waiting);
    }
  }

  lemma CompleteShrinks(o: WalkOptions, s: Pool, w: nat)
    requires w < |s.workers| && s.workers[w].Scanned?
    ensures var t := CompleteDir(o, s, w);
            Descends(s, t)
  {
    var item, expiry := s.workers[w].item, s.workers[w].expiry;
    CountsAwake(s.workers);
    WorkAwake(s.workers);
    CountsUpdate(Awake(s.workers), w, Ready);
    WorkUpdate(Awake(s.workers), w, Ready);
    ConsumedShrinks(o, item, expiry);
    SizeAppend(s.queue, Consumed(o, item, expiry).dirs);
  }

  lemma Lexicographic(hi: nat, lo: nat, hi': nat, lo': nat, n: nat)
    requires lo <= n && lo' <= n
    requires hi' < hi || (hi' == hi && lo' < lo)
    ensures hi' * (n + 1) + lo' < hi * (n + 1) + lo
  {
    if hi' < hi {
      assert (hi - hi' - 1) * (n + 1) >= 0;
    }
  }

  function Owed(s: Pool): nat {
    Work(s) + RunningCount(s.workers)
  }

  predicate Descends(s: Pool, t: Pool) {
    || Owed(t) < Owed(s)
    || (Owed(t) == Owed(s) && ReadyCount(t.workers) < ReadyCount(s.workers))
  }

  lemma MoveDescends(o: WalkOptions, s: Pool, move: Move)
    requires Enabled(s, move) && !move.Spurious?
    ensures Descends(s, Apply(o, s, move)) && |Apply(o, s, move).workers| == |s.workers|
  {
    match move
    case Next(w, expired) => NextShrinks(o, s, w, expired);
    case Consume(w, expiry) =>
      CountsUpdate(s.workers, w, Scanned(s.workers[w].item, expiry));
      WorkUpdate(s.workers, w, Scanned(s.workers[w].item, expiry));
    case Complete(w) => CompleteShrinks(o, s, w);
  }

  /** Every step but a spurious wake-up makes the measure smaller; that one costs a single unit. */
  lemma MoveShrinks(o: WalkOptions, s: Pool, move: Move)
    requires Enabled(s, move)
    ensures Measure(Apply(o, s, move)) + 1 <= Measure(s) + if move.Spurious? then 2 else 0
  {
    var t := Apply(o, s, move);
    if move.Spurious? {
      CountsUpdate(s.workers, move.w, Ready);
      WorkUpdate(s.workers, move.w, Ready);
    } else {
      MoveDescends(o, s, move);
      CountsAwake(s.workers);
      CountsAwake(t.workers);
      Lexicographic(Owed(s), ReadyCount(s.workers), Owed(t), ReadyCount(t.workers), |s.workers|);
    }
  }

  function SpuriousCount(moves: seq<Move>): nat
    decreases |moves|
  {
    if moves == [] then 0 else (if moves[0].Spurious? then 1 else 0) + SpuriousCount(moves[1..])
  }

  lemma {:induction false} RunShrinks(o: WalkOptions, s: Pool, moves: seq<Move>, t: Pool)
    requires Run(o, s, moves) == Some(t)
    ensures |moves| + Measure(t) <= Measure(s) + 2 * SpuriousCount(moves)
    decreases |moves|
  {
    if moves != [] {
      MoveShrinks(o, s, moves[0]);
      RunShrinks(o, Apply(o, s, moves[0]), moves[1..], t);
    }
  }

  lemma {:induction false} FreshCounts(ws: seq<Worker>)
    requires forall w :: 0 <= w < |ws| ==> ws[w].Ready?
    ensures WorkersWork(ws) == 0 && RunningCount(ws) == |ws| && ReadyCount(ws) == |ws|
    decreases |ws|
  {
    if ws != [] {
      FreshCounts(ws[..|ws| - 1]);
    }
  }

  lemma StartWork(root: Dir, n: nat)
    ensures ItemsSize(Start(root, n).queue) == Size(root)
  {
    assert [Pending([], root)][..0] == [];
  }

  /** Every run is finite: its length is bounded by the tree, the pool and its spurious wake-ups. */
  lemma BoundedRun(o: WalkOptions, root: Dir, n: nat, moves: seq<Move>, t: Pool)
    requires Run(o, Start(root, n), moves) == Some(t)
    ensures |moves| <= (3 * Size(root) + n) * (n + 1) + n + 2 * SpuriousCount(moves)
  {
    StartMeasure(root, n);
    RunShrinks(o, Start(root, n), moves, t);
  }

  lemma StartMeasure(root: Dir, n: nat)
    ensures Measure(Start(root, n)) == (3 * Size(root) + n) * (n + 1) + n
  {
    var s := Start(root, n);
    FreshCounts(s.workers);
    StartWork(root, n);
    assert Owed(s) == 3 * Size(root) + n;
  }
}
