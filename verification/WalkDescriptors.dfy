/**
 The descriptor bound of a one-worker walk: the parent handles kept alive by queued
 children always form one ancestor chain, so depth bounds them and width does not.
 */
module WalkDescriptors {
  import opened Wrappers
  import opened WalkAccounting
  import opened WalkTree
  import opened WalkPool

  /** The longest chain of directories below `dir`. */
  function Height(dir: Dir): nat
    decreases dir
  {
    if dir.listing.Entries? then HeightEntries(dir.listing.entries, |dir.listing.entries|) else 0
  }

  function HeightEntries(es: seq<Entry>, n: nat): nat
    requires n <= |es|
    decreases es, n
  {
    if n == 0 then 0 else Max(HeightEntries(es, n - 1), HeightEntry(es[n - 1]))
  }

  function HeightEntry(e: Entry): nat
    decreases e
  {
    if e.Named? && e.probe.Subdirectory? then 1 + Height(e.probe.dir) else 0
  }

  lemma {:induction false} EntryHeight(es: seq<Entry>, n: nat, i: nat)
    requires i < n <= |es|
    ensures HeightEntry(es[i]) <= HeightEntries(es, n)
    decreases n
  {
    if i < n - 1 {
      EntryHeight(es, n - 1, i);
    }
  }

  /** The directory whose handle an item keeps open: its parent, or the root itself. */
  function Handle(item: Pending): Path {
    if item.path == [] then [] else item.path[..|item.path| - 1]
  }

  predicate Deep(root: Dir, item: Pending) {
    |item.path| + Height(item.dir) <= Height(root)
  }

  predicate Chain(queue: seq<Pending>) {
    forall i, j :: 0 <= i <= j < |queue| ==> Handle(queue[i]) <= Handle(queue[j])
  }

  predicate AllBelow(queue: seq<Pending>, top: Path) {
    forall i :: 0 <= i < |queue| ==> Handle(queue[i]) <= top
  }

  predicate AllDeep(root: Dir, queue: seq<Pending>) {
    forall i :: 0 <= i < |queue| ==> Deep(root, queue[i])
  }

  predicate LinedUp(root: Dir, s: Pool) {
    && |s.workers| == 1
    && Chain(s.queue) && AllDeep(root, s.queue)
    && (s.workers[0].Busy() ==> Deep(root, s.workers[0].item) && AllBelow(s.queue, Handle(s.workers[0].item)))
  }

  /** Everything a scan defers hangs off the scanned directory's own handle. */
  lemma {:induction false} DeferredHandles(o: WalkOptions, root: Dir, p: Path, es: seq<Entry>, n: nat)
    requires n <= |es| && |p| + HeightEntries(es, |es|) <= Height(root)
    ensures var dirs := EntriesDirs(o, p, es, n);
            AllDeep(root, dirs) && forall i :: 0 <= i < |dirs| ==> dirs[i].path != [] && Handle(dirs[i]) == p
    decreases n
  {
    if n > 0 {
      DeferredHandles(o, root, p, es, n - 1);
      EntryHeight(es, |es|, n - 1);
    }
  }

  lemma ConsumedHandles(o: WalkOptions, root: Dir, item: Pending, expiry: Option<nat>)
    requires Deep(root, item)
    ensures var dirs := Consumed(o, item, expiry).dirs;
            AllDeep(root, dirs) && forall i :: 0 <= i < |dirs| ==> dirs[i].path != [] && Handle(dirs[i]) == item.path
  {
    if item.dir.listing.Entries? {
      var es := item.dir.listing.entries;
      DeferredHandles(o, root, item.path, es, Reached(|es|, expiry));
    }
  }

  lemma PrefixTrans(a: Path, b: Path, c: Path)
    requires a <= b && b <= c
    ensures a <= c
  {
  }

  lemma ExtendChain(queue: seq<Pending>, item: Pending, dirs: seq<Pending>)
    requires Chain(queue) && AllBelow(queue, Handle(item))
    requires forall i :: 0 <= i < |dirs| ==> Handle(dirs[i]) == item.path
    ensures Chain(queue + dirs)
  {
    forall i, j | 0 <= i <= j < |queue + dirs|
      ensures Handle((queue + dirs)[i]) <= Handle((queue + dirs)[j])
    {
      if i < |queue| && j >= |queue| {
        PrefixTrans(Handle(queue[i]), Handle(item), item.path);
      }
    }
  }

  lemma NextLinesUp(o: WalkOptions, root: Dir, s: Pool, expired: bool)
    requires LinedUp(root, s) && s.workers[0].Ready?
    ensures LinedUp(root, NextDir(o, s, 0, expired))
  {
  }

  lemma CompleteLinesUp(o: WalkOptions, root: Dir, s: Pool)
    requires LinedUp(root, s) && s.workers[0].Scanned?
    ensures LinedUp(root, CompleteDir(o, s, 0))
  {
    var item, expiry := s.workers[0].item, s.workers[0].expiry;
    ConsumedHandles(o, root, item, expiry);
    ExtendChain(s.queue, item, Consumed(o, item, expiry).dirs);
  }

  lemma MoveLinesUp(o: WalkOptions, root: Dir, s: Pool, move: Move)
    requires LinedUp(root, s) && Enabled(s, move)
    ensures LinedUp(root, Apply(o, s, move))
  {
    match move
    case Next(_, expired) => NextLinesUp(o, root, s, expired);
    case Complete(_) => CompleteLinesUp(o, root, s);
    case _ =>
  }

  lemma {:induction false} RunLinesUp(o: WalkOptions, root: Dir, s: Pool, moves: seq<Move>, t: Pool)
    requires LinedUp(root, s) && Run(o, s, moves) == Some(t)
    ensures LinedUp(root, t)
    decreases |moves|
  {
    if moves != [] {
      MoveLinesUp(o, root, s, moves[0]);
      RunLinesUp(o, root, Apply(o, s, moves[0]), moves[1..], t);
    }
  }

  lemma {:induction false} PrefixesOf(handles: set<Path>, top: Path)
    requires forall h :: h in handles ==> h <= top
    ensures |handles| <= |top| + 1
    decreases |top|
  {
    if top == [] {
      assert handles <= {[]};
      Subset(handles, {[]});
    } else {
      var shorter := handles - {top};
      forall h | h in shorter
        ensures h <= top[..|top| - 1]
      {
        assert h == top[..|h|];
        assert top[..|top|] == top;
      }
      PrefixesOf(shorter, top[..|top| - 1]);
      assert handles <= shorter + {top};
      Subset(handles, shorter + {top});
    }
  }

  lemma {:induction false} Subset(a: set<Path>, b: set<Path>)
    requires a <= b
    ensures |a| <= |b|
    decreases |a|
  {
    if a != {} {
      var x :| x in a;
      Subset(a - {x}, b - {x});
    }
  }

  /** The distinct parent handles that queued children keep open. */
  function ParentHandles(s: Pool): set<Path> {
    set i | 0 <= i < |s.queue| && s.queue[i].path != [] :: Handle(s.queue[i])
  }

  /** With one worker, queued children hold one chain of ancestors, never more than the tree is deep. */
  lemma DescriptorBound(o: WalkOptions, root: Dir, moves: seq<Move>, t: Pool)
    requires Run(o, Start(root, 1), moves) == Some(t)
    ensures forall h, k :: h in ParentHandles(t) && k in ParentHandles(t) ==> h <= k || k <= h
    ensures |ParentHandles(t)| <= Height(root)
  {
    RunLinesUp(o, root, Start(root, 1), moves, t);
    var handles := ParentHandles(t);
    if handles != {} {
      var i :| 0 <= i < |t.queue| && t.queue[i].path != [];
      var last := t.queue[|t.queue| - 1];
      assert forall h :: h in handles ==> h <= Handle(last);
      if last.path == [] {
        PrefixesOf(handles, []);
        assert Deep(root, t.queue[i]);
      } else {
        assert Deep(root, last);
        PrefixesOf(handles, Handle(last));
      }
    }
  }
}
