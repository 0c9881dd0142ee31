/**
 What a complete walk emits, stated over the tree: which directories it reaches, which of
 them are claimed whole, and which contribute loose checkpoints.
 */
module DiscoveryMeaning {
  import opened Wrappers
  import opened ProjectDiscovery

  // ----- one directory -------------------------------------------------------------------------------

  /** Not protected, owned, and in no adapter's root. */
  predicate Admitted(o: Scope, p: Path, d: Dir) {
    !d.protected && d.owned && forall i :: 0 <= i < |o.claimedRoots| ==> !(o.claimedRoots[i] <= p)
  }

  /** Of a class whose source is selected. */
  predicate Wanted(o: Scope, d: Dir) {
    (d.verdict.Checkpoint? && o.checkpoints) || (d.verdict.Artifact? && o.artifacts)
  }

  /** No adapter's root and no dependency lies in it. */
  predicate Clear(o: Scope, p: Path) {
    && (forall i :: 0 <= i < |o.claimedRoots| ==> o.claimedRoots[i] == p || !(p <= o.claimedRoots[i]))
    && (forall i :: 0 <= i < |o.dependencies| ==> !(p <= o.dependencies[i]))
  }

  /** A readable directory that may be claimed. */
  predicate Measured(o: Scope, p: Path, d: Dir) {
    Admitted(o, p, d) && Wanted(o, d) && Clear(o, p) && d.listing.Listed?
  }

  /** Claimed whole: measured, found, and without a protected boundary inside. */
  predicate Claimable(o: Scope, p: Path, d: Dir) {
    Measured(o, p, d) && d.measurement.found && !d.measurement.protectedBoundaries
  }

  /** Looked into: no claim and not hidden, or a claim given up for a protected boundary. */
  predicate Enumerated(o: Scope, p: Path, d: Dir) {
    || (Admitted(o, p, d) && (d.verdict.Unclassified? || d.verdict.IncompleteClass?)
        && (p == o.root || !d.dot) && d.listing.Listed?)
    || (Measured(o, p, d) && d.measurement.found && d.measurement.protectedBoundaries)
  }

  /** The loose checkpoint files it contributes, if it contributes any. */
  predicate Contributes(o: Scope, p: Path, d: Dir, files: seq<Path>) {
    && Enumerated(o, p, d) && o.checkpoints && d.loose.found
    && files == LooseFiles(o, p, d.listing.entries, Readable(d.listing.entries)) && |files| >= 2
  }

  /** Something about this directory ends the walk early. */
  predicate Stops(o: Scope, p: Path, d: Dir) {
    || (Admitted(o, p, d) && d.verdict.TruncatedClass?)
    || (Measured(o, p, d)
        && (d.measurement.truncated
            || (!(d.measurement.found && d.measurement.protectedBoundaries) && d.validation.Cut?)))
    || (Enumerated(o, p, d) && d.loose.truncated && o.checkpoints
        && |LooseFiles(o, p, d.listing.entries, Readable(d.listing.entries))| >= 2)
  }

  // ----- reached directories -------------------------------------------------------------------------

  /** The subdirectory of that name among the first `n` entries. */
  function FindChild(es: seq<Entry>, n: nat, name: string): Option<Dir>
    requires n <= |es|
  {
    if n == 0 then None
    else if es[n - 1].Entry? && es[n - 1].kind.Subdirectory? && es[n - 1].name == name then Some(es[n - 1].kind.dir)
    else FindChild(es, n - 1, name)
  }

  /** The directory at the relative path `q`, when every directory on the way is looked into. */
  function DirAt(o: Scope, p: Path, d: Dir, q: Path): Option<Dir>
    decreases |q|
  {
    if q == [] then Some(d)
    else if !Enumerated(o, p, d) then None
    else
      match FindChild(d.listing.entries, Readable(d.listing.entries), q[0])
      case None => None
      case Some(child) => DirAt(o, p + [q[0]], child, q[1..])
  }

  /** The candidate belongs to a directory reached from the item. */
  predicate Emits(o: Scope, item: Item, c: Candidate) {
    var home := Home(c);
    item.path <= home && var d := DirAt(o, item.path, item.dir, home[|item.path|..]);
      d.Some? && EmittedHere(o, home, d.value, c)
  }

  predicate EmittedHere(o: Scope, p: Path, d: Dir, c: Candidate) {
    match c
    case Whole(dir) => dir == p && Claimable(o, p, d)
    case Loose(home, files) => home == p && Contributes(o, p, d, files)
  }

  /** Nothing the walk reaches from here ends it early. */
  ghost predicate Undisturbed(o: Scope, item: Item) {
    forall q :: DirAt(o, item.path, item.dir, q).Some? ==>
      !Stops(o, item.path + q, DirAt(o, item.path, item.dir, q).value)
  }

  // ----- one visit says the same -----------------------------------------------------------------------

  lemma ClaimedMeaning(o: Scope, p: Path, d: Dir)
    ensures Admitted(o, p, d) <==> !d.protected && d.owned && !IsClaimed(o, p)
    ensures Clear(o, p) <==> !ContainsClaimed(o, p)
  {
  }

  /** What looking into a readable directory does. */
  lemma EntriesFlat(o: Scope, p: Path, d: Dir)
    requires d.listing.Listed?
    ensures var v, es := VisitEntries(o, p, d), d.listing.entries;
            var files := LooseFiles(o, p, es, Readable(es));
            && v.children == Children(p, es, Readable(es))
            && v.truncated == (o.checkpoints && |files| >= 2 && d.loose.truncated)
            && v.candidates == if o.checkpoints && |files| >= 2 && d.loose.found then [Loose(p, files)] else []
  {
  }

  /** The visit ends the walk exactly where the description says so. */
  lemma VisitStops(o: Scope, item: Item)
    ensures VisitDir(o, item).truncated <==> Stops(o, item.path, item.dir)
  {
    ClaimedMeaning(o, item.path, item.dir);
    if Admitted(o, item.path, item.dir) && (item.dir.verdict.Checkpoint? || item.dir.verdict.Artifact?) {
      ClaimStops(o, item);
    } else if item.dir.listing.Listed? {
      EntriesFlat(o, item.path, item.dir);
    }
  }

  lemma ClaimStops(o: Scope, item: Item)
    requires Admitted(o, item.path, item.dir) && (item.dir.verdict.Checkpoint? || item.dir.verdict.Artifact?)
    ensures VisitClaimed(o, item).truncated <==> Stops(o, item.path, item.dir)
  {
    ClaimedMeaning(o, item.path, item.dir);
    if item.dir.listing.Listed? {
      EntriesFlat(o, item.path, item.dir);
    }
  }

  lemma VisitChildren(o: Scope, item: Item)
    requires !Stops(o, item.path, item.dir)
    ensures VisitDir(o, item).children ==
              if Enumerated(o, item.path, item.dir)
              then Children(item.path, item.dir.listing.entries, Readable(item.dir.listing.entries)) else []
  {
    ClaimedMeaning(o, item.path, item.dir);
    if item.dir.listing.Listed? {
      EntriesFlat(o, item.path, item.dir);
    }
  }

  lemma VisitCandidates(o: Scope, item: Item)
    requires !Stops(o, item.path, item.dir)
    ensures var p, d := item.path, item.dir;
            VisitDir(o, item).candidates ==
              if Claimable(o, p, d) then [Whole(p)]
              else if Enumerated(o, p, d) && Contributes(o, p, d, LooseFiles(o, p, d.listing.entries, Readable(d.listing.entries)))
              then [Loose(p, LooseFiles(o, p, d.listing.entries, Readable(d.listing.entries)))]
              else []
  {
    ClaimedMeaning(o, item.path, item.dir);
    if item.dir.listing.Listed? {
      EntriesFlat(o, item.path, item.dir);
    }
  }

  lemma CandidatesHere(o: Scope, item: Item, c: Candidate)
    requires !Stops(o, item.path, item.dir)
    ensures c in VisitDir(o, item).candidates <==> EmittedHere(o, item.path, item.dir, c)
  {
    VisitCandidates(o, item);
  }

  // ----- names and children ----------------------------------------------------------------------------

  lemma SameChild(p: Path, a: string, x: Dir, b: string, y: Dir)
    ensures Item(p + [a], x) == Item(p + [b], y) <==> a == b && x == y
  {
    assert (p + [a])[|p|] == a && (p + [b])[|p|] == b;
  }

  lemma {:induction false} FindMeaning(es: seq<Entry>, n: nat, name: string, child: Dir)
    requires n <= |es| && DistinctNames(es)
    ensures FindChild(es, n, name) == Some(child) <==>
              exists i :: 0 <= i < n && es[i] == Entry(name, Subdirectory(child))
    decreases n
  {
    if n > 0 {
      FindMeaning(es, n - 1, name, child);
    }
  }

  lemma {:induction false} ChildMeaning(p: Path, es: seq<Entry>, n: nat, name: string, child: Dir)
    requires n <= |es|
    ensures Item(p + [name], child) in Children(p, es, n) <==>
              exists i :: 0 <= i < n && es[i] == Entry(name, Subdirectory(child))
    decreases n
  {
    if n > 0 {
      ChildMeaning(p, es, n - 1, name, child);
      var last := es[n - 1];
      if last.Entry? && last.kind.Subdirectory? {
        SameChild(p, name, child, last.name, last.kind.dir);
      }
    }
  }

  /** Below an enumerated directory, a path goes on through the child of that name. */
  lemma DirAtChild(o: Scope, p: Path, d: Dir, name: string, child: Dir, q: Path)
    requires WellFormed(d) && Enumerated(o, p, d)
    requires Item(p + [name], child) in Children(p, d.listing.entries, Readable(d.listing.entries))
    ensures DirAt(o, p, d, [name] + q) == DirAt(o, p + [name], child, q)
  {
    var es := d.listing.entries;
    ChildMeaning(p, es, Readable(es), name, child);
    FindMeaning(es, Readable(es), name, child);
    assert ([name] + q)[1..] == q;
  }

  /** A candidate from below comes from one of the children pushed, and the other way round. */
  /** A child of an enumerated directory has a name, under which everything below it is reached. */
  lemma ChildName(o: Scope, item: Item, child: Item, q: Path) returns (name: string)
    requires WellFormed(item.dir) && Enumerated(o, item.path, item.dir)
    requires child in Children(item.path, item.dir.listing.entries, Readable(item.dir.listing.entries))
    ensures child.path == item.path + [name]
    ensures DirAt(o, item.path, item.dir, [name] + q) == DirAt(o, child.path, child.dir, q)
    ensures item.path + ([name] + q) == child.path + q
  {
    var p, es := item.path, item.dir.listing.entries;
    ChildrenBelow(p, es, Readable(es));
    var i :| 0 <= i < Readable(es) && es[i].Entry? && es[i].kind.Subdirectory?
             && child == Item(p + [es[i].name], es[i].kind.dir);
    name := es[i].name;
    DirAtChild(o, p, item.dir, name, child.dir, q);
  }

  lemma BelowEmits(o: Scope, item: Item, c: Candidate, child: Item)
    requires WellFormed(item.dir) && Enumerated(o, item.path, item.dir)
    requires child in Children(item.path, item.dir.listing.entries, Readable(item.dir.listing.entries))
    requires Emits(o, child, c)
    ensures Emits(o, item, c)
  {
    var p, home := item.path, Home(c);
    var name := ChildName(o, item, child, home[|child.path|..]);
    assert home[|p|..] == [name] + home[|p| + 1..];
  }

  function Home(c: Candidate): Path {
    if c.Whole? then c.dir else c.home
  }

  lemma EmitsBelow(o: Scope, item: Item, c: Candidate) returns (child: Item)
    requires WellFormed(item.dir) && Emits(o, item, c) && Home(c) != item.path
    ensures Enumerated(o, item.path, item.dir)
    ensures child in Children(item.path, item.dir.listing.entries, Readable(item.dir.listing.entries))
    ensures Emits(o, child, c)
  {
    var p, d, home := item.path, item.dir, Home(c);
    var q := home[|p|..];
    assert q != [];
    var es := d.listing.entries;
    var found := FindChild(es, Readable(es), q[0]);
    child := Item(p + [q[0]], found.value);
    FindMeaning(es, Readable(es), q[0], found.value);
    ChildMeaning(p, es, Readable(es), q[0], found.value);
    assert home == p + q && child.path <= home && home[|p| + 1..] == q[1..];
  }

  /** What an item emits is what its visit emits and what its children emit. */
  lemma StepEmits(o: Scope, item: Item, c: Candidate)
    requires WellFormed(item.dir) && !Stops(o, item.path, item.dir)
    ensures Emits(o, item, c) <==>
              || c in VisitDir(o, item).candidates
              || exists k :: 0 <= k < |VisitDir(o, item).children| && Emits(o, VisitDir(o, item).children[k], c)
  {
    var v := VisitDir(o, item);
    VisitChildren(o, item);
    CandidatesHere(o, item, c);
    if Emits(o, item, c) && Home(c) != item.path {
      var child := EmitsBelow(o, item, c);
      var k :| 0 <= k < |v.children| && v.children[k] == child;
      assert Emits(o, v.children[k], c);
    }
    assert Home(c) == item.path ==> Home(c)[|item.path|..] == [];
    forall k | 0 <= k < |v.children| && Emits(o, v.children[k], c)
      ensures Emits(o, item, c)
    {
      BelowEmits(o, item, c, v.children[k]);
    }
  }

  // ----- the whole walk --------------------------------------------------------------------------------

  /** What disturbs nobody disturbs no child either. */
  lemma ChildUndisturbed(o: Scope, item: Item, child: Item)
    requires WellFormed(item.dir) && Enumerated(o, item.path, item.dir) && Undisturbed(o, item)
    requires child in Children(item.path, item.dir.listing.entries, Readable(item.dir.listing.entries))
    ensures Undisturbed(o, child)
  {
    forall q | DirAt(o, child.path, child.dir, q).Some?
      ensures !Stops(o, child.path + q, DirAt(o, child.path, child.dir, q).value)
    {
      var name := ChildName(o, item, child, q);
    }
  }

  ghost predicate Calm(o: Scope, stack: seq<Item>) {
    forall i :: 0 <= i < |stack| ==> WellFormed(stack[i].dir) && Undisturbed(o, stack[i])
  }

  /** One turn of the walk leaves a calm stack. */
  lemma CalmNext(o: Scope, rest: seq<Item>, top: Item)
    requires Calm(o, rest + [top])
    ensures !VisitDir(o, top).truncated && Calm(o, rest + VisitDir(o, top).children)
    ensures WellFormed(top.dir) && !Stops(o, top.path, top.dir)
  {
    var stack, v := rest + [top], VisitDir(o, top);
    assert stack[|rest|] == top;
    assert DirAt(o, top.path, top.dir, []) == Some(top.dir) && top.path + [] == top.path;
    VisitStops(o, top);
    VisitChildren(o, top);
    VisitTidy(o, top);
    forall k | 0 <= k < |v.children|
      ensures WellFormed(v.children[k].dir) && Undisturbed(o, v.children[k])
    {
      ChildUndisturbed(o, top, v.children[k]);
    }
    assert forall i :: 0 <= i < |rest| ==> stack[i] == rest[i];
  }

  ghost predicate StackEmits(o: Scope, stack: seq<Item>, c: Candidate) {
    exists i :: 0 <= i < |stack| && Emits(o, stack[i], c)
  }

  lemma StackEmitsAppend(o: Scope, a: seq<Item>, b: seq<Item>, c: Candidate)
    ensures StackEmits(o, a + b, c) <==> StackEmits(o, a, c) || StackEmits(o, b, c)
  {
    if StackEmits(o, a, c) {
      var i :| 0 <= i < |a| && Emits(o, a[i], c);
      assert (a + b)[i] == a[i];
    }
    if StackEmits(o, b, c) {
      var i :| 0 <= i < |b| && Emits(o, b[i], c);
      assert (a + b)[|a| + i] == b[i];
    }
  }

  lemma {:induction false} WalkEmits(o: Scope, stack: seq<Item>, c: Candidate)
    requires Calm(o, stack)
    ensures c in Walk(o, stack) <==> StackEmits(o, stack, c)
    decreases StackWeight(stack)
  {
    if stack != [] {
      var rest, top := stack[..|stack| - 1], stack[|stack| - 1];
      SplitLast(stack);
      var v := VisitDir(o, top);
      CalmNext(o, rest, top);
      VisitShrinks(o, top);
      StackWeightAppend(rest, v.children);
      WalkEmits(o, rest + v.children, c);
      WalkUnfolds(o, [], rest, top);
      StackEmitsAppend(o, rest, [top], c);
      StackEmitsAppend(o, rest, v.children, c);
      StepEmits(o, top, c);
      assert StackEmits(o, [top], c) <==> Emits(o, top, c) by { assert [top][0] == top; }
      assert [] + Walk(o, stack) == Walk(o, stack) && [] + v.candidates == v.candidates;
    }
  }

  /**
   Without an early stop, the walk emits exactly: every reached directory that is claimable, whole;
   and for every reached directory that is looked into, its two or more readable checkpoint files.
   */
  lemma EmitsExactly(o: Scope, root: Dir)
    requires WellFormed(root) && Undisturbed(o, Item(o.root, root))
    ensures forall q :: Whole(q) in Walk(o, [Item(o.root, root)]) <==>
              o.root <= q && var d := DirAt(o, o.root, root, q[|o.root|..]); d.Some? && Claimable(o, q, d.value)
    ensures forall q, files :: Loose(q, files) in Walk(o, [Item(o.root, root)]) <==>
              o.root <= q && var d := DirAt(o, o.root, root, q[|o.root|..]); d.Some? && Contributes(o, q, d.value, files)
  {
    var item := Item(o.root, root);
    forall c: Candidate
      ensures c in Walk(o, [item]) <==> Emits(o, item, c)
    {
      WalkEmits(o, [item], c);
      assert StackEmits(o, [item], c) <==> Emits(o, item, c) by { assert [item][0] == item; }
    }
    forall q, files
      ensures Emits(o, item, Loose(q, files)) <==>
                o.root <= q && var d := DirAt(o, o.root, root, q[|o.root|..]); d.Some? && Contributes(o, q, d.value, files)
    {
    }
    forall q
      ensures Emits(o, item, Whole(q)) <==>
                o.root <= q && var d := DirAt(o, o.root, root, q[|o.root|..]); d.Some? && Claimable(o, q, d.value)
    {
    }
  }

  // ----- readable entries ------------------------------------------------------------------------------

  /** Entries are readable up to the first broken one. */
  lemma {:induction false} ReadableMeaning(es: seq<Entry>)
    ensures forall i :: 0 <= i < Readable(es) ==> es[i].Entry?
    ensures Readable(es) < |es| ==> es[Readable(es)].Broken?
    decreases |es|
  {
    if es != [] && es[0].Entry? {
      ReadableMeaning(es[1..]);
      forall i | 0 <= i < Readable(es)
        ensures es[i].Entry?
      {
        assert i > 0 ==> es[i] == es[1..][i - 1];
      }
    }
  }

  /** A loose file is exactly a checkpoint file among those entries. */
  lemma {:induction false} LooseMeaning(o: Scope, p: Path, es: seq<Entry>, n: nat, name: string)
    requires n <= |es|
    ensures p + [name] in LooseFiles(o, p, es, n) <==>
              o.checkpoints && exists i :: 0 <= i < n && es[i] == Entry(name, RegularFile(true))
    decreases n
  {
    if n > 0 {
      LooseMeaning(o, p, es, n - 1, name);
      if es[n - 1].Entry? {
        assert (p + [name])[|p|] == name && (p + [es[n - 1].name])[|p|] == es[n - 1].name;
      }
    }
  }

  /** The entries of a directory that hold a checkpoint file. */
  function Checkpoints(es: seq<Entry>, n: nat): set<nat>
    requires n <= |es|
  {
    set i | 0 <= i < n && es[i].Entry? && es[i].kind == RegularFile(true)
  }

  /** Every such entry counts once. */
  lemma {:induction false} LooseNumber(o: Scope, p: Path, es: seq<Entry>, n: nat)
    requires n <= |es|
    ensures |LooseFiles(o, p, es, n)| == if o.checkpoints then |Checkpoints(es, n)| else 0
    decreases n
  {
    if n > 0 {
      LooseNumber(o, p, es, n - 1);
      if es[n - 1].Entry? && es[n - 1].kind == RegularFile(true) {
        assert Checkpoints(es, n) == Checkpoints(es, n - 1) + {n - 1};
      } else {
        assert Checkpoints(es, n) == Checkpoints(es, n - 1);
      }
    } else {
      assert Checkpoints(es, 0) == {};
    }
  }

  // ----- what is reported incomplete -------------------------------------------------------------------

  /** Looked into if it can be read: no claim, and not hidden. */
  predicate Plain(o: Scope, p: Path, d: Dir) {
    Admitted(o, p, d) && (d.verdict.Unclassified? || d.verdict.IncompleteClass?) && (p == o.root || !d.dot)
  }

  /** The directory itself is reported incomplete. */
  predicate NotesItself(o: Scope, p: Path, d: Dir) {
    || (!d.protected && !d.owned)
    || (Admitted(o, p, d) && d.verdict.IncompleteClass?)
    || (Plain(o, p, d) && d.listing.Unreadable?)
    || (Admitted(o, p, d) && Wanted(o, d) && Clear(o, p)
        && (d.listing.Unreadable? || d.measurement.incomplete
            || (d.validation.Failed? && !(d.measurement.found && d.measurement.protectedBoundaries))))
    || (Enumerated(o, p, d)
        && (Readable(d.listing.entries) < |d.listing.entries|
            || (d.loose.incomplete && o.checkpoints
                && |LooseFiles(o, p, d.listing.entries, Readable(d.listing.entries))| >= 2)))
  }

  /** An entry read there that could not be inspected or belongs to somebody else. */
  predicate RefusedEntry(p: Path, es: seq<Entry>, n: nat, r: Path)
    requires n <= |es|
  {
    exists i :: 0 <= i < n && es[i].Entry? && es[i].kind in {Uninspectable, ForeignOwned} && r == p + [es[i].name]
  }

  lemma {:induction false} RefusedMeaning(p: Path, es: seq<Entry>, n: nat, r: Path)
    requires n <= |es|
    ensures r in RefusedEntries(p, es, n) <==> RefusedEntry(p, es, n, r)
    decreases n
  {
    if n > 0 {
      RefusedMeaning(p, es, n - 1, r);
    }
  }

  /** It is the directory, or a readable entry of it that could not be inspected or is somebody else's. */
  predicate NotedHere(o: Scope, p: Path, d: Dir, r: Path) {
    || (r == p && NotesItself(o, p, d))
    || (Enumerated(o, p, d) && RefusedEntry(p, d.listing.entries, Readable(d.listing.entries), r))
  }

  lemma EntriesNoted(o: Scope, p: Path, d: Dir, r: Path)
    requires d.listing.Listed?
    ensures var es := d.listing.entries;
            r in VisitEntries(o, p, d).regions <==>
              || RefusedEntry(p, es, Readable(es), r)
              || (r == p && (Readable(es) < |es|
                             || (d.loose.incomplete && o.checkpoints && |LooseFiles(o, p, es, Readable(es))| >= 2)))
  {
    RefusedMeaning(p, d.listing.entries, Readable(d.listing.entries), r);
  }

  lemma PlainNoted(o: Scope, item: Item, r: Path)
    requires Admitted(o, item.path, item.dir) && !item.dir.verdict.TruncatedClass? && !item.dir.verdict.Checkpoint?
    requires !item.dir.verdict.Artifact?
    ensures r in VisitDir(o, item).regions <==> NotedHere(o, item.path, item.dir, r)
  {
    ClaimedMeaning(o, item.path, item.dir);
    PlainVisit(o, item);
    if Plain(o, item.path, item.dir) && item.dir.listing.Listed? {
      EntriesNoted(o, item.path, item.dir, r);
    }
  }

  /** The regions of a directory without a claim: itself where its class is incomplete, and what looking into it adds. */
  lemma PlainVisit(o: Scope, item: Item)
    requires Admitted(o, item.path, item.dir) && !item.dir.verdict.TruncatedClass? && !item.dir.verdict.Checkpoint?
    requires !item.dir.verdict.Artifact?
    ensures var p, d := item.path, item.dir;
            VisitDir(o, item).regions ==
              (if d.verdict.IncompleteClass? then [p] else [])
              + if !Plain(o, p, d) then [] else if d.listing.Unreadable? then [p] else VisitEntries(o, p, d).regions
  {
    ClaimedMeaning(o, item.path, item.dir);
  }

  lemma ClaimNoted(o: Scope, item: Item, r: Path)
    requires Admitted(o, item.path, item.dir) && (item.dir.verdict.Checkpoint? || item.dir.verdict.Artifact?)
    requires !Stops(o, item.path, item.dir)
    ensures r in VisitDir(o, item).regions <==> NotedHere(o, item.path, item.dir, r)
  {
    ClaimedMeaning(o, item.path, item.dir);
    if item.dir.listing.Listed? {
      EntriesNoted(o, item.path, item.dir, r);
    }
  }

  lemma RegionsHere(o: Scope, item: Item, r: Path)
    requires !Stops(o, item.path, item.dir)
    ensures r in VisitDir(o, item).regions <==> NotedHere(o, item.path, item.dir, r)
  {
    ClaimedMeaning(o, item.path, item.dir);
    if Admitted(o, item.path, item.dir) {
      if item.dir.verdict.Checkpoint? || item.dir.verdict.Artifact? {
        ClaimNoted(o, item, r);
      } else {
        PlainNoted(o, item, r);
      }
    }
  }

  /** The region belongs to a directory reached from the item. */
  ghost predicate Notes(o: Scope, item: Item, r: Path) {
    exists q :: DirAt(o, item.path, item.dir, q).Some?
                && NotedHere(o, item.path + q, DirAt(o, item.path, item.dir, q).value, r)
  }

  lemma ChildNotes(o: Scope, item: Item, r: Path, child: Item)
    requires WellFormed(item.dir) && Enumerated(o, item.path, item.dir) && Notes(o, child, r)
    requires child in Children(item.path, item.dir.listing.entries, Readable(item.dir.listing.entries))
    ensures Notes(o, item, r)
  {
    var q, d := NotedAt(o, child, r);
    var name := ChildName(o, item, child, q);
    NotesThere(o, item, [name] + q, d, r);
  }

  lemma NotedAt(o: Scope, item: Item, r: Path) returns (q: Path, d: Dir)
    requires Notes(o, item, r)
    ensures DirAt(o, item.path, item.dir, q) == Some(d) && NotedHere(o, item.path + q, d, r)
  {
    q :| DirAt(o, item.path, item.dir, q).Some?
         && NotedHere(o, item.path + q, DirAt(o, item.path, item.dir, q).value, r);
    d := DirAt(o, item.path, item.dir, q).value;
  }

  lemma NotesThere(o: Scope, item: Item, q: Path, d: Dir, r: Path)
    requires DirAt(o, item.path, item.dir, q) == Some(d) && NotedHere(o, item.path + q, d, r)
    ensures Notes(o, item, r)
  {
  }

  lemma NotesBelow(o: Scope, item: Item, r: Path) returns (child: Item)
    requires WellFormed(item.dir) && Notes(o, item, r) && !NotedHere(o, item.path, item.dir, r)
    ensures Enumerated(o, item.path, item.dir)
    ensures child in Children(item.path, item.dir.listing.entries, Readable(item.dir.listing.entries))
    ensures Notes(o, child, r)
  {
    var p, d := item.path, item.dir;
    var q :| DirAt(o, p, d, q).Some? && NotedHere(o, p + q, DirAt(o, p, d, q).value, r);
    assert p + [] == p;
    var es := d.listing.entries;
    var found := FindChild(es, Readable(es), q[0]);
    child := Item(p + [q[0]], found.value);
    FindMeaning(es, Readable(es), q[0], found.value);
    ChildMeaning(p, es, Readable(es), q[0], found.value);
    assert child.path + q[1..] == p + q;
  }

  lemma StepNotes(o: Scope, item: Item, r: Path)
    requires WellFormed(item.dir) && !Stops(o, item.path, item.dir)
    ensures Notes(o, item, r) <==>
              || r in VisitDir(o, item).regions
              || exists k :: 0 <= k < |VisitDir(o, item).children| && Notes(o, VisitDir(o, item).children[k], r)
  {
    var v := VisitDir(o, item);
    VisitChildren(o, item);
    RegionsHere(o, item, r);
    if NotedHere(o, item.path, item.dir, r) {
      assert DirAt(o, item.path, item.dir, []) == Some(item.dir) && item.path + [] == item.path;
    } else if Notes(o, item, r) {
      var child := NotesBelow(o, item, r);
      var k :| 0 <= k < |v.children| && v.children[k] == child;
      assert Notes(o, v.children[k], r);
    }
    forall k | 0 <= k < |v.children| && Notes(o, v.children[k], r)
      ensures Notes(o, item, r)
    {
      ChildNotes(o, item, r, v.children[k]);
    }
  }

  ghost predicate StackNotes(o: Scope, stack: seq<Item>, r: Path) {
    exists i :: 0 <= i < |stack| && Notes(o, stack[i], r)
  }

  lemma StackNotesAppend(o: Scope, a: seq<Item>, b: seq<Item>, r: Path)
    ensures StackNotes(o, a + b, r) <==> StackNotes(o, a, r) || StackNotes(o, b, r)
  {
    if StackNotes(o, a, r) {
      var i :| 0 <= i < |a| && Notes(o, a[i], r);
      assert (a + b)[i] == a[i];
    }
    if StackNotes(o, b, r) {
      var i :| 0 <= i < |b| && Notes(o, b[i], r);
      assert (a + b)[|a| + i] == b[i];
    }
  }

  lemma StackStepNotes(o: Scope, rest: seq<Item>, top: Item, r: Path)
    requires WellFormed(top.dir) && !Stops(o, top.path, top.dir)
    ensures StackNotes(o, rest + [top], r) <==>
              r in VisitDir(o, top).regions || StackNotes(o, rest + VisitDir(o, top).children, r)
  {
    StackNotesAppend(o, rest, [top], r);
    StackNotesAppend(o, rest, VisitDir(o, top).children, r);
    StepNotes(o, top, r);
    assert StackNotes(o, [top], r) <==> Notes(o, top, r) by { assert [top][0] == top; }
  }

  lemma {:induction false} RegionsNoted(o: Scope, stack: seq<Item>, r: Path)
    requires Calm(o, stack)
    ensures r in Regions(o, stack) <==> StackNotes(o, stack, r)
    decreases StackWeight(stack)
  {
    if stack != [] {
      var rest, top := stack[..|stack| - 1], stack[|stack| - 1];
      SplitLast(stack);
      var v := VisitDir(o, top);
      CalmNext(o, rest, top);
      VisitShrinks(o, top);
      StackWeightAppend(rest, v.children);
      RegionsNoted(o, rest + v.children, r);
      RegionsUnfold(o, [], rest, top);
      StackStepNotes(o, rest, top, r);
      assert [] + Regions(o, stack) == Regions(o, stack) && [] + v.regions == v.regions;
    }
  }

  /** Without an early stop, the reported regions are exactly those of the directories reached. */
  lemma NotesExactly(o: Scope, root: Dir, r: Path)
    requires WellFormed(root) && Undisturbed(o, Item(o.root, root))
    ensures r in Regions(o, [Item(o.root, root)]) <==>
              exists q :: DirAt(o, o.root, root, q).Some? && NotedHere(o, o.root + q, DirAt(o, o.root, root, q).value, r)
  {
    var item := Item(o.root, root);
    RegionsNoted(o, [item], r);
    assert StackNotes(o, [item], r) <==> Notes(o, item, r) by { assert [item][0] == item; }
  }
}
