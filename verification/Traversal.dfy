/**
 Project discovery: a stack-driven walk that claims whole directories without descending
 into them, counts loose checkpoint files, and must never attribute a file twice.
 */
module ProjectDiscovery {
  import opened Wrappers

  type Path = seq<string>

  datatype Scope = Scope(root: Path, claimedRoots: seq<Path>, dependencies: seq<Path>, artifacts: bool, checkpoints: bool)

  datatype Class = Unclassified | Checkpoint | Artifact | IncompleteClass | TruncatedClass(incomplete: bool)

  /** What measuring a claimed directory reports. */
  datatype Measurement = Measurement(found: bool, protectedBoundaries: bool, truncated: bool, incomplete: bool)

  /** What measuring a directory's loose checkpoint files reports; all of them may have vanished. */
  datatype LooseMeasurement = LooseMeasurement(found: bool, truncated: bool, incomplete: bool)

  datatype Validation = Valid | Cut | Failed

  /** The facts the file system returns about one directory. */
  datatype Dir = Dir(
    protected: bool, owned: bool, verdict: Class, dot: bool,
    measurement: Measurement, validation: Validation, loose: LooseMeasurement, listing: Listing)

  datatype Listing = Unreadable | Listed(entries: seq<Entry>)

  datatype Entry = Broken | Entry(name: string, kind: Kind)

  datatype Kind = Uninspectable | ForeignOwned | Subdirectory(dir: Dir) | RegularFile(checkpoint: bool) | OtherFile

  datatype Item = Item(path: Path, dir: Dir)

  /** A claimed directory with everything below it, or the loose checkpoint files of one directory. */
  datatype Candidate = Whole(dir: Path) | Loose(home: Path, files: seq<Path>) {
    predicate Counts(file: Path) {
      match this
      case Whole(d) => d <= file
      case Loose(_, files) => file in files
    }
  }

  const MIN_LOOSE_CHECKPOINT_FILES: nat := 2

  predicate IsClaimed(o: Scope, path: Path) {
    exists i :: 0 <= i < |o.claimedRoots| && o.claimedRoots[i] <= path
  }

  predicate ContainsClaimed(o: Scope, path: Path) {
    || (exists i :: 0 <= i < |o.claimedRoots| && o.claimedRoots[i] != path && path <= o.claimedRoots[i])
    || (exists i :: 0 <= i < |o.dependencies| && path <= o.dependencies[i])
  }

  predicate Selected(o: Scope, verdict: Class) {
    if verdict.Checkpoint? then o.checkpoints else o.artifacts
  }

  // ----- what one directory contributes -----------------------------------------------------------

  /** Entries are read up to the first that fails. */
  function Readable(es: seq<Entry>): (n: nat)
    ensures n <= |es|
  {
    if es == [] || es[0].Broken? then 0 else 1 + Readable(es[1..])
  }

  /** The subdirectory an entry is, if it is one. */
  function EntryChild(p: Path, e: Entry): seq<Item> {
    if e.Entry? && e.kind.Subdirectory? then [Item(p + [e.name], e.kind.dir)] else []
  }

  /** The subdirectories among the first `n` entries, in order. */
  function Children(p: Path, es: seq<Entry>, n: nat): seq<Item>
    requires n <= |es|
  {
    if n == 0 then [] else Children(p, es, n - 1) + EntryChild(p, es[n - 1])
  }

  /** The checkpoint files among the first `n` entries. */
  function LooseFiles(o: Scope, p: Path, es: seq<Entry>, n: nat): seq<Path>
    requires n <= |es|
  {
    if n == 0 then []
    else
      LooseFiles(o, p, es, n - 1)
      + if o.checkpoints && es[n - 1].Entry? && es[n - 1].kind.RegularFile? && es[n - 1].kind.checkpoint
        then [p + [es[n - 1].name]] else []
  }

  /** Enough loose checkpoints were read to be measured together. */
  predicate Aggregates(o: Scope, p: Path, es: seq<Entry>) {
    o.checkpoints && |LooseFiles(o, p, es, Readable(es))| >= MIN_LOOSE_CHECKPOINT_FILES
  }

  /** The entries among the first `n` that could not be inspected or belong to somebody else. */
  function RefusedEntries(p: Path, es: seq<Entry>, n: nat): seq<Path>
    requires n <= |es|
  {
    if n == 0 then []
    else
      RefusedEntries(p, es, n - 1)
      + if es[n - 1].Entry? && (es[n - 1].kind.Uninspectable? || es[n - 1].kind.ForeignOwned?)
        then [p + [es[n - 1].name]] else []
  }

  /** Regions an enumeration could not see: refused entries, and the directory if reading broke off. */
  function EntryRegions(p: Path, es: seq<Entry>): seq<Path> {
    RefusedEntries(p, es, Readable(es)) + if Readable(es) < |es| then [p] else []
  }

  /** The effect of visiting one directory, with all the time in the world. */
  datatype Visit = Visit(candidates: seq<Candidate>, children: seq<Item>, regions: seq<Path>, truncated: bool) {
    /** The same visit, which also found this region incomplete. */
    function Noting(regions': seq<Path>): Visit {
      this.(regions := regions' + regions)
    }
  }

  const NOTHING := Visit([], [], [], false)

  /** The loose checkpoints of a directory, measured together. */
  function VisitLoose(o: Scope, p: Path, es: seq<Entry>, loose: LooseMeasurement): Visit {
    if !Aggregates(o, p, es) then NOTHING
    else
      Visit(if loose.found then [Loose(p, LooseFiles(o, p, es, Readable(es)))] else [], [],
            if loose.incomplete then [p] else [], loose.truncated)
  }

  function VisitEntries(o: Scope, p: Path, d: Dir): Visit {
    if d.listing.Unreadable? then NOTHING.Noting([p])
    else
      var es := d.listing.entries;
      VisitLoose(o, p, es, d.loose).(children := Children(p, es, Readable(es))).Noting(EntryRegions(p, es))
  }

  /** A measured claim: emitted, or discarded with its incompleteness kept. */
  function VisitMeasured(o: Scope, item: Item): Visit {
    var d := item.dir;
    var whole := if d.measurement.found then [Whole(item.path)] else [];
    if d.measurement.truncated then Visit(whole, [], [], true)
    else if d.measurement.found && d.measurement.protectedBoundaries then VisitEntries(o, item.path, d)
    else Visit(whole, [], if d.validation.Failed? then [item.path] else [], d.validation.Cut?)
  }

  function VisitClaimed(o: Scope, item: Item): Visit {
    var d := item.dir;
    if !Selected(o, d.verdict) || ContainsClaimed(o, item.path) then NOTHING
    else if d.listing.Unreadable? then NOTHING.Noting([item.path])
    else VisitMeasured(o, item).Noting(if d.measurement.incomplete then [item.path] else [])
  }

  function VisitPlain(o: Scope, item: Item): Visit {
    if item.path != o.root && item.dir.dot then NOTHING else VisitEntries(o, item.path, item.dir)
  }

  function VisitDir(o: Scope, item: Item): Visit {
    var d := item.dir;
    if d.protected then NOTHING
    else if !d.owned then NOTHING.Noting([item.path])
    else if IsClaimed(o, item.path) then NOTHING
    else
      match d.verdict
      case TruncatedClass(incomplete) => Visit([], [], if incomplete then [item.path] else [], true)
      case Checkpoint => VisitClaimed(o, item)
      case Artifact => VisitClaimed(o, item)
      case IncompleteClass => VisitPlain(o, item).Noting([item.path])
      case Unclassified => VisitPlain(o, item)
  }

  // ----- the whole walk ----------------------------------------------------------------------------

  function Weight(dir: Dir): nat
    decreases dir
  {
    1 + if dir.listing.Listed? then EntriesWeight(dir.listing.entries, |dir.listing.entries|) else 0
  }

  function EntriesWeight(es: seq<Entry>, n: nat): nat
    requires n <= |es|
    decreases es, n
  {
    if n == 0 then 0 else EntriesWeight(es, n - 1) + EntryWeight(es[n - 1])
  }

  function EntryWeight(e: Entry): nat
    decreases e
  {
    if e.Entry? && e.kind.Subdirectory? then Weight(e.kind.dir) else 0
  }

  function StackWeight(stack: seq<Item>): nat {
    if stack == [] then 0 else StackWeight(stack[..|stack| - 1]) + Weight(stack[|stack| - 1].dir)
  }

  lemma {:induction false} StackWeightAppend(a: seq<Item>, b: seq<Item>)
    ensures StackWeight(a + b) == StackWeight(a) + StackWeight(b)
    decreases |b|
  {
    if b == [] {
      assert a + b == a;
    } else {
      assert (a + b)[..|a + b| - 1] == a + b[..|b| - 1];
      StackWeightAppend(a, b[..|b| - 1]);
    }
  }

  lemma OneWeight(item: Item)
    ensures StackWeight([item]) == Weight(item.dir)
  {
    assert [item][..0] == [];
    assert StackWeight([]) == 0;
  }

  lemma EntryChildWeight(p: Path, e: Entry)
    ensures StackWeight(EntryChild(p, e)) == EntryWeight(e)
  {
    if e.Entry? && e.kind.Subdirectory? {
      OneWeight(Item(p + [e.name], e.kind.dir));
    }
  }

  lemma ChildrenWeight(p: Path, es: seq<Entry>, n: nat)
    requires n <= |es|
    ensures StackWeight(Children(p, es, n)) == EntriesWeight(es, n)
  {
    for i := 0 to n
      invariant StackWeight(Children(p, es, i)) == EntriesWeight(es, i)
    {
      EntryChildWeight(p, es[i]);
      StackWeightAppend(Children(p, es, i), EntryChild(p, es[i]));
    }
  }

  lemma {:induction false} EntriesWeightGrows(es: seq<Entry>, n: nat, m: nat)
    requires n <= m <= |es|
    ensures EntriesWeight(es, n) <= EntriesWeight(es, m)
    decreases m
  {
    if n < m {
      EntriesWeightGrows(es, n, m - 1);
    }
  }

  /** Whatever a directory pushes weighs less than the directory. */
  lemma VisitShrinks(o: Scope, item: Item)
    ensures StackWeight(VisitDir(o, item).children) < Weight(item.dir)
  {
    if item.dir.listing.Listed? {
      var es := item.dir.listing.entries;
      ChildrenWeight(item.path, es, Readable(es));
      EntriesWeightGrows(es, Readable(es), |es|);
    }
  }

  function Walk(o: Scope, stack: seq<Item>): seq<Candidate>
    decreases StackWeight(stack)
  {
    if stack == [] then []
    else
      var rest, top := stack[..|stack| - 1], stack[|stack| - 1];
      var v := VisitDir(o, top);
      VisitShrinks(o, top);
      StackWeightAppend(rest, v.children);
      if v.truncated then v.candidates else v.candidates + Walk(o, rest + v.children)
  }

  /** The incomplete regions the walk reports. */
  function Regions(o: Scope, stack: seq<Item>): seq<Path>
    decreases StackWeight(stack)
  {
    if stack == [] then []
    else
      var rest, top := stack[..|stack| - 1], stack[|stack| - 1];
      var v := VisitDir(o, top);
      VisitShrinks(o, top);
      StackWeightAppend(rest, v.children);
      if v.truncated then v.regions else v.regions + Regions(o, rest + v.children)
  }

  // ----- unique attribution ------------------------------------------------------------------------

  predicate Nested(a: Path, b: Path) {
    a <= b || b <= a
  }

  /** Sibling names differ, as they do in any directory. */
  predicate DistinctNames(es: seq<Entry>) {
    forall i, j :: 0 <= i < j < |es| && es[i].Entry? && es[j].Entry? ==> es[i].name != es[j].name
  }

  predicate WellFormed(dir: Dir)
    decreases dir
  {
    dir.listing.Listed? ==>
      DistinctNames(dir.listing.entries)
      && forall i :: 0 <= i < |dir.listing.entries| ==> WellFormedEntry(dir.listing.entries[i])
  }

  predicate WellFormedEntry(e: Entry)
    decreases e
  {
    e.Entry? && e.kind.Subdirectory? ==> WellFormed(e.kind.dir)
  }

  /** No two of these directories contain one another. */
  predicate Apart(stack: seq<Item>) {
    forall i, j :: 0 <= i < j < |stack| ==> !Nested(stack[i].path, stack[j].path)
  }

  /** Nothing this candidate counts lies in that directory. */
  predicate Outside(c: Candidate, p: Path) {
    match c
    case Whole(d) => !Nested(d, p)
    case Loose(_, files) => forall i :: 0 <= i < |files| ==> !(p <= files[i])
  }

  predicate AllOutside(cs: seq<Candidate>, stack: seq<Item>) {
    forall i, j :: 0 <= i < |cs| && 0 <= j < |stack| ==> Outside(cs[i], stack[j].path)
  }

  /** No path is counted by two candidates. */
  ghost predicate Unique(cs: seq<Candidate>) {
    forall i, j, f :: 0 <= i < j < |cs| && cs[i].Counts(f) ==> !cs[j].Counts(f)
  }

  predicate ClaimsApart(cs: seq<Candidate>) {
    forall i, j :: 0 <= i < j < |cs| && cs[i].Whole? && cs[j].Whole? ==> !Nested(cs[i].dir, cs[j].dir)
  }

  /** The claim neither contains nor lies in an adapter's root, and contains no dependency's. */
  predicate OffAdapters(o: Scope, c: Candidate) {
    c.Whole? ==>
      && (forall i :: 0 <= i < |o.claimedRoots| ==> !Nested(o.claimedRoots[i], c.dir))
      && (forall i :: 0 <= i < |o.dependencies| ==> !(c.dir <= o.dependencies[i]))
  }

  ghost predicate Attributed(o: Scope, cs: seq<Candidate>) {
    Unique(cs) && ClaimsApart(cs) && forall i :: 0 <= i < |cs| ==> OffAdapters(o, cs[i])
  }

  /** Everything counted lies in the directory, and nothing pushed is counted. */
  predicate Inside(c: Candidate, p: Path) {
    match c
    case Whole(d) => d == p
    case Loose(_, files) => forall i :: 0 <= i < |files| ==> p <= files[i] && |files[i]| == |p| + 1
  }

  lemma {:induction false} ChildrenBelow(p: Path, es: seq<Entry>, n: nat)
    requires n <= |es|
    ensures forall c :: c in Children(p, es, n) ==>
              exists i :: 0 <= i < n && es[i].Entry? && es[i].kind.Subdirectory?
                          && c == Item(p + [es[i].name], es[i].kind.dir)
    decreases n
  {
    if n > 0 {
      ChildrenBelow(p, es, n - 1);
    }
  }

  lemma {:induction false} FilesBelow(o: Scope, p: Path, es: seq<Entry>, n: nat)
    requires n <= |es|
    ensures forall f :: f in LooseFiles(o, p, es, n) ==>
              exists i :: 0 <= i < n && es[i].Entry? && es[i].kind.RegularFile? && f == p + [es[i].name]
    decreases n
  {
    if n > 0 {
      FilesBelow(o, p, es, n - 1);
    }
  }

  lemma SiblingsApart(p: Path, a: string, b: string)
    requires a != b
    ensures !Nested(p + [a], p + [b])
  {
    assert (p + [a])[|p|] == a && (p + [b])[|p|] == b;
  }

  lemma {:induction false} ChildrenApart(p: Path, es: seq<Entry>, n: nat)
    requires n <= |es| && DistinctNames(es)
    ensures Apart(Children(p, es, n))
    decreases n
  {
    if n > 0 {
      ChildrenApart(p, es, n - 1);
      ChildrenBelow(p, es, n - 1);
      var before := Children(p, es, n - 1);
      if es[n - 1].Entry? && es[n - 1].kind.Subdirectory? {
        forall i | 0 <= i < |before|
          ensures !Nested(before[i].path, p + [es[n - 1].name])
        {
          assert before[i] in before;
          var k :| 0 <= k < n - 1 && es[k].Entry? && es[k].kind.Subdirectory?
                   && before[i] == Item(p + [es[k].name], es[k].kind.dir);
          SiblingsApart(p, es[k].name, es[n - 1].name);
        }
      }
    }
  }

  /** A visit's own candidate and its children, and how they sit in the directory. */
  predicate Tidy(o: Scope, p: Path, v: Visit) {
    && |v.candidates| <= 1
    && (forall i :: 0 <= i < |v.candidates| ==> Inside(v.candidates[i], p) && OffAdapters(o, v.candidates[i]))
    && (forall i :: 0 <= i < |v.children| ==>
          p <= v.children[i].path && |v.children[i].path| == |p| + 1 && WellFormed(v.children[i].dir))
    && Apart(v.children)
    && (!v.truncated ==> AllOutside(v.candidates, v.children))
  }

  lemma EntriesTidy(o: Scope, p: Path, dir: Dir)
    requires WellFormed(dir)
    ensures Tidy(o, p, VisitEntries(o, p, dir))
  {
    if dir.listing.Listed? {
      var es := dir.listing.entries;
      var n := Readable(es);
      var children, files := Children(p, es, n), LooseFiles(o, p, es, n);
      ChildrenBelow(p, es, n);
      FilesBelow(o, p, es, n);
      ChildrenApart(p, es, n);
      forall i | 0 <= i < |files|
        ensures p <= files[i] && |files[i]| == |p| + 1
      {
        assert files[i] in files;
      }
      forall j | 0 <= j < |children|
        ensures p <= children[j].path && |children[j].path| == |p| + 1 && WellFormed(children[j].dir)
      {
        assert children[j] in children;
        var k :| 0 <= k < n && es[k].Entry? && es[k].kind.Subdirectory?
                 && children[j] == Item(p + [es[k].name], es[k].kind.dir);
        assert WellFormedEntry(es[k]);
      }
      var v := VisitEntries(o, p, dir);
      forall i, j | 0 <= i < |v.candidates| && 0 <= j < |v.children|
        ensures Outside(v.candidates[i], v.children[j].path)
      {
        FilesOutside(o, p, es, n, children[j]);
      }
    }
  }

  /** A file and a subdirectory of one directory have different names. */
  lemma FilesOutside(o: Scope, p: Path, es: seq<Entry>, n: nat, child: Item)
    requires n <= |es| && DistinctNames(es) && child in Children(p, es, n)
    ensures Outside(Loose(p, LooseFiles(o, p, es, n)), child.path)
  {
    var files := LooseFiles(o, p, es, n);
    ChildrenBelow(p, es, n);
    FilesBelow(o, p, es, n);
    var b :| 0 <= b < n && es[b].Entry? && es[b].kind.Subdirectory? && child == Item(p + [es[b].name], es[b].kind.dir);
    forall i | 0 <= i < |files|
      ensures !(child.path <= files[i])
    {
      assert files[i] in files;
      var a :| 0 <= a < n && es[a].Entry? && es[a].kind.RegularFile? && files[i] == p + [es[a].name];
      SiblingsApart(p, es[b].name, es[a].name);
    }
  }

  lemma NotingTidy(o: Scope, p: Path, v: Visit, regions: seq<Path>)
    requires Tidy(o, p, v)
    ensures Tidy(o, p, v.Noting(regions))
  {
  }

  lemma NothingTidy(o: Scope, p: Path)
    ensures Tidy(o, p, NOTHING)
  {
  }

  /** A whole claim is off the adapters because neither test found one. */
  lemma MeasuredTidy(o: Scope, item: Item)
    requires WellFormed(item.dir) && !IsClaimed(o, item.path) && !ContainsClaimed(o, item.path)
    ensures Tidy(o, item.path, VisitMeasured(o, item))
  {
    EntriesTidy(o, item.path, item.dir);
    assert OffAdapters(o, Whole(item.path));
  }

  lemma ClaimedTidy(o: Scope, item: Item)
    requires WellFormed(item.dir) && !IsClaimed(o, item.path)
    ensures Tidy(o, item.path, VisitClaimed(o, item))
  {
    NothingTidy(o, item.path);
    if !ContainsClaimed(o, item.path) {
      MeasuredTidy(o, item);
      NotingTidy(o, item.path, VisitMeasured(o, item), if item.dir.measurement.incomplete then [item.path] else []);
      NotingTidy(o, item.path, NOTHING, [item.path]);
    }
  }

  lemma PlainTidy(o: Scope, item: Item)
    requires WellFormed(item.dir)
    ensures Tidy(o, item.path, VisitPlain(o, item))
  {
    NothingTidy(o, item.path);
    EntriesTidy(o, item.path, item.dir);
  }

  lemma VisitTidy(o: Scope, item: Item)
    requires WellFormed(item.dir)
    ensures Tidy(o, item.path, VisitDir(o, item))
  {
    NothingTidy(o, item.path);
    NotingTidy(o, item.path, NOTHING, [item.path]);
    PlainTidy(o, item);
    NotingTidy(o, item.path, VisitPlain(o, item), [item.path]);
    if !IsClaimed(o, item.path) {
      ClaimedTidy(o, item);
    }
  }

  // ----- the walk keeps it -----------------------------------------------------------------------

  lemma CommonPath(a: Path, b: Path, f: Path)
    requires a <= f && b <= f
    ensures Nested(a, b)
  {
    if |a| <= |b| {
      assert a == f[..|a|] == b[..|a|];
    } else {
      assert b == f[..|b|] == a[..|b|];
    }
  }

  /** What is apart from a directory is apart from everything below it. */
  lemma ApartBelow(r: Path, p: Path, q: Path)
    requires !Nested(r, p) && p <= q
    ensures !Nested(r, q)
  {
    if r <= q {
      CommonPath(r, p, q);
    }
  }

  lemma PrefixTransitive(p: Path, q: Path, f: Path)
    requires p <= q
    ensures q <= f ==> p <= f
  {
  }

  lemma OutsideBelow(c: Candidate, p: Path, q: Path)
    requires Outside(c, p) && p <= q
    ensures Outside(c, q)
  {
    match c
    case Whole(d) => ApartBelow(d, p, q);
    case Loose(_, files) =>
      forall i | 0 <= i < |files|
        ensures !(q <= files[i])
      {
        PrefixTransitive(p, q, files[i]);
      }
  }

  lemma InsideOutside(c: Candidate, p: Path, r: Path)
    requires Inside(c, p) && !Nested(p, r)
    ensures Outside(c, r)
  {
    if c.Loose? {
      forall i | 0 <= i < |c.files|
        ensures !(r <= c.files[i])
      {
        ApartBelow(r, p, c.files[i]);
      }
    }
  }

  /** A candidate outside a directory shares no file with one inside it. */
  lemma DisjointCounts(e: Candidate, c: Candidate, p: Path, f: Path)
    requires Outside(e, p) && Inside(c, p) && e.Counts(f)
    ensures !c.Counts(f)
  {
    if c.Counts(f) {
      assert p <= f;
      if e.Whole? {
        CommonPath(e.dir, p, f);
      }
    }
  }

  predicate AllWellFormed(stack: seq<Item>) {
    forall i :: 0 <= i < |stack| ==> WellFormed(stack[i].dir)
  }

  ghost predicate WalkInv(o: Scope, emitted: seq<Candidate>, stack: seq<Item>) {
    Attributed(o, emitted) && Apart(stack) && AllOutside(emitted, stack) && AllWellFormed(stack)
  }

  lemma EmitKeeps(o: Scope, emitted: seq<Candidate>, p: Path, v: Visit)
    requires Attributed(o, emitted) && Tidy(o, p, v)
    requires forall i :: 0 <= i < |emitted| ==> Outside(emitted[i], p)
    ensures Attributed(o, emitted + v.candidates)
  {
    var cs := emitted + v.candidates;
    if v.candidates != [] {
      var c := v.candidates[0];
      forall i, f | 0 <= i < |emitted| && emitted[i].Counts(f)
        ensures !c.Counts(f)
      {
        DisjointCounts(emitted[i], c, p, f);
      }
      assert forall i :: |emitted| <= i < |cs| ==> cs[i] == c;
    } else {
      assert cs == emitted;
    }
  }

  lemma StackKeeps(o: Scope, rest: seq<Item>, top: Item, v: Visit)
    requires Apart(rest + [top]) && Tidy(o, top.path, v)
    ensures Apart(rest + v.children)
  {
    var stack := rest + v.children;
    forall i, j | 0 <= i < j < |stack|
      ensures !Nested(stack[i].path, stack[j].path)
    {
      if i < |rest| {
        assert (rest + [top])[i] == rest[i] && (rest + [top])[|rest|] == top;
        if j < |rest| {
          assert (rest + [top])[j] == rest[j];
        } else {
          ApartBelow(rest[i].path, top.path, stack[j].path);
        }
      }
    }
  }

  lemma OutsideKeeps(o: Scope, emitted: seq<Candidate>, rest: seq<Item>, top: Item, v: Visit)
    requires AllOutside(emitted, rest + [top]) && Apart(rest + [top]) && Tidy(o, top.path, v) && !v.truncated
    ensures AllOutside(emitted + v.candidates, rest + v.children)
  {
    var cs, stack := emitted + v.candidates, rest + v.children;
    forall i, j | 0 <= i < |cs| && 0 <= j < |stack|
      ensures Outside(cs[i], stack[j].path)
    {
      assert (rest + [top])[|rest|] == top;
      assert j < |rest| ==> (rest + [top])[j] == rest[j];
      if i < |emitted| {
        assert j < |rest| ==> Outside(emitted[i], (rest + [top])[j].path);
        if j >= |rest| {
          assert Outside(emitted[i], (rest + [top])[|rest|].path);
          OutsideBelow(emitted[i], top.path, stack[j].path);
        }
      } else if j < |rest| {
        assert !Nested((rest + [top])[j].path, top.path);
        InsideOutside(cs[i], top.path, stack[j].path);
      }
    }
  }

  lemma VisitKeeps(o: Scope, emitted: seq<Candidate>, rest: seq<Item>, top: Item)
    requires WalkInv(o, emitted, rest + [top])
    ensures var v := VisitDir(o, top);
            && Attributed(o, emitted + v.candidates)
            && (!v.truncated ==> WalkInv(o, emitted + v.candidates, rest + v.children))
  {
    var stack, v := rest + [top], VisitDir(o, top);
    assert stack[|rest|] == top;
    VisitTidy(o, top);
    forall i | 0 <= i < |emitted|
      ensures Outside(emitted[i], top.path)
    {
      assert Outside(emitted[i], stack[|rest|].path);
    }
    EmitKeeps(o, emitted, top.path, v);
    StackKeeps(o, rest, top, v);
    if !v.truncated {
      OutsideKeeps(o, emitted, rest, top, v);
    }
    assert forall i :: 0 <= i < |rest| ==> stack[i] == rest[i];
  }

  /** The first visit of a walk, and the rest of it. */
  lemma WalkUnfolds(o: Scope, emitted: seq<Candidate>, rest: seq<Item>, top: Item)
    ensures var v := VisitDir(o, top);
            emitted + Walk(o, rest + [top]) ==
              if v.truncated then emitted + v.candidates else emitted + v.candidates + Walk(o, rest + v.children)
  {
    var stack, v := rest + [top], VisitDir(o, top);
    assert stack[..|stack| - 1] == rest;
    if !v.truncated {
      assert Walk(o, stack) == v.candidates + Walk(o, rest + v.children);
    }
  }

  lemma RegionsUnfold(o: Scope, noted: seq<Path>, rest: seq<Item>, top: Item)
    ensures var v := VisitDir(o, top);
            noted + Regions(o, rest + [top]) ==
              if v.truncated then noted + v.regions else noted + v.regions + Regions(o, rest + v.children)
  {
    var stack, v := rest + [top], VisitDir(o, top);
    assert stack[..|stack| - 1] == rest;
    if !v.truncated {
      assert Regions(o, stack) == v.regions + Regions(o, rest + v.children);
    }
  }

  lemma {:induction false} WalkAttributes(o: Scope, emitted: seq<Candidate>, stack: seq<Item>)
    requires WalkInv(o, emitted, stack)
    ensures Attributed(o, emitted + Walk(o, stack))
    decreases StackWeight(stack)
  {
    if stack == [] {
      assert emitted + [] == emitted;
    } else {
      var rest, top := stack[..|stack| - 1], stack[|stack| - 1];
      assert stack == rest + [top];
      var v := VisitDir(o, top);
      VisitKeeps(o, emitted, rest, top);
      WalkUnfolds(o, emitted, rest, top);
      if !v.truncated {
        VisitShrinks(o, top);
        StackWeightAppend(rest, v.children);
        WalkAttributes(o, emitted + v.candidates, rest + v.children);
      }
    }
  }

  /**
   Unique attribution: in one root, whole-directory claims are pairwise apart and overlap no
   adapter's root, and no file is counted by two candidates, whatever the order of entries,
   the discarded claims and the early stops.
   */
  lemma UniqueAttribution(o: Scope, root: Dir)
    requires WellFormed(root)
    ensures Attributed(o, Walk(o, [Item(o.root, root)]))
  {
    WalkAttributes(o, [], [Item(o.root, root)]);
    assert [] + Walk(o, [Item(o.root, root)]) == Walk(o, [Item(o.root, root)]);
  }
}
