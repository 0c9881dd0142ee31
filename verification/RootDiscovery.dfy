/** The traversal itself: an explicit stack, a shared outcome and a deadline polled everywhere. */
module RootTraversal {
  import opened Wrappers
  import opened ProjectDiscovery

  class RootDiscovery {
    const scope: Scope
    /** The number of the first deadline poll that finds the deadline elapsed, if one ever does. */
    const expiry: Option<nat>
    var pending: seq<Item>
    var candidates: seq<Candidate>
    var truncated: bool
    var incomplete: seq<Path>
    var polls: nat

    constructor (s: Scope, root: Dir, deadline: Option<nat>)
      ensures scope == s && expiry == deadline && pending == [Item(s.root, root)]
      ensures candidates == [] && !truncated && incomplete == []
    {
      scope, expiry, pending := s, deadline, [Item(s.root, root)];
      candidates, truncated, incomplete, polls := [], false, [], 0;
    }

    method DeadlineReached() returns (reached: bool)
      modifies this`polls, this`truncated
      ensures reached ==> truncated && expiry.Some?
      ensures !reached ==> truncated == old(truncated)
    {
      reached := expiry.Some? && polls >= expiry.value;
      polls := polls + 1;
      if reached {
        truncated := true;
      }
    }

    /** Everything the visit reports has been reported. */
    twostate predicate Complete(v: Visit)
      reads this
    {
      candidates == old(candidates) + v.candidates && incomplete == old(incomplete) + v.regions
    }

    /**
     The state against the effect `v` of one visit: completed, or cut short with no more
     emitted than `v` says; without a deadline nothing is cut short.
     */
    twostate predicate Follows(v: Visit)
      reads this
    {
      && old(candidates) <= candidates <= old(candidates) + v.candidates
      && old(incomplete) <= incomplete <= old(incomplete) + v.regions
      && (!truncated ==> !v.truncated && Complete(v) && pending == old(pending) + v.children)
      && (expiry.None? ==> truncated == v.truncated && Complete(v))
    }

    method MarkIncomplete(path: Path)
      modifies this`incomplete
      ensures incomplete == old(incomplete) + [path]
    {
      incomplete := incomplete + [path];
    }

    method VisitOne(item: Item)
      requires !truncated
      modifies this
      ensures Follows(VisitDir(scope, item))
    {
      var d := item.dir;
      var late := DeadlineReached();
      if late || d.protected {
        return;
      }
      if !d.owned {
        MarkIncomplete(item.path);
        return;
      }
      if IsClaimed(scope, item.path) {
        return;
      }
      match d.verdict
      case TruncatedClass(isIncomplete) =>
        if isIncomplete {
          MarkIncomplete(item.path);
        }
        truncated := true;
      case Checkpoint => VisitClaim(item);
      case Artifact => VisitClaim(item);
      case IncompleteClass =>
        MarkIncomplete(item.path);
        VisitUnclassified(item);
      case Unclassified => VisitUnclassified(item);
    }

    method VisitUnclassified(item: Item)
      requires !truncated
      modifies this
      ensures Follows(VisitPlain(scope, item))
    {
      if item.path != scope.root && item.dir.dot {
        return;
      }
      var late := DeadlineReached();
      if late {
        return;
      }
      if item.dir.listing.Unreadable? {
        MarkIncomplete(item.path);
        return;
      }
      Enumerate(item.path, item.dir);
    }

    method VisitClaim(item: Item)
      requires !truncated
      modifies this
      ensures Follows(VisitClaimed(scope, item))
    {
      var d := item.dir;
      if !Selected(scope, d.verdict) || ContainsClaimed(scope, item.path) {
        return;
      }
      var late := DeadlineReached();
      if late {
        return;
      }
      if d.listing.Unreadable? {
        MarkIncomplete(item.path);
        return;
      }
      late := DeadlineReached();
      if late {
        return;
      }
      if d.measurement.incomplete {
        MarkIncomplete(item.path);
      }
      VisitClassified(item);
    }

    /** Emit the measured claim, or discard it for protected boundaries and look inside. */
    method VisitClassified(item: Item)
      requires !truncated && item.dir.listing.Listed?
      modifies this
      ensures Follows(VisitMeasured(scope, item))
    {
      var d := item.dir;
      var whole := if d.measurement.found then [Whole(item.path)] else [];
      if d.measurement.truncated {
        candidates, truncated := candidates + whole, true;
        return;
      }
      if d.measurement.found && d.measurement.protectedBoundaries {
        Enumerate(item.path, d);
        return;
      }
      if d.validation.Failed? {
        MarkIncomplete(item.path);
      }
      candidates, truncated := candidates + whole, d.validation.Cut?;
    }

    /** Push directories and aggregate loose checkpoints, unless the deadline comes first. */
    method Enumerate(p: Path, d: Dir)
      requires !truncated && d.listing.Listed?
      modifies this
      ensures Follows(VisitEntries(scope, p, d))
    {
      var es := d.listing.entries;
      var files := ReadAll(p, es);
      if truncated {
        return;
      }
      if Readable(es) < |es| {
        MarkIncomplete(p);
      }
      if scope.checkpoints && |files| >= MIN_LOOSE_CHECKPOINT_FILES {
        MeasureLoose(p, files, d.loose);
      }
    }

    method MeasureLoose(p: Path, files: seq<Path>, loose: LooseMeasurement)
      requires !truncated
      modifies this`candidates, this`incomplete, this`truncated
      ensures candidates == old(candidates) + if loose.found then [Loose(p, files)] else []
      ensures incomplete == old(incomplete) + if loose.incomplete then [p] else []
      ensures truncated == loose.truncated
    {
      if loose.incomplete {
        MarkIncomplete(p);
      }
      if loose.found {
        candidates := candidates + [Loose(p, files)];
      }
      truncated := loose.truncated;
    }

    /** Reads entries in order and stops where reading fails. */
    method ReadAll(p: Path, es: seq<Entry>) returns (files: seq<Path>)
      requires !truncated
      modifies this
      ensures candidates == old(candidates) && (truncated ==> expiry.Some?)
      ensures old(incomplete) <= incomplete <= old(incomplete) + RefusedEntries(p, es, Readable(es))
      ensures !truncated ==>
                && files == LooseFiles(scope, p, es, Readable(es))
                && pending == old(pending) + Children(p, es, Readable(es))
                && incomplete == old(incomplete) + RefusedEntries(p, es, Readable(es))
    {
      files := [];
      ghost var start, noted := pending, incomplete;
      var i := 0;
      while i < |es| && !es[i].Broken?
        invariant 0 <= i <= |es| && i + Readable(es[i..]) == Readable(es)
        invariant !truncated && candidates == old(candidates) && ReadTo(start, noted, p, es, i, files)
      {
        ReadableStep(es, i);
        var late := DeadlineReached();
        if late {
          RefusedGrow(p, es, i, Readable(es));
          return;
        }
        files := ReadNext(start, noted, p, es, i, files);
        i := i + 1;
      }
      ReadableStep(es, i);
      var _ := DeadlineReached();
    }

    /** The first `i` entries have been taken in. */
    ghost predicate ReadTo(start: seq<Item>, noted: seq<Path>, p: Path, es: seq<Entry>, i: nat, files: seq<Path>)
      requires i <= |es|
      reads this
    {
      && pending == start + Children(p, es, i)
      && files == LooseFiles(scope, p, es, i)
      && incomplete == noted + RefusedEntries(p, es, i)
    }

    method ReadNext(ghost start: seq<Item>, ghost noted: seq<Path>, p: Path, es: seq<Entry>, i: nat, files: seq<Path>)
      returns (loose: seq<Path>)
      requires i < |es| && es[i].Entry? && ReadTo(start, noted, p, es, i, files)
      modifies this`pending, this`incomplete
      ensures ReadTo(start, noted, p, es, i + 1, loose)
    {
      loose := VisitEntry(p, es[i], files);
    }

    method VisitEntry(p: Path, e: Entry, files: seq<Path>) returns (loose: seq<Path>)
      requires e.Entry?
      modifies this`pending, this`incomplete
      ensures pending == old(pending) + if e.kind.Subdirectory? then [Item(p + [e.name], e.kind.dir)] else []
      ensures incomplete == old(incomplete) + if e.kind.Uninspectable? || e.kind.ForeignOwned? then [p + [e.name]] else []
      ensures loose == files + if scope.checkpoints && e.kind.RegularFile? && e.kind.checkpoint
                               then [p + [e.name]] else []
    {
      loose := files;
      match e.kind
      case Uninspectable => MarkIncomplete(p + [e.name]);
      case ForeignOwned => MarkIncomplete(p + [e.name]);
      case Subdirectory(dir) => pending := pending + [Item(p + [e.name], dir)];
      case RegularFile(checkpoint) =>
        if scope.checkpoints && checkpoint {
          loose := loose + [p + [e.name]];
        }
      case OtherFile =>
    }

    /** One turn of the loop keeps what was emitted and what is still to come equal to the whole. */
    method VisitTop(ghost all: seq<Candidate>, ghost regions: seq<Path>)
      requires !truncated && pending != [] && candidates + Walk(scope, pending) == all
      requires incomplete + Regions(scope, pending) == regions
      modifies this
      ensures !truncated ==> candidates + Walk(scope, pending) == all && incomplete + Regions(scope, pending) == regions
      ensures !truncated ==> StackWeight(pending) < old(StackWeight(pending))
      ensures candidates <= all && incomplete <= regions
      ensures truncated && expiry.None? ==> candidates == all && incomplete == regions
    {
      var item := pending[|pending| - 1];
      ghost var emitted, noted, rest := candidates, incomplete, pending[..|pending| - 1];
      SplitLast(pending);
      pending := pending[..|pending| - 1];
      VisitOne(item);
      Continues(scope, emitted, rest, item, candidates);
      RegionsContinue(scope, noted, rest, item, incomplete);
    }

    /** Emits a prefix of the whole walk, all of it without a deadline, and never attributes a file twice. */
    method Run(ghost root: Dir)
      requires pending == [Item(scope.root, root)] && candidates == [] && incomplete == [] && !truncated
      requires WellFormed(root)
      modifies this
      ensures candidates <= Walk(scope, [Item(scope.root, root)]) && incomplete <= Regions(scope, [Item(scope.root, root)])
      ensures expiry.None? ==>
                candidates == Walk(scope, [Item(scope.root, root)]) && incomplete == Regions(scope, [Item(scope.root, root)])
      ensures Attributed(scope, candidates)
    {
      ghost var all, regions := Walk(scope, pending), Regions(scope, pending);
      var more := true;
      while more
        invariant candidates <= all && incomplete <= regions
        invariant more ==> !truncated && candidates + Walk(scope, pending) == all
        invariant more ==> incomplete + Regions(scope, pending) == regions
        invariant expiry.None? && !more ==> candidates == all && incomplete == regions
        decreases more, StackWeight(pending)
      {
        var late := DeadlineReached();
        if late || pending == [] {
          more := false;
        } else {
          VisitTop(all, regions);
          more := !truncated;
        }
      }
      UniqueAttribution(scope, root);
      PrefixAttributed(scope, candidates, all);
    }
  }

  /** Emitting all of a visit leaves the rest of the walk; emitting less stays a prefix of it. */
  lemma Continues(o: Scope, emitted: seq<Candidate>, rest: seq<Item>, item: Item, now: seq<Candidate>)
    requires now <= emitted + VisitDir(o, item).candidates
    ensures var v, all := VisitDir(o, item), emitted + Walk(o, rest + [item]);
            && now <= all
            && (v.truncated && now == emitted + v.candidates ==> now == all)
            && (!v.truncated && now == emitted + v.candidates ==> now + Walk(o, rest + v.children) == all)
            && StackWeight(rest + v.children) < StackWeight(rest + [item])
  {
    var v := VisitDir(o, item);
    WalkUnfolds(o, emitted, rest, item);
    VisitShrinks(o, item);
    StackWeightAppend(rest, v.children);
    assert (rest + [item])[..|rest|] == rest;
  }

  lemma RegionsContinue(o: Scope, noted: seq<Path>, rest: seq<Item>, item: Item, now: seq<Path>)
    requires now <= noted + VisitDir(o, item).regions
    ensures var v, all := VisitDir(o, item), noted + Regions(o, rest + [item]);
            && now <= all
            && (v.truncated && now == noted + v.regions ==> now == all)
            && (!v.truncated && now == noted + v.regions ==> now + Regions(o, rest + v.children) == all)
  {
    RegionsUnfold(o, noted, rest, item);
  }

  lemma {:induction false} RefusedGrow(p: Path, es: seq<Entry>, n: nat, m: nat)
    requires n <= m <= |es|
    ensures RefusedEntries(p, es, n) <= RefusedEntries(p, es, m)
    decreases m
  {
    if n < m {
      RefusedGrow(p, es, n, m - 1);
    }
  }

  lemma ReadableStep(es: seq<Entry>, i: nat)
    requires i <= |es|
    ensures i < |es| && !es[i].Broken? ==> Readable(es[i..]) == 1 + Readable(es[i + 1..])
    ensures i == |es| || es[i].Broken? ==> Readable(es[i..]) == 0
  {
    if i < |es| {
      assert es[i..][0] == es[i] && es[i..][1..] == es[i + 1..];
    }
  }

  lemma PrefixAttributed(o: Scope, some: seq<Candidate>, all: seq<Candidate>)
    requires some <= all && Attributed(o, all)
    ensures Attributed(o, some)
  {
    assert forall i :: 0 <= i < |some| ==> some[i] == all[i];
  }
}
