/**
 The recursive fold of a tree, and its conservation by one consumed directory:
 what a scan records, what it defers and what the deadline cut off add up to the
 whole subtree.
 */
module WalkFold {
  import opened Wrappers
  import opened WalkAccounting
  import opened WalkTree

  /** Counters together with the directories they account for. */
  datatype Ledger = Ledger(tally: Tally, visits: multiset<Path>) {
    function Plus(l: Ledger): Ledger {
      Ledger(tally.Plus(l.tally), visits + l.visits)
    }
  }

  const EMPTY := Ledger(ZERO, multiset{})

  lemma Commutes(a: Ledger, b: Ledger)
    ensures a.Plus(b) == b.Plus(a)
  {
    PlusCommutes(a.tally, b.tally);
  }

  lemma Associates(a: Ledger, b: Ledger, c: Ledger)
    ensures a.Plus(b).Plus(c) == a.Plus(b.Plus(c))
  {
    PlusAssociates(a.tally, b.tally, c.tally);
  }

  lemma Neutral(a: Ledger)
    ensures a.Plus(EMPTY) == a && EMPTY.Plus(a) == a
  {
    PlusZero(a.tally);
  }

  /** Exchange the inner two of four summands. */
  lemma Exchange(a: Ledger, b: Ledger, c: Ledger, d: Ledger)
    ensures a.Plus(b).Plus(c.Plus(d)) == a.Plus(c).Plus(b.Plus(d))
  {
    Associates(a, b, c.Plus(d));
    Associates(b, c, d);
    Commutes(b, c);
    Associates(c, b, d);
    Associates(a, c, b.Plus(d));
  }

  lemma SwapLast(a: Ledger, b: Ledger, c: Ledger)
    ensures a.Plus(b).Plus(c) == a.Plus(c).Plus(b)
  {
    Associates(a, b, c);
    Commutes(b, c);
    Associates(a, c, b);
  }

  // ----- the fold ---------------------------------------------------------------------------

  function Note(s: Stats): Ledger {
    Ledger(s.tally, multiset{})
  }

  function Visit(p: Path): Ledger {
    Ledger(ZERO, multiset{p})
  }

  /** The counters of a complete walk of the subtree `dir` at `p`. */
  function FullTally(o: WalkOptions, p: Path, dir: Dir): Tally
    decreases dir
  {
    var entered := OpenStats(Pending(p, dir)).tally;
    if !Scans(Pending(p, dir)) then entered
    else
      match dir.listing
      case Unlistable(reason) => entered.Plus(Counted(READDIR_OP).Merge(SkipStats(p, reason)).tally)
      case Entries(es) => entered.Plus(TallyEntries(o, p, es, |es|))
  }

  /** The directory read and its first `n` entries with everything below them. */
  function TallyEntries(o: WalkOptions, p: Path, es: seq<Entry>, n: nat): Tally
    requires n <= |es|
    decreases es, n
  {
    if n == 0 then READDIR_OP else TallyEntries(o, p, es, n - 1).Plus(TallyEntry(o, p, n - 1, es[n - 1]))
  }

  function TallyEntry(o: WalkOptions, p: Path, index: nat, e: Entry): Tally
    decreases e
  {
    var here := EntryStats(o, p, index, e).tally;
    match EntryChild(o, e)
    case None => here
    case Some(child) => here.Plus(FullTally(o, p + [index], child))
  }

  /** The directories a complete walk of the subtree visits. */
  function FullVisits(o: WalkOptions, p: Path, dir: Dir): multiset<Path>
    decreases dir
  {
    multiset{p} + if Scans(Pending(p, dir)) && dir.listing.Entries?
                  then VisitsEntries(o, p, dir.listing.entries, |dir.listing.entries|) else multiset{}
  }

  function VisitsEntries(o: WalkOptions, p: Path, es: seq<Entry>, n: nat): multiset<Path>
    requires n <= |es|
    decreases es, n
  {
    if n == 0 then multiset{} else VisitsEntries(o, p, es, n - 1) + VisitsEntry(o, p, n - 1, es[n - 1])
  }

  function VisitsEntry(o: WalkOptions, p: Path, index: nat, e: Entry): multiset<Path>
    decreases e
  {
    match EntryChild(o, e)
    case None => multiset{}
    case Some(child) => FullVisits(o, p + [index], child)
  }

  /** Everything a complete walk accounts for in the subtree. */
  function Full(o: WalkOptions, p: Path, dir: Dir): Ledger {
    Ledger(FullTally(o, p, dir), FullVisits(o, p, dir))
  }

  function FullEntries(o: WalkOptions, p: Path, es: seq<Entry>, n: nat): Ledger
    requires n <= |es|
  {
    Ledger(TallyEntries(o, p, es, n), VisitsEntries(o, p, es, n))
  }

  function FullEntry(o: WalkOptions, p: Path, index: nat, e: Entry): Ledger {
    Ledger(TallyEntry(o, p, index, e), VisitsEntry(o, p, index, e))
  }

  /** The entries from `n` on, which a cut scan never reaches. */
  function RestEntries(o: WalkOptions, p: Path, es: seq<Entry>, n: nat): Ledger
    requires n <= |es|
    decreases |es| - n
  {
    if n == |es| then EMPTY else FullEntry(o, p, n, es[n]).Plus(RestEntries(o, p, es, n + 1))
  }

  function ItemFull(o: WalkOptions, item: Pending): Ledger {
    Full(o, item.path, item.dir)
  }

  function ItemsFull(o: WalkOptions, items: seq<Pending>): Ledger {
    if items == [] then EMPTY
    else ItemsFull(o, items[..|items| - 1]).Plus(ItemFull(o, items[|items| - 1]))
  }

  lemma {:induction false} ItemsAppend(o: WalkOptions, a: seq<Pending>, b: seq<Pending>)
    ensures ItemsFull(o, a + b) == ItemsFull(o, a).Plus(ItemsFull(o, b))
    decreases |b|
  {
    if b == [] {
      assert a + b == a;
      Neutral(ItemsFull(o, a));
    } else {
      var init, last := b[..|b| - 1], b[|b| - 1];
      assert (a + b)[..|a + b| - 1] == a + init;
      ItemsAppend(o, a, init);
      Associates(ItemsFull(o, a), ItemsFull(o, init), ItemFull(o, last));
    }
  }

  // ----- conservation by one scan --------------------------------------------------------------

  /** Two scans side by side conserve what each of them does. */
  lemma ConserveBoth(a: Ledger, b: Ledger, c: Ledger, d: Ledger, ac: Ledger, bd: Ledger)
    requires a.Plus(c) == ac && b.Plus(d) == bd
    ensures a.Plus(b).Plus(c.Plus(d)) == ac.Plus(bd)
  {
    Exchange(a, b, c, d);
  }

  lemma NoteMerge(a: Stats, b: Stats)
    ensures Note(a.Merge(b)) == Note(a).Plus(Note(b))
  {
  }

  lemma EntriesConserve(o: WalkOptions, p: Path, es: seq<Entry>, n: nat)
    requires n <= |es|
    ensures EntriesConserved(o, p, es, n)
  {
    EntriesConserveStart(o, p, es);
    for i := 0 to n
      invariant EntriesConserved(o, p, es, i)
    {
      EntriesConserveNext(o, p, es, i);
    }
  }

  /** What the first `n` entries record and defer is everything they hold. */
  predicate EntriesConserved(o: WalkOptions, p: Path, es: seq<Entry>, n: nat)
    requires n <= |es|
  {
    Note(EntriesStats(o, p, es, n)).Plus(ItemsFull(o, EntriesDirs(o, p, es, n))) == FullEntries(o, p, es, n)
  }

  lemma EntriesConserveStart(o: WalkOptions, p: Path, es: seq<Entry>)
    ensures EntriesConserved(o, p, es, 0)
  {
    Neutral(Note(EntriesStats(o, p, es, 0)));
  }

  lemma EntriesConserveNext(o: WalkOptions, p: Path, es: seq<Entry>, n: nat)
    requires n < |es| && EntriesConserved(o, p, es, n)
    ensures EntriesConserved(o, p, es, n + 1)
  {
    var before, dirs := EntriesStats(o, p, es, n), EntriesDirs(o, p, es, n);
    var here, more := EntryStats(o, p, n, es[n]), EntryDirs(o, p, n, es[n]);
    EntryConserves(o, p, n, es[n]);
    ItemsAppend(o, dirs, more);
    NoteMerge(before, here);
    FullEntriesNext(o, p, es, n);
    ConserveBoth(Note(before), Note(here), ItemsFull(o, dirs), ItemsFull(o, more),
                 FullEntries(o, p, es, n), FullEntry(o, p, n, es[n]));
  }

  lemma EntryConserves(o: WalkOptions, p: Path, index: nat, e: Entry)
    ensures Note(EntryStats(o, p, index, e)).Plus(ItemsFull(o, EntryDirs(o, p, index, e))) == FullEntry(o, p, index, e)
  {
    var here := Note(EntryStats(o, p, index, e));
    match EntryChild(o, e)
    case None => Neutral(here);
    case Some(child) =>
      Single(o, Pending(p + [index], child));
  }

  lemma Single(o: WalkOptions, item: Pending)
    ensures ItemsFull(o, [item]) == ItemFull(o, item)
  {
    assert [item][..0] == [];
    Neutral(ItemFull(o, item));
  }

  lemma RestUnfolds(o: WalkOptions, p: Path, es: seq<Entry>, n: nat)
    requires n < |es|
    ensures RestEntries(o, p, es, n) == FullEntry(o, p, n, es[n]).Plus(RestEntries(o, p, es, n + 1))
  {
  }

  lemma FullEntriesNext(o: WalkOptions, p: Path, es: seq<Entry>, n: nat)
    requires n < |es|
    ensures FullEntries(o, p, es, n + 1) == FullEntries(o, p, es, n).Plus(FullEntry(o, p, n, es[n]))
  {
  }

  lemma {:induction false} RestCompletes(o: WalkOptions, p: Path, es: seq<Entry>, n: nat)
    requires n <= |es|
    ensures FullEntries(o, p, es, n).Plus(RestEntries(o, p, es, n)) == FullEntries(o, p, es, |es|)
    decreases |es| - n
  {
    if n == |es| {
      Neutral(FullEntries(o, p, es, n));
    } else {
      var before, entry, rest := FullEntries(o, p, es, n), FullEntry(o, p, n, es[n]), RestEntries(o, p, es, n + 1);
      RestCompletes(o, p, es, n + 1);
      FullEntriesNext(o, p, es, n);
      RestUnfolds(o, p, es, n);
      Associates(before, entry, rest);
    }
  }

  /** The deadline interrupts the scan of this directory. */
  predicate Cut(item: Pending, expiry: Option<nat>) {
    Scans(item)
    && (Expired(expiry, 0) || (item.dir.listing.Entries? && Expired(expiry, |item.dir.listing.entries|)))
  }

  /** A cut scan says so and counts exactly its own directory as unvisited. */
  lemma CutIsMarked(o: WalkOptions, item: Pending, expiry: Option<nat>)
    ensures Consumed(o, item, expiry).stats.truncated == Cut(item, expiry)
    ensures Consumed(o, item, expiry).stats.unvisited == if Cut(item, expiry) then 1 else 0
  {
  }

  lemma ConsumedSampled(o: WalkOptions, item: Pending, expiry: Option<nat>)
    ensures Consumed(o, item, expiry).stats.Sampled()
  {
    if Scans(item) {
      var scan := ScanStats(o, item.path, item.dir.listing, expiry);
      if item.dir.listing.Entries? {
        var es := item.dir.listing.entries;
        EntriesSampled(o, item.path, es, Reached(|es|, expiry));
        MergeKeepsSample(EntriesStats(o, item.path, es, Reached(|es|, expiry)), CUT);
      }
      MergeKeepsSample(OpenStats(item), scan);
    }
  }

  /** What reading and listing the directory would record. */
  function ScanFull(o: WalkOptions, p: Path, listing: Listing): Ledger {
    match listing
    case Unlistable(reason) => Note(Counted(READDIR_OP).Merge(SkipStats(p, reason)))
    case Entries(es) => FullEntries(o, p, es, |es|)
  }

  /** The part of the listing that an interrupted scan leaves out. */
  function ScanCutOff(o: WalkOptions, p: Path, listing: Listing, expiry: Option<nat>): Ledger {
    if Expired(expiry, 0) then ScanFull(o, p, listing)
    else if listing.Entries? then RestEntries(o, p, listing.entries, Reached(|listing.entries|, expiry))
    else EMPTY
  }

  lemma NoteCut(s: Stats)
    ensures Note(s.Merge(CUT)) == Note(s)
  {
    PlusZero(s.tally);
  }

  lemma ScanConserves(o: WalkOptions, p: Path, listing: Listing, expiry: Option<nat>)
    ensures Note(ScanStats(o, p, listing, expiry)).Plus(ItemsFull(o, ScanDirs(o, p, listing, expiry)))
            .Plus(ScanCutOff(o, p, listing, expiry)) == ScanFull(o, p, listing)
  {
    var stats, dirs := ScanStats(o, p, listing, expiry), ScanDirs(o, p, listing, expiry);
    if Expired(expiry, 0) {
      assert Note(CUT) == EMPTY;
      Neutral(EMPTY);
      Neutral(ScanFull(o, p, listing));
    } else if listing.Unlistable? {
      Neutral(Note(stats));
    } else {
      var es := listing.entries;
      var n := Reached(|es|, expiry);
      NoteCut(EntriesStats(o, p, es, n));
      EntriesConserve(o, p, es, n);
      RestCompletes(o, p, es, n);
    }
  }

  /** What the deadline made this item lose, the visit itself included. */
  function CutOff(o: WalkOptions, item: Pending, expiry: Option<nat>): Ledger {
    if Cut(item, expiry) then Visit(item.path).Plus(ScanCutOff(o, item.path, item.dir.listing, expiry)) else EMPTY
  }

  /** A directory is visited when its scan was not cut. */
  function Visited(item: Pending, expiry: Option<nat>): Ledger {
    if Cut(item, expiry) then EMPTY else Visit(item.path)
  }

  /** Visit, record, defer and lose: together they are the whole subtree. */
  lemma ConsumeConserves(o: WalkOptions, item: Pending, expiry: Option<nat>)
    ensures var r := Consumed(o, item, expiry);
            Visited(item, expiry).Plus(Note(r.stats)).Plus(ItemsFull(o, r.dirs)).Plus(CutOff(o, item, expiry))
            == ItemFull(o, item)
  {
    var r := Consumed(o, item, expiry);
    var visit, open := Visit(item.path), Note(OpenStats(item));
    if !Scans(item) {
      assert ItemFull(o, item) == visit.Plus(open);
      Neutral(visit.Plus(open));
    } else {
      ScanPartsConserve(o, item, expiry);
    }
  }

  lemma ScanPartsConserve(o: WalkOptions, item: Pending, expiry: Option<nat>)
    requires Scans(item)
    ensures var r := Consumed(o, item, expiry);
            Visited(item, expiry).Plus(Note(r.stats)).Plus(ItemsFull(o, r.dirs)).Plus(CutOff(o, item, expiry))
            == ItemFull(o, item)
  {
    var listing := item.dir.listing;
    var r := Consumed(o, item, expiry);
    var visit, open := Visit(item.path), Note(OpenStats(item));
    var scan := Note(ScanStats(o, item.path, listing, expiry));
    var dirs, cut := ItemsFull(o, r.dirs), ScanCutOff(o, item.path, listing, expiry);
    assert Note(r.stats) == open.Plus(scan);
    ScanConserves(o, item.path, listing, expiry);
    FullScanned(o, item);
    Regroup(visit.Plus(open), scan, dirs, cut);
    Associates(visit, open, scan);
    if Cut(item, expiry) {
      Neutral(open.Plus(scan));
      Moved(visit, open.Plus(scan), dirs, cut);
    } else {
      UncutLosesNothing(o, item, expiry);
      Neutral(visit.Plus(open.Plus(scan)).Plus(dirs));
    }
  }

  lemma FullScanned(o: WalkOptions, item: Pending)
    requires Scans(item)
    ensures ItemFull(o, item)
         == Visit(item.path).Plus(Note(OpenStats(item))).Plus(ScanFull(o, item.path, item.dir.listing))
  {
    PlusZero(OpenStats(item).tally);
  }

  lemma UncutLosesNothing(o: WalkOptions, item: Pending, expiry: Option<nat>)
    requires Scans(item) && !Cut(item, expiry)
    ensures ScanCutOff(o, item.path, item.dir.listing, expiry) == EMPTY
  {
  }

  lemma Regroup(a: Ledger, b: Ledger, c: Ledger, d: Ledger)
    ensures a.Plus(b.Plus(c).Plus(d)) == a.Plus(b).Plus(c).Plus(d)
  {
    Associates(a, b.Plus(c), d);
    Associates(a, b, c);
  }

  lemma Moved(v: Ledger, a: Ledger, b: Ledger, c: Ledger)
    ensures v.Plus(a).Plus(b).Plus(c) == a.Plus(b).Plus(v.Plus(c))
  {
    Commutes(v, a);
    SwapLast(a, v, b);
    Associates(a.Plus(b), v, c);
  }

  // ----- each directory once -------------------------------------------------------------------

  /** The directory at `q`, relative to `dir`, is one a complete walk reaches. */
  predicate Eligible(o: WalkOptions, p: Path, dir: Dir, q: Path)
    decreases dir
  {
    q == [] || (Scans(Pending(p, dir)) && dir.listing.Entries? && EligibleEntry(o, p, dir.listing.entries, q))
  }

  predicate EligibleEntry(o: WalkOptions, p: Path, es: seq<Entry>, q: Path)
    requires q != []
    decreases es
  {
    && q[0] < |es|
    && EntryChild(o, es[q[0]]).Some?
    && Eligible(o, p + [q[0]], EntryChild(o, es[q[0]]).value, q[1..])
  }

  /** The complete walk of a subtree visits each eligible directory exactly once and nothing else. */
  lemma {:induction false} VisitsOnce(o: WalkOptions, p: Path, dir: Dir, q: Path)
    ensures FullVisits(o, p, dir)[q] == if p <= q && Eligible(o, p, dir, q[|p|..]) then 1 else 0
    decreases dir
  {
    assert p <= q ==> (q[|p|..] == [] <==> p == q);
    if Scans(Pending(p, dir)) && dir.listing.Entries? {
      var es := dir.listing.entries;
      EntriesVisitOnce(o, p, es, |es|, q);
      if p <= q && p != q {
        assert q[|p|..][0] == q[|p|];
      }
    }
  }

  lemma {:induction false} EntriesVisitOnce(o: WalkOptions, p: Path, es: seq<Entry>, n: nat, q: Path)
    requires n <= |es|
    ensures VisitsEntries(o, p, es, n)[q] ==
            if p <= q && p != q && q[|p|] < n && EligibleEntry(o, p, es, q[|p|..]) then 1 else 0
    decreases es, n
  {
    if n > 0 {
      EntriesVisitOnce(o, p, es, n - 1, q);
      EntryVisitOnce(o, p, es, n - 1, q);
    }
  }

  lemma {:induction false} EntryVisitOnce(o: WalkOptions, p: Path, es: seq<Entry>, i: nat, q: Path)
    requires i < |es|
    ensures VisitsEntry(o, p, i, es[i])[q] ==
            if p <= q && p != q && q[|p|] == i && EligibleEntry(o, p, es, q[|p|..]) then 1 else 0
    decreases es, 0
  {
    match EntryChild(o, es[i])
    case None =>
      if p <= q && p != q {
        assert q[|p|..][0] == q[|p|];
      }
    case Some(child) =>
      VisitsOnce(o, p + [i], child, q);
      if p <= q && p != q {
        assert q[|p|..][0] == q[|p|] && q[|p|..][1..] == q[|p| + 1..];
        assert (p + [i] <= q) == (q[|p|] == i);
      }
  }
}
