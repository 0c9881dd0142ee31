/**
 Trusted path resolution: a work-list loop over held directories that follows symbolic
 links within a budget, against the recursive resolution of section 4.13 (Pathname
 Resolution) of the POSIX.1-2017 Base Definitions.
 */
module TrustedResolution {
  import opened Wrappers

  type Ino = nat
  type Uid = nat

  const ROOT_UID: Uid := 0
  const SYMLINK_BUDGET: nat := 40

  datatype Name = Dot | DotDot | Normal(name: string)

  datatype Node =
    | Directory(uid: Uid, mode: bv32, entries: map<string, Ino>, parent: Ino, stable: bool)
    | Symlink(uid: Uid, absolute: bool, target: seq<Name>)
    | Other(uid: Uid)

  /** Inodes are never reused; `root` is its own parent. */
  datatype FileSystem = FileSystem(nodes: map<Ino, Node>, root: Ino) {
    predicate IsDirectory(i: Ino) {
      i in nodes && nodes[i].Directory?
    }
  }

  predicate SharedWritable(mode: bv32) {
    mode & 0x12 != 0
  }

  predicate Sticky(mode: bv32) {
    mode & 0x200 != 0
  }

  predicate GrantsForeignMutation(uid: Uid, mode: bv32, euid: Uid) {
    (uid != euid && uid != ROOT_UID) || (SharedWritable(mode) && !Sticky(mode))
  }

  predicate Local(fs: FileSystem, euid: Uid, i: Ino) {
    i in fs.nodes && (fs.nodes[i].uid == euid || fs.nodes[i].uid == ROOT_UID)
  }

  /** The namespace check every held directory must pass. */
  predicate TrustedDirectory(fs: FileSystem, euid: Uid, i: Ino) {
    fs.IsDirectory(i) && !GrantsForeignMutation(fs.nodes[i].uid, fs.nodes[i].mode, euid)
  }

  // ----- recursive resolution ---------------------------------------------------------------

  /** One move of a resolution, as the trust checks see it. */
  datatype Hop = ToRoot | Up(to: Ino) | Down(from: Ino, to: Ino) | Follow(link: Ino)

  datatype Refusal =
    | NotAbsolute | UntrustedNamespace | UnstableFilesystem | ForeignOwner
    | TooManyLinks | NotADirectory | Missing

  /** Where a resolution ended, or why it could not go on, with the hops made until then. */
  datatype Outcome = Reached(dir: Ino, budget: nat, hops: seq<Hop>) | Stopped(why: Refusal, hops: seq<Hop>)

  /** The outcome `rest`, reached by way of `hops`. */
  function After(hops: seq<Hop>, rest: Outcome): Outcome {
    rest.(hops := hops + rest.hops)
  }

  /** Resolve every component in turn; a link's contents are resolved before the rest. */
  function Resolve(fs: FileSystem, current: Ino, path: seq<Name>, budget: nat): (r: Outcome)
    ensures r.Reached? ==> r.budget <= budget
    decreases budget, |path|
  {
    if path == [] then Reached(current, budget, [])
    else
      var step := Component(fs, current, path[0], budget);
      if step.Stopped? then step
      else After(step.hops, Resolve(fs, step.dir, path[1..], step.budget))
  }

  function Component(fs: FileSystem, current: Ino, name: Name, budget: nat): (r: Outcome)
    ensures r.Reached? ==> r.budget <= budget
    decreases budget, 0
  {
    if !fs.IsDirectory(current) then Stopped(NotADirectory, [])
    else
      match name
      case Dot => Reached(current, budget, [])
      case DotDot =>
        var up := fs.nodes[current].parent;
        if fs.IsDirectory(up) then Reached(up, budget, [Up(up)]) else Stopped(NotADirectory, [])
      case Normal(n) =>
        if n !in fs.nodes[current].entries || fs.nodes[current].entries[n] !in fs.nodes then Stopped(Missing, [])
        else
          var entry := fs.nodes[current].entries[n];
          match fs.nodes[entry]
          case Directory(_, _, _, _, _) => Reached(entry, budget, [Down(current, entry)])
          case Symlink(_, absolute, target) =>
            if budget == 0 then Stopped(TooManyLinks, [Follow(entry)])
            else if absolute then After([Follow(entry), ToRoot], Resolve(fs, fs.root, target, budget - 1))
            else After([Follow(entry)], Resolve(fs, current, target, budget - 1))
          case Other(_) => Stopped(NotADirectory, [])
  }

  predicate StableFilesystem(fs: FileSystem, i: Ino) {
    fs.IsDirectory(i) && fs.nodes[i].stable
  }

  predicate HopTrusted(fs: FileSystem, euid: Uid, hop: Hop) {
    match hop
    case ToRoot => TrustedDirectory(fs, euid, fs.root)
    case Up(to) => TrustedDirectory(fs, euid, to) && StableFilesystem(fs, to)
    case Down(from, to) =>
      && TrustedDirectory(fs, euid, to) && StableFilesystem(fs, to)
      && (fs.IsDirectory(from) && Sticky(fs.nodes[from].mode) ==> Local(fs, euid, to))
    case Follow(link) => Local(fs, euid, link)
  }

  predicate AllTrusted(fs: FileSystem, euid: Uid, hops: seq<Hop>) {
    forall i :: 0 <= i < |hops| ==> HopTrusted(fs, euid, hops[i])
  }

  /** What is wrong with a hop, in the order the checks are made. */
  function HopRefusal(fs: FileSystem, euid: Uid, hop: Hop): Option<Refusal> {
    match hop
    case ToRoot => if TrustedDirectory(fs, euid, fs.root) then None else Some(UntrustedNamespace)
    case Up(to) => Admission(fs, euid, to)
    case Down(from, to) =>
      if fs.IsDirectory(from) && Sticky(fs.nodes[from].mode) && !Local(fs, euid, to) then Some(ForeignOwner)
      else Admission(fs, euid, to)
    case Follow(link) => if Local(fs, euid, link) then None else Some(ForeignOwner)
  }

  /** The checks on a directory about to be held. */
  function Admission(fs: FileSystem, euid: Uid, next: Ino): Option<Refusal> {
    if !fs.IsDirectory(next) then Some(NotADirectory)
    else if !TrustedDirectory(fs, euid, next) then Some(UntrustedNamespace)
    else if !fs.nodes[next].stable then Some(UnstableFilesystem)
    else None
  }

  lemma RefusalMeaning(fs: FileSystem, euid: Uid, hop: Hop)
    ensures HopRefusal(fs, euid, hop) == None <==> HopTrusted(fs, euid, hop)
  {
  }

  function FirstRefusal(fs: FileSystem, euid: Uid, hops: seq<Hop>): Option<Refusal> {
    if hops == [] then None
    else if HopRefusal(fs, euid, hops[0]).Some? then HopRefusal(fs, euid, hops[0])
    else FirstRefusal(fs, euid, hops[1..])
  }

  datatype Resolution = Ok(dir: Ino) | Err(why: Refusal)

  /** The first untrusted hop decides; only then does it matter where the resolution ended. */
  function Verdict(fs: FileSystem, euid: Uid, r: Outcome): Resolution {
    var refusal := FirstRefusal(fs, euid, r.hops);
    if refusal.Some? then Err(refusal.value) else if r.Reached? then Ok(r.dir) else Err(r.why)
  }

  /** The verdict on an absolute path, or on one that is not. */
  function TrustedVerdict(fs: FileSystem, euid: Uid, absolute: bool, path: seq<Name>): Resolution {
    if !TrustedDirectory(fs, euid, fs.root) then Err(UntrustedNamespace)
    else if !absolute then Err(NotAbsolute)
    else Verdict(fs, euid, Resolve(fs, fs.root, path, SYMLINK_BUDGET))
  }

  /** Where a resolution leads when every hop of it is trusted. */
  function TrustedEnd(fs: FileSystem, euid: Uid, r: Outcome): Option<Ino> {
    if r.Reached? && AllTrusted(fs, euid, r.hops) then Some(r.dir) else None
  }

  function TrustedFrom(fs: FileSystem, euid: Uid, current: Ino, path: seq<Name>, budget: nat): Option<Ino> {
    TrustedEnd(fs, euid, Resolve(fs, current, path, budget))
  }

  /** The directory an absolute path denotes, reached through trusted namespaces only. */
  function TrustedResolve(fs: FileSystem, euid: Uid, path: seq<Name>): Option<Ino> {
    if TrustedDirectory(fs, euid, fs.root) then TrustedFrom(fs, euid, fs.root, path, SYMLINK_BUDGET) else None
  }

  lemma {:induction false} NoRefusal(fs: FileSystem, euid: Uid, hops: seq<Hop>)
    ensures FirstRefusal(fs, euid, hops) == None <==> AllTrusted(fs, euid, hops)
    decreases |hops|
  {
    if hops != [] {
      NoRefusal(fs, euid, hops[1..]);
      RefusalMeaning(fs, euid, hops[0]);
      assert forall i :: 1 <= i < |hops| ==> hops[i] == hops[1..][i - 1];
    }
  }

  /** A path is accepted exactly when it resolves and every hop on the way is trusted. */
  lemma VerdictMeaning(fs: FileSystem, euid: Uid, r: Outcome)
    ensures Verdict(fs, euid, r).Ok? <==> TrustedEnd(fs, euid, r).Some?
    ensures Verdict(fs, euid, r).Ok? ==> TrustedEnd(fs, euid, r) == Some(Verdict(fs, euid, r).dir)
  {
    NoRefusal(fs, euid, r.hops);
  }

  // ----- the work list and the recursion agree --------------------------------------------------

  /** Resolving a concatenation is resolving its parts one after the other. */
  lemma {:induction false} ResolveAppend(fs: FileSystem, current: Ino, first: seq<Name>, rest: seq<Name>, budget: nat)
    ensures var a := Resolve(fs, current, first, budget);
            Resolve(fs, current, first + rest, budget) ==
              if a.Reached? then After(a.hops, Resolve(fs, a.dir, rest, a.budget)) else a
    decreases |first|
  {
    if first == [] {
      assert first + rest == rest;
      AfterNothing(Resolve(fs, current, rest, budget));
    } else {
      assert (first + rest)[1..] == first[1..] + rest;
      var step := Component(fs, current, first[0], budget);
      if step.Reached? {
        ResolveAppend(fs, step.dir, first[1..], rest, step.budget);
        var a := Resolve(fs, step.dir, first[1..], step.budget);
        if a.Reached? {
          AfterTwice(step.hops, a.hops, Resolve(fs, a.dir, rest, a.budget));
        }
      }
    }
  }

  lemma AfterNothing(r: Outcome)
    ensures After([], r) == r
  {
    assert [] + r.hops == r.hops;
  }

  lemma AfterTwice(x: seq<Hop>, y: seq<Hop>, r: Outcome)
    ensures After(x, After(y, r)) == After(x + y, r)
  {
    assert x + (y + r.hops) == x + y + r.hops;
  }

  lemma {:induction false} FirstRefusalAppend(fs: FileSystem, euid: Uid, a: seq<Hop>, b: seq<Hop>)
    ensures FirstRefusal(fs, euid, a + b) ==
              if FirstRefusal(fs, euid, a).Some? then FirstRefusal(fs, euid, a) else FirstRefusal(fs, euid, b)
    decreases |a|
  {
    if a == [] {
      assert a + b == b;
    } else {
      assert (a + b)[1..] == a[1..] + b;
      FirstRefusalAppend(fs, euid, a[1..], b);
    }
  }

  lemma VerdictAfter(fs: FileSystem, euid: Uid, hops: seq<Hop>, r: Outcome)
    ensures var refusal := FirstRefusal(fs, euid, hops);
            Verdict(fs, euid, After(hops, r)) == if refusal.Some? then Err(refusal.value) else Verdict(fs, euid, r)
  {
    FirstRefusalAppend(fs, euid, hops, r.hops);
  }

  /** The verdict still to come from a state of the work list. */
  function Ahead(fs: FileSystem, euid: Uid, current: Ino, pending: seq<Name>, budget: nat): Resolution {
    Verdict(fs, euid, Resolve(fs, current, pending, budget))
  }

  /** A component that moves to another directory without following a link. */
  lemma StepMoves(fs: FileSystem, euid: Uid, current: Ino, path: seq<Name>, budget: nat, hop: Hop, next: Ino)
    requires path != [] && Component(fs, current, path[0], budget) == Reached(next, budget, [hop])
    ensures var refusal := HopRefusal(fs, euid, hop);
            Ahead(fs, euid, current, path, budget) ==
              if refusal.Some? then Err(refusal.value) else Ahead(fs, euid, next, path[1..], budget)
  {
    VerdictAfter(fs, euid, [hop], Resolve(fs, next, path[1..], budget));
    assert [hop][1..] == [];
  }

  /** A component that cannot be resolved ends the resolution there. */
  lemma StepFails(fs: FileSystem, euid: Uid, current: Ino, path: seq<Name>, budget: nat)
    requires path != [] && Component(fs, current, path[0], budget).Stopped?
    ensures Ahead(fs, euid, current, path, budget) == Verdict(fs, euid, Component(fs, current, path[0], budget))
  {
  }

  lemma DotSkips(fs: FileSystem, current: Ino, path: seq<Name>, budget: nat)
    requires path != [] && path[0].Dot? && fs.IsDirectory(current)
    ensures Resolve(fs, current, path, budget) == Resolve(fs, current, path[1..], budget)
  {
    AfterNothing(Resolve(fs, current, path[1..], budget));
  }

  /** Following a link replaces it by its contents in front of the work list. */
  lemma LinkSplices(fs: FileSystem, euid: Uid, current: Ino, path: seq<Name>, budget: nat, link: Ino)
    requires path != [] && path[0].Normal? && fs.IsDirectory(current)
    requires path[0].name in fs.nodes[current].entries && fs.nodes[current].entries[path[0].name] == link
    requires link in fs.nodes && fs.nodes[link].Symlink?
    ensures Ahead(fs, euid, current, path, budget) ==
              if !Local(fs, euid, link) then Err(ForeignOwner)
              else if budget == 0 then Err(TooManyLinks)
              else if fs.nodes[link].absolute && !TrustedDirectory(fs, euid, fs.root) then Err(UntrustedNamespace)
              else Ahead(fs, euid, if fs.nodes[link].absolute then fs.root else current,
                         fs.nodes[link].target + path[1..], budget - 1)
  {
    LinkHops(fs, euid, link);
    if budget == 0 {
      StepFails(fs, euid, current, path, budget);
    } else {
      var absolute, target := fs.nodes[link].absolute, fs.nodes[link].target;
      var start := if absolute then fs.root else current;
      var hops := if absolute then [Follow(link), ToRoot] else [Follow(link)];
      var inner := Resolve(fs, start, target, budget - 1);
      ResolveAppend(fs, start, target, path[1..], budget - 1);
      assert Component(fs, current, path[0], budget) == After(hops, inner);
      if inner.Reached? {
        AfterTwice(hops, inner.hops, Resolve(fs, inner.dir, path[1..], inner.budget));
      }
      assert Resolve(fs, current, path, budget) == After(hops, Resolve(fs, start, target + path[1..], budget - 1));
      VerdictAfter(fs, euid, hops, Resolve(fs, start, target + path[1..], budget - 1));
    }
  }

  lemma LinkHops(fs: FileSystem, euid: Uid, link: Ino)
    ensures FirstRefusal(fs, euid, [Follow(link)]) == if Local(fs, euid, link) then None else Some(ForeignOwner)
    ensures FirstRefusal(fs, euid, [Follow(link), ToRoot]) ==
              if !Local(fs, euid, link) then Some(ForeignOwner)
              else if TrustedDirectory(fs, euid, fs.root) then None
              else Some(UntrustedNamespace)
  {
    assert [Follow(link)][1..] == [];
    assert [Follow(link), ToRoot][1..] == [ToRoot] && [ToRoot][1..] == [];
  }

  // ----- the loop -------------------------------------------------------------------------------

  /**
   Terminates on the lexicographic measure of remaining links and pending components,
   holds only trusted directories, and gives the verdict of the recursion: the same
   directory where it is accepted, the first refusal where it is not.
   */
  method ResolveTrustedDirectory(fs: FileSystem, euid: Uid, absolute: bool, path: seq<Name>)
    returns (r: Resolution, ghost held: seq<Ino>)
    ensures forall i :: 0 <= i < |held| ==> TrustedDirectory(fs, euid, held[i])
    ensures r.Ok? ==> held != [] && held[|held| - 1] == r.dir
    ensures r == TrustedVerdict(fs, euid, absolute, path)
    ensures r.Ok? <==> absolute && TrustedResolve(fs, euid, path).Some?
    ensures r.Ok? ==> TrustedResolve(fs, euid, path) == Some(r.dir)
  {
    held := [];
    VerdictMeaning(fs, euid, Resolve(fs, fs.root, path, SYMLINK_BUDGET));
    var current := fs.root;
    if !TrustedDirectory(fs, euid, current) {
      return Err(UntrustedNamespace), held;
    }
    held := [current];
    if !absolute {
      return Err(NotAbsolute), held;
    }
    var pending, budget := path, SYMLINK_BUDGET;
    while pending != []
      invariant held != [] && held[|held| - 1] == current
      invariant forall i :: 0 <= i < |held| ==> TrustedDirectory(fs, euid, held[i])
      invariant Ahead(fs, euid, fs.root, path, SYMLINK_BUDGET) == Ahead(fs, euid, current, pending, budget)
      decreases budget, |pending|
    {
      match pending[0] {
        case Dot =>
          DotSkips(fs, current, pending, budget);
          pending := pending[1..];
        case DotDot =>
          var next := fs.nodes[current].parent;
          if fs.IsDirectory(next) {
            StepMoves(fs, euid, current, pending, budget, Up(next), next);
          } else {
            StepFails(fs, euid, current, pending, budget);
          }
          var refusal := Admission(fs, euid, next);
          if refusal.Some? {
            return Err(refusal.value), held;
          }
          current, pending := next, pending[1..];
          held := held + [current];
        case Normal(n) =>
          if n !in fs.nodes[current].entries || fs.nodes[current].entries[n] !in fs.nodes {
            StepFails(fs, euid, current, pending, budget);
            return Err(Missing), held;
          }
          var entry := fs.nodes[current].entries[n];
          if fs.nodes[entry].Symlink? {
            LinkSplices(fs, euid, current, pending, budget, entry);
            if !Local(fs, euid, entry) {
              return Err(ForeignOwner), held;
            }
            if budget == 0 {
              return Err(TooManyLinks), held;
            }
            var link := fs.nodes[entry];
            if link.absolute {
              current := fs.root;
              if !TrustedDirectory(fs, euid, current) {
                return Err(UntrustedNamespace), held;
              }
              held := held + [current];
            }
            budget, pending := budget - 1, link.target + pending[1..];
          } else if fs.nodes[entry].Directory? {
            StepMoves(fs, euid, current, pending, budget, Down(current, entry), entry);
            if Sticky(fs.nodes[current].mode) && !Local(fs, euid, entry) {
              return Err(ForeignOwner), held;
            }
            var refusal := Admission(fs, euid, entry);
            if refusal.Some? {
              return Err(refusal.value), held;
            }
            current, pending := entry, pending[1..];
            held := held + [current];
          } else {
            StepFails(fs, euid, current, pending, budget);
            return Err(NotADirectory), held;
          }
      }
    }
    r := Ok(current);
  }
}
