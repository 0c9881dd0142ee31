/**
 Resolution stability: once a path resolves through trusted namespaces, no sequence of
 namespace changes by foreign non-root users that the owner, mode and restricted-deletion
 rules permit (section 4.3, Directory Protection, of the POSIX.1-2017 Base Definitions)
 changes the directory the path resolves to.
 */
module TrustedStability {
  import opened Wrappers
  import opened TrustedResolution

  // ----- what a foreign user may do ------------------------------------------------------------

  predicate Foreign(euid: Uid, u: Uid) {
    u != euid && u != ROOT_UID
  }

  /** Generous on purpose: any shared write bit lets every user add names. */
  predicate CanWrite(fs: FileSystem, u: Uid, dir: Ino) {
    fs.IsDirectory(dir) && (fs.nodes[dir].uid == u || SharedWritable(fs.nodes[dir].mode))
  }

  /** Removing or replacing a name; the sticky bit demands ownership of the entry or the directory. */
  predicate CanRemove(fs: FileSystem, u: Uid, dir: Ino, name: string) {
    && CanWrite(fs, u, dir)
    && name in fs.nodes[dir].entries
    && fs.nodes[dir].entries[name] in fs.nodes
    && (Sticky(fs.nodes[dir].mode) ==> fs.nodes[dir].uid == u || fs.nodes[fs.nodes[dir].entries[name]].uid == u)
  }

  datatype Act =
    | Create(dir: Ino, name: string, ino: Ino, node: Node)
    | HardLink(dir: Ino, name: string, ino: Ino)
    | Remove(dir: Ino, name: string)
    | Rename(dir: Ino, name: string, toDir: Ino, toName: string)
    | Chmod(ino: Ino, mode: bv32)

  predicate Permitted(fs: FileSystem, u: Uid, act: Act) {
    match act
    case Create(dir, name, ino, node) =>
      && CanWrite(fs, u, dir) && name !in fs.nodes[dir].entries && ino !in fs.nodes
      && node.uid == u && (node.Directory? ==> node.entries == map[] && node.parent == dir)
    case HardLink(dir, name, ino) =>
      && CanWrite(fs, u, dir) && name !in fs.nodes[dir].entries
      && ino in fs.nodes && !fs.nodes[ino].Directory?
    case Remove(dir, name) => CanRemove(fs, u, dir, name)
    case Rename(dir, name, toDir, toName) =>
      && CanRemove(fs, u, dir, name) && CanWrite(fs, u, toDir)
      && (toName in fs.nodes[toDir].entries ==> CanRemove(fs, u, toDir, toName))
    case Chmod(ino, mode) => ino in fs.nodes && fs.nodes[ino].Directory? && fs.nodes[ino].uid == u
  }

  function WithEntries(fs: FileSystem, dir: Ino, entries: map<string, Ino>): FileSystem
    requires fs.IsDirectory(dir)
  {
    fs.(nodes := fs.nodes[dir := fs.nodes[dir].(entries := entries)])
  }

  function WithName(fs: FileSystem, dir: Ino, name: string, ino: Ino): FileSystem
    requires fs.IsDirectory(dir)
  {
    WithEntries(fs, dir, fs.nodes[dir].entries[name := ino])
  }

  function WithoutName(fs: FileSystem, dir: Ino, name: string): FileSystem
    requires fs.IsDirectory(dir)
  {
    WithEntries(fs, dir, fs.nodes[dir].entries - {name})
  }

  /** A moved directory's `..` follows it. */
  function Reparented(fs: FileSystem, ino: Ino, parent: Ino): FileSystem {
    if fs.IsDirectory(ino) then fs.(nodes := fs.nodes[ino := fs.nodes[ino].(parent := parent)]) else fs
  }

  function Performed(fs: FileSystem, u: Uid, act: Act): FileSystem
    requires Permitted(fs, u, act)
  {
    match act
    case Create(dir, name, ino, node) => WithName(fs.(nodes := fs.nodes[ino := node]), dir, name, ino)
    case HardLink(dir, name, ino) => WithName(fs, dir, name, ino)
    case Remove(dir, name) => WithoutName(fs, dir, name)
    case Rename(dir, name, toDir, toName) =>
      var ino := fs.nodes[dir].entries[name];
      Reparented(WithName(WithoutName(fs, dir, name), toDir, toName, ino), ino, toDir)
    case Chmod(ino, mode) => fs.(nodes := fs.nodes[ino := fs.nodes[ino].(mode := mode)])
  }

  /** A directory's `..` is the directory that names it, and it has one name there. */
  predicate NamesWellFormed(fs: FileSystem, dir: Ino) {
    fs.IsDirectory(dir) ==>
      && (forall name :: name in fs.nodes[dir].entries ==>
            && fs.nodes[dir].entries[name] in fs.nodes
            && (fs.IsDirectory(fs.nodes[dir].entries[name]) ==> fs.nodes[fs.nodes[dir].entries[name]].parent == dir))
      && (forall a, b :: a in fs.nodes[dir].entries && b in fs.nodes[dir].entries ==>
            (fs.nodes[dir].entries[a] == fs.nodes[dir].entries[b] && fs.IsDirectory(fs.nodes[dir].entries[a]) ==> a == b))
  }

  predicate WellFormed(fs: FileSystem) {
    forall dir :: dir in fs.nodes ==> NamesWellFormed(fs, dir)
  }

  // ----- what those steps keep -----------------------------------------------------------------

  /** Everything about a node but a directory's names and parent. */
  predicate SameNode(x: Node, y: Node) {
    match x
    case Directory(uid, mode, _, _, stable) =>
      y.Directory? && y.uid == uid && y.mode == mode && y.stable == stable
    case _ => x == y
  }

  predicate KeepsNode(fs: FileSystem, fs': FileSystem, euid: Uid, i: Ino) {
    Local(fs, euid, i) ==> i in fs'.nodes && SameNode(fs.nodes[i], fs'.nodes[i])
  }

  /** A trusted directory keeps every name of a local entry. */
  predicate KeepsNames(fs: FileSystem, fs': FileSystem, euid: Uid, i: Ino) {
    TrustedDirectory(fs, euid, i) && fs'.IsDirectory(i) ==>
      forall name :: name in fs.nodes[i].entries && Local(fs, euid, fs.nodes[i].entries[name]) ==>
        name in fs'.nodes[i].entries && fs'.nodes[i].entries[name] == fs.nodes[i].entries[name]
  }

  /** A local directory inside a trusted one stays there. */
  predicate KeepsParent(fs: FileSystem, fs': FileSystem, euid: Uid, i: Ino) {
    Local(fs, euid, i) && fs.IsDirectory(i) && TrustedDirectory(fs, euid, fs.nodes[i].parent) && fs'.IsDirectory(i) ==>
      fs'.nodes[i].parent == fs.nodes[i].parent
  }

  predicate Kept(fs: FileSystem, fs': FileSystem, euid: Uid) {
    && fs'.root == fs.root
    && (forall i :: i in fs.nodes ==> KeepsNode(fs, fs', euid, i))
    && (forall i :: i in fs.nodes ==> KeepsNames(fs, fs', euid, i))
    && (forall i :: i in fs.nodes ==> KeepsParent(fs, fs', euid, i))
  }

  lemma KeptReflexive(fs: FileSystem, euid: Uid)
    ensures Kept(fs, fs, euid)
  {
  }

  lemma KeptTransitive(a: FileSystem, b: FileSystem, c: FileSystem, euid: Uid)
    requires Kept(a, b, euid) && Kept(b, c, euid)
    ensures Kept(a, c, euid)
  {
    forall i | i in a.nodes
      ensures KeepsNode(a, c, euid, i) && KeepsNames(a, c, euid, i) && KeepsParent(a, c, euid, i)
    {
      assert KeepsNode(a, b, euid, i) && KeepsNames(a, b, euid, i) && KeepsParent(a, b, euid, i);
      if i in b.nodes {
        assert KeepsNode(b, c, euid, i) && KeepsNames(b, c, euid, i) && KeepsParent(b, c, euid, i);
      }
      if a.IsDirectory(i) && a.nodes[i].parent in a.nodes {
        assert KeepsNode(a, b, euid, a.nodes[i].parent);
      }
      if a.IsDirectory(i) {
        forall name | name in a.nodes[i].entries && a.nodes[i].entries[name] in a.nodes
          ensures KeepsNode(a, b, euid, a.nodes[i].entries[name])
        {
        }
      }
    }
  }

  lemma RemoveKeeps(fs: FileSystem, euid: Uid, u: Uid, act: Act)
    requires WellFormed(fs) && Foreign(euid, u) && Permitted(fs, u, act) && act.Remove?
    ensures WellFormed(Performed(fs, u, act)) && Kept(fs, Performed(fs, u, act), euid)
  {
    var fs' := Performed(fs, u, act);
    forall d | d in fs'.nodes
      ensures NamesWellFormed(fs', d)
    {
      assert NamesWellFormed(fs, d);
    }
    RemoveKept(fs, euid, u, act);
  }

  lemma RemoveKept(fs: FileSystem, euid: Uid, u: Uid, act: Act)
    requires Foreign(euid, u) && Permitted(fs, u, act) && act.Remove?
    ensures Kept(fs, Performed(fs, u, act), euid)
  {
  }

  lemma ChmodKeeps(fs: FileSystem, euid: Uid, u: Uid, act: Act)
    requires WellFormed(fs) && Foreign(euid, u) && Permitted(fs, u, act) && act.Chmod?
    ensures WellFormed(Performed(fs, u, act)) && Kept(fs, Performed(fs, u, act), euid)
  {
    var fs' := Performed(fs, u, act);
    forall d | d in fs'.nodes
      ensures NamesWellFormed(fs', d)
    {
      assert NamesWellFormed(fs, d);
    }
  }

  predicate Unnamed(fs: FileSystem, ino: Ino) {
    forall dir :: dir in fs.nodes && fs.nodes[dir].Directory? ==> ino !in fs.nodes[dir].entries.Values
  }

  /** Giving a node a name, over nothing or over an entry the user may remove. */
  function Placed(fs: FileSystem, dir: Ino, name: string, ino: Ino): FileSystem
    requires fs.IsDirectory(dir)
  {
    Reparented(WithName(fs, dir, name, ino), ino, dir)
  }

  predicate CanPlace(fs: FileSystem, euid: Uid, u: Uid, dir: Ino, name: string, ino: Ino) {
    && fs.IsDirectory(dir) && ino in fs.nodes
    && (name in fs.nodes[dir].entries ==> CanRemove(fs, u, dir, name))
    && (fs.IsDirectory(ino) ==>
          Unnamed(fs, ino) && !(Local(fs, euid, ino) && TrustedDirectory(fs, euid, fs.nodes[ino].parent)))
  }

  lemma PlacedElsewhere(fs: FileSystem, dir: Ino, name: string, ino: Ino, d: Ino)
    requires fs.IsDirectory(dir) && ino in fs.nodes && d in fs.nodes && d != dir
    requires fs.IsDirectory(ino) ==> Unnamed(fs, ino)
    requires NamesWellFormed(fs, d)
    ensures NamesWellFormed(Placed(fs, dir, name, ino), d)
  {
  }

  lemma PlacedHere(fs: FileSystem, dir: Ino, name: string, ino: Ino)
    requires fs.IsDirectory(dir) && ino in fs.nodes
    requires fs.IsDirectory(ino) ==> Unnamed(fs, ino)
    requires NamesWellFormed(fs, dir)
    ensures NamesWellFormed(Placed(fs, dir, name, ino), dir)
  {
  }

  lemma PlacedWellFormed(fs: FileSystem, euid: Uid, u: Uid, dir: Ino, name: string, ino: Ino)
    requires WellFormed(fs) && CanPlace(fs, euid, u, dir, name, ino)
    ensures WellFormed(Placed(fs, dir, name, ino))
  {
    var fs' := Placed(fs, dir, name, ino);
    forall d | d in fs'.nodes
      ensures NamesWellFormed(fs', d)
    {
      assert NamesWellFormed(fs, d);
      if d == dir {
        PlacedHere(fs, dir, name, ino);
      } else {
        PlacedElsewhere(fs, dir, name, ino, d);
      }
    }
  }

  lemma PlacedKept(fs: FileSystem, euid: Uid, u: Uid, dir: Ino, name: string, ino: Ino)
    requires Foreign(euid, u) && CanPlace(fs, euid, u, dir, name, ino)
    ensures Kept(fs, Placed(fs, dir, name, ino), euid)
  {
  }

  /** A fresh inode of the user's own, not named anywhere yet. */
  lemma BornKeeps(fs: FileSystem, euid: Uid, u: Uid, ino: Ino, node: Node)
    requires WellFormed(fs) && Foreign(euid, u) && ino !in fs.nodes && node.uid == u
    requires node.Directory? ==> node.entries == map[]
    ensures var born := fs.(nodes := fs.nodes[ino := node]);
            WellFormed(born) && Kept(fs, born, euid) && Unnamed(born, ino)
  {
    var born := fs.(nodes := fs.nodes[ino := node]);
    forall d | d in born.nodes
      ensures NamesWellFormed(born, d)
      ensures born.nodes[d].Directory? ==> ino !in born.nodes[d].entries.Values
    {
      assert d != ino ==> NamesWellFormed(fs, d);
    }
  }

  lemma CreateKeeps(fs: FileSystem, euid: Uid, u: Uid, act: Act)
    requires WellFormed(fs) && Foreign(euid, u) && Permitted(fs, u, act) && (act.Create? || act.HardLink?)
    ensures WellFormed(Performed(fs, u, act)) && Kept(fs, Performed(fs, u, act), euid)
  {
    var born := fs;
    if act.Create? {
      BornKeeps(fs, euid, u, act.ino, act.node);
      born := fs.(nodes := fs.nodes[act.ino := act.node]);
    } else {
      KeptReflexive(fs, euid);
    }
    assert Performed(fs, u, act) == Placed(born, act.dir, act.name, act.ino);
    PlacedWellFormed(born, euid, u, act.dir, act.name, act.ino);
    PlacedKept(born, euid, u, act.dir, act.name, act.ino);
    KeptTransitive(fs, born, Performed(fs, u, act), euid);
  }

  lemma RemovedUnnamed(fs: FileSystem, dir: Ino, name: string)
    requires WellFormed(fs) && fs.IsDirectory(dir) && name in fs.nodes[dir].entries
    requires fs.IsDirectory(fs.nodes[dir].entries[name])
    ensures Unnamed(WithoutName(fs, dir, name), fs.nodes[dir].entries[name])
  {
    var ino, fs' := fs.nodes[dir].entries[name], WithoutName(fs, dir, name);
    forall d | fs'.IsDirectory(d)
      ensures ino !in fs'.nodes[d].entries.Values
    {
      assert NamesWellFormed(fs, d) && NamesWellFormed(fs, dir);
    }
  }

  /** A rename removes one name and places another. */
  lemma RenameKeeps(fs: FileSystem, euid: Uid, u: Uid, act: Act)
    requires WellFormed(fs) && Foreign(euid, u) && Permitted(fs, u, act) && act.Rename?
    ensures WellFormed(Performed(fs, u, act)) && Kept(fs, Performed(fs, u, act), euid)
  {
    var ino := fs.nodes[act.dir].entries[act.name];
    var removed := WithoutName(fs, act.dir, act.name);
    assert NamesWellFormed(fs, act.dir);
    RemoveKeeps(fs, euid, u, Remove(act.dir, act.name));
    if fs.IsDirectory(ino) {
      RemovedUnnamed(fs, act.dir, act.name);
    }
    assert CanPlace(removed, euid, u, act.toDir, act.toName, ino);
    PlacedWellFormed(removed, euid, u, act.toDir, act.toName, ino);
    PlacedKept(removed, euid, u, act.toDir, act.toName, ino);
    KeptTransitive(fs, removed, Performed(fs, u, act), euid);
  }

  lemma ActKeeps(fs: FileSystem, euid: Uid, u: Uid, act: Act)
    requires WellFormed(fs) && Foreign(euid, u) && Permitted(fs, u, act)
    ensures WellFormed(Performed(fs, u, act)) && Kept(fs, Performed(fs, u, act), euid)
  {
    match act
    case Create(_, _, _, _) => CreateKeeps(fs, euid, u, act);
    case HardLink(_, _, _) => CreateKeeps(fs, euid, u, act);
    case Remove(_, _) => RemoveKeeps(fs, euid, u, act);
    case Rename(_, _, _, _) => RenameKeeps(fs, euid, u, act);
    case Chmod(_, _) => ChmodKeeps(fs, euid, u, act);
  }

  // ----- resolution over whole runs ------------------------------------------------------------

  datatype Deed = Deed(user: Uid, act: Act)

  /** Any interleaving of foreign users; `None` when some step is not permitted. */
  function After(fs: FileSystem, euid: Uid, deeds: seq<Deed>): Option<FileSystem>
    decreases |deeds|
  {
    if deeds == [] then Some(fs)
    else if !Foreign(euid, deeds[0].user) || !Permitted(fs, deeds[0].user, deeds[0].act) then None
    else After(Performed(fs, deeds[0].user, deeds[0].act), euid, deeds[1..])
  }

  lemma {:induction false} DeedsKeep(fs: FileSystem, euid: Uid, deeds: seq<Deed>, fs': FileSystem)
    requires WellFormed(fs) && After(fs, euid, deeds) == Some(fs')
    ensures WellFormed(fs') && Kept(fs, fs', euid)
    decreases |deeds|
  {
    if deeds == [] {
      KeptReflexive(fs, euid);
    } else {
      var next := Performed(fs, deeds[0].user, deeds[0].act);
      ActKeeps(fs, euid, deeds[0].user, deeds[0].act);
      DeedsKeep(next, euid, deeds[1..], fs');
      KeptTransitive(fs, next, fs', euid);
    }
  }

  lemma TrustKept(fs: FileSystem, fs': FileSystem, euid: Uid, i: Ino)
    requires Kept(fs, fs', euid) && TrustedDirectory(fs, euid, i)
    ensures TrustedDirectory(fs', euid, i)
  {
    assert KeepsNode(fs, fs', euid, i);
  }

  lemma HopKept(fs: FileSystem, fs': FileSystem, euid: Uid, hop: Hop)
    requires Kept(fs, fs', euid) && HopTrusted(fs, euid, hop)
    requires hop.Down? ==> TrustedDirectory(fs, euid, hop.from)
    ensures HopTrusted(fs', euid, hop)
  {
    match hop
    case ToRoot => TrustKept(fs, fs', euid, fs.root);
    case Up(to) => assert KeepsNode(fs, fs', euid, to);
    case Down(from, to) => assert KeepsNode(fs, fs', euid, to) && KeepsNode(fs, fs', euid, from);
    case Follow(link) => assert KeepsNode(fs, fs', euid, link);
  }

  lemma AllTrustedSplit(fs: FileSystem, euid: Uid, a: seq<Hop>, b: seq<Hop>)
    ensures AllTrusted(fs, euid, a + b) <==> AllTrusted(fs, euid, a) && AllTrusted(fs, euid, b)
  {
    if AllTrusted(fs, euid, a + b) {
      forall i | 0 <= i < |a| ensures HopTrusted(fs, euid, a[i]) { assert a[i] == (a + b)[i]; }
      forall i | 0 <= i < |b| ensures HopTrusted(fs, euid, b[i]) { assert b[i] == (a + b)[|a| + i]; }
    }
  }

  /** A trusted resolution takes the same hops to the same directory afterwards. */
  lemma {:induction false} ResolveKept(fs: FileSystem, fs': FileSystem, euid: Uid, current: Ino, path: seq<Name>, budget: nat)
    requires Kept(fs, fs', euid) && TrustedDirectory(fs, euid, current)
    requires TrustedFrom(fs, euid, current, path, budget).Some?
    ensures Resolve(fs', current, path, budget) == Resolve(fs, current, path, budget)
    ensures AllTrusted(fs', euid, Resolve(fs, current, path, budget).hops)
    ensures TrustedDirectory(fs, euid, Resolve(fs, current, path, budget).dir)
    decreases budget, |path|
  {
    if path != [] {
      var step := Component(fs, current, path[0], budget);
      var rest := Resolve(fs, step.dir, path[1..], step.budget);
      AllTrustedSplit(fs, euid, step.hops, rest.hops);
      ComponentKept(fs, fs', euid, current, path[0], budget);
      ResolveKept(fs, fs', euid, step.dir, path[1..], step.budget);
      AllTrustedSplit(fs', euid, step.hops, rest.hops);
    }
  }

  lemma {:induction false} ComponentKept(fs: FileSystem, fs': FileSystem, euid: Uid, current: Ino, name: Name, budget: nat)
    requires Kept(fs, fs', euid) && TrustedDirectory(fs, euid, current)
    requires TrustedEnd(fs, euid, Component(fs, current, name, budget)).Some?
    ensures Component(fs', current, name, budget) == Component(fs, current, name, budget)
    ensures AllTrusted(fs', euid, Component(fs, current, name, budget).hops)
    ensures TrustedDirectory(fs, euid, Component(fs, current, name, budget).dir)
    decreases budget, 0, 1
  {
    TrustKept(fs, fs', euid, current);
    match name
    case Dot =>
    case DotDot =>
      var up := fs.nodes[current].parent;
      UpKept(fs, fs', euid, current, up, budget);
    case Normal(n) =>
      var entry := fs.nodes[current].entries[n];
      match fs.nodes[entry]
      case Directory(_, _, _, _, _) => DownKept(fs, fs', euid, current, n, budget);
      case Symlink(_, absolute, target) => LinkKept(fs, fs', euid, current, n, budget);
      case Other(_) =>
  }

  lemma UpKept(fs: FileSystem, fs': FileSystem, euid: Uid, current: Ino, up: Ino, budget: nat)
    requires Kept(fs, fs', euid) && TrustedDirectory(fs, euid, current) && up == fs.nodes[current].parent
    requires AllTrusted(fs, euid, [Up(up)])
    ensures Component(fs', current, DotDot, budget) == Reached(up, budget, [Up(up)])
    ensures AllTrusted(fs', euid, [Up(up)]) && TrustedDirectory(fs, euid, up)
  {
    assert [Up(up)][0] == Up(up);
    HopKept(fs, fs', euid, Up(up));
    assert KeepsNode(fs, fs', euid, current) && KeepsParent(fs, fs', euid, current);
  }

  lemma DownKept(fs: FileSystem, fs': FileSystem, euid: Uid, current: Ino, n: string, budget: nat)
    requires Kept(fs, fs', euid) && TrustedDirectory(fs, euid, current) && n in fs.nodes[current].entries
    requires fs.IsDirectory(fs.nodes[current].entries[n])
    requires AllTrusted(fs, euid, [Down(current, fs.nodes[current].entries[n])])
    ensures var entry := fs.nodes[current].entries[n];
            && Component(fs', current, Normal(n), budget) == Reached(entry, budget, [Down(current, entry)])
            && AllTrusted(fs', euid, [Down(current, entry)]) && TrustedDirectory(fs, euid, entry)
  {
    var entry := fs.nodes[current].entries[n];
    var hop := Down(current, entry);
    assert [hop][0] == hop;
    HopKept(fs, fs', euid, hop);
    assert KeepsNode(fs, fs', euid, current) && KeepsNames(fs, fs', euid, current);
  }

  lemma LinkTrusted(fs: FileSystem, euid: Uid, link: Ino, hops: seq<Hop>)
    requires hops == [Follow(link)] || hops == [Follow(link), ToRoot]
    ensures AllTrusted(fs, euid, hops) <==>
              Local(fs, euid, link) && (|hops| == 2 ==> TrustedDirectory(fs, euid, fs.root))
  {
    assert hops[0] == Follow(link);
    if |hops| == 2 {
      assert hops[1] == ToRoot;
    }
  }

  lemma {:induction false} LinkKept(fs: FileSystem, fs': FileSystem, euid: Uid, current: Ino, n: string, budget: nat)
    requires Kept(fs, fs', euid) && TrustedDirectory(fs, euid, current) && n in fs.nodes[current].entries
    requires fs.nodes[current].entries[n] in fs.nodes && fs.nodes[fs.nodes[current].entries[n]].Symlink?
    requires TrustedEnd(fs, euid, Component(fs, current, Normal(n), budget)).Some?
    ensures Component(fs', current, Normal(n), budget) == Component(fs, current, Normal(n), budget)
    ensures AllTrusted(fs', euid, Component(fs, current, Normal(n), budget).hops)
    ensures TrustedDirectory(fs, euid, Component(fs, current, Normal(n), budget).dir)
    decreases budget, 0, 0
  {
    var link := fs.nodes[current].entries[n];
    var absolute, target := fs.nodes[link].absolute, fs.nodes[link].target;
    var hops := if absolute then [Follow(link), ToRoot] else [Follow(link)];
    var start := if absolute then fs.root else current;
    var inner := Resolve(fs, start, target, budget - 1);
    AllTrustedSplit(fs, euid, hops, inner.hops);
    LinkTrusted(fs, euid, link, hops);
    ResolveKept(fs, fs', euid, start, target, budget - 1);
    HopKept(fs, fs', euid, Follow(link));
    if absolute {
      TrustKept(fs, fs', euid, fs.root);
    }
    LinkTrusted(fs', euid, link, hops);
    AllTrustedSplit(fs', euid, hops, inner.hops);
    TrustKept(fs, fs', euid, current);
    assert KeepsNode(fs, fs', euid, link) && KeepsNames(fs, fs', euid, current);
  }

  /** No permitted sequence of foreign namespace steps changes what a trusted path denotes. */
  lemma ResolutionStability(fs: FileSystem, euid: Uid, deeds: seq<Deed>, fs': FileSystem, path: seq<Name>, d: Ino)
    requires WellFormed(fs) && After(fs, euid, deeds) == Some(fs')
    requires TrustedResolve(fs, euid, path) == Some(d)
    ensures TrustedResolve(fs', euid, path) == Some(d)
    ensures Resolve(fs', fs'.root, path, SYMLINK_BUDGET) == Resolve(fs, fs.root, path, SYMLINK_BUDGET)
  {
    DeedsKeep(fs, euid, deeds, fs');
    TrustKept(fs, fs', euid, fs.root);
    ResolveKept(fs, fs', euid, fs.root, path, SYMLINK_BUDGET);
  }
}
