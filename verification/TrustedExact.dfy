/**
 Trust is exact: a directory passes the namespace check precisely when foreign users are
 powerless over it, and a path is accepted precisely when it leads through such directories.
 */
module TrustedExact {
  import opened Wrappers
  import opened TrustedResolution
  import opened TrustedStability

  // ----- what a foreigner could do to a directory ------------------------------------------------

  /** The directory with one more entry: a file of the effective user or of root. */
  function WithLocalFile(fs: FileSystem, dir: Ino, name: string, ino: Ino, owner: Uid): FileSystem
    requires fs.IsDirectory(dir) && ino !in fs.nodes
  {
    WithName(fs.(nodes := fs.nodes[ino := Other(owner)]), dir, name, ino)
  }

  /** Whatever local file is put there, `u` may neither remove it nor change the directory's mode. */
  ghost predicate PowerlessOver(fs: FileSystem, euid: Uid, u: Uid, dir: Ino)
    requires fs.IsDirectory(dir)
  {
    && (forall mode :: !Permitted(fs, u, Chmod(dir, mode)))
    && (forall name, ino, owner :: ino !in fs.nodes && (owner == euid || owner == ROOT_UID) ==>
          !CanRemove(WithLocalFile(fs, dir, name, ino, owner), u, dir, name))
  }

  ghost predicate ForeignersPowerless(fs: FileSystem, euid: Uid, dir: Ino) {
    fs.IsDirectory(dir) && forall u :: Foreign(euid, u) ==> PowerlessOver(fs, euid, u, dir)
  }

  lemma {:induction false} FreshIno(used: set<Ino>) returns (ino: Ino)
    ensures ino !in used
    ensures forall i :: i in used ==> i < ino
    decreases |used|
  {
    if used == {} {
      ino := 0;
    } else {
      var x :| x in used;
      var rest := FreshIno(used - {x});
      ino := if x >= rest then x + 1 else rest;
      assert forall i :: i in used ==> i == x || i in used - {x};
    }
  }

  /** The check refuses nothing it need not and accepts nothing it must not. */
  lemma TrustIsExact(fs: FileSystem, euid: Uid, dir: Ino)
    ensures TrustedDirectory(fs, euid, dir) <==> ForeignersPowerless(fs, euid, dir)
  {
    if fs.IsDirectory(dir) && !TrustedDirectory(fs, euid, dir) {
      var node := fs.nodes[dir];
      if Foreign(euid, node.uid) {
        assert Permitted(fs, node.uid, Chmod(dir, node.mode));
        assert !PowerlessOver(fs, euid, node.uid, dir);
      } else {
        var u := euid + 1;
        var ino := FreshIno(fs.nodes.Keys);
        assert CanRemove(WithLocalFile(fs, dir, [], ino, ROOT_UID), u, dir, []);
        assert Foreign(euid, u) && !PowerlessOver(fs, euid, u, dir);
      }
    }
  }

  // ----- which paths are accepted ------------------------------------------------------------------

  /** Where a path leads when every directory on it is stable and out of foreigners' power. */
  ghost function LeadsTo(fs: FileSystem, euid: Uid, current: Ino, path: seq<Name>, budget: nat): Option<Ino>
    decreases budget, |path|
  {
    if path == [] then Some(current)
    else if !fs.IsDirectory(current) then None
    else
      match path[0]
      case Dot => LeadsTo(fs, euid, current, path[1..], budget)
      case DotDot =>
        var up := fs.nodes[current].parent;
        if Safe(fs, euid, up) then LeadsTo(fs, euid, up, path[1..], budget) else None
      case Normal(n) =>
        if n !in fs.nodes[current].entries || fs.nodes[current].entries[n] !in fs.nodes then None
        else
          var entry := fs.nodes[current].entries[n];
          match fs.nodes[entry]
          case Directory(_, _, _, _, _) =>
            if Safe(fs, euid, entry) then LeadsTo(fs, euid, entry, path[1..], budget) else None
          case Symlink(owner, absolute, target) =>
            if Foreign(euid, owner) || budget == 0 || (absolute && !ForeignersPowerless(fs, euid, fs.root)) then None
            else LeadsTo(fs, euid, if absolute then fs.root else current, target + path[1..], budget - 1)
          case Other(_) => None
  }

  ghost predicate Safe(fs: FileSystem, euid: Uid, dir: Ino) {
    ForeignersPowerless(fs, euid, dir) && fs.nodes[dir].stable
  }

  lemma SafeAdmission(fs: FileSystem, euid: Uid, dir: Ino)
    ensures Safe(fs, euid, dir) <==> Admission(fs, euid, dir) == None
    ensures Admission(fs, euid, dir) == None ==> Local(fs, euid, dir)
  {
    TrustIsExact(fs, euid, dir);
  }

  /** The remaining verdict is acceptance exactly where the path leads somewhere. */
  lemma {:induction false} AheadExact(fs: FileSystem, euid: Uid, current: Ino, path: seq<Name>, budget: nat)
    requires fs.IsDirectory(current)
    ensures var end := LeadsTo(fs, euid, current, path, budget);
            if end.Some? then Ahead(fs, euid, current, path, budget) == Ok(end.value)
            else Ahead(fs, euid, current, path, budget).Err?
    decreases budget, |path|
  {
    if path != [] {
      match path[0]
      case Dot =>
        DotSkips(fs, current, path, budget);
        AheadExact(fs, euid, current, path[1..], budget);
      case DotDot => UpExact(fs, euid, current, path, budget);
      case Normal(n) =>
        if n !in fs.nodes[current].entries || fs.nodes[current].entries[n] !in fs.nodes {
          StepFails(fs, euid, current, path, budget);
        } else {
          match fs.nodes[fs.nodes[current].entries[n]]
          case Directory(_, _, _, _, _) => DownExact(fs, euid, current, path, budget);
          case Symlink(_, _, _) => LinkExact(fs, euid, current, path, budget);
          case Other(_) => StepFails(fs, euid, current, path, budget);
        }
    }
  }

  lemma {:induction false} UpExact(fs: FileSystem, euid: Uid, current: Ino, path: seq<Name>, budget: nat)
    requires fs.IsDirectory(current) && path != [] && path[0].DotDot?
    ensures var end := LeadsTo(fs, euid, current, path, budget);
            if end.Some? then Ahead(fs, euid, current, path, budget) == Ok(end.value)
            else Ahead(fs, euid, current, path, budget).Err?
    decreases budget, |path|, 0
  {
    var up := fs.nodes[current].parent;
    SafeAdmission(fs, euid, up);
    if fs.IsDirectory(up) {
      StepMoves(fs, euid, current, path, budget, Up(up), up);
      AheadExact(fs, euid, up, path[1..], budget);
    } else {
      StepFails(fs, euid, current, path, budget);
    }
  }

  lemma {:induction false} DownExact(fs: FileSystem, euid: Uid, current: Ino, path: seq<Name>, budget: nat)
    requires fs.IsDirectory(current) && path != [] && path[0].Normal? && path[0].name in fs.nodes[current].entries
    requires fs.IsDirectory(fs.nodes[current].entries[path[0].name])
    ensures var end := LeadsTo(fs, euid, current, path, budget);
            if end.Some? then Ahead(fs, euid, current, path, budget) == Ok(end.value)
            else Ahead(fs, euid, current, path, budget).Err?
    decreases budget, |path|, 0
  {
    var entry := fs.nodes[current].entries[path[0].name];
    SafeAdmission(fs, euid, entry);
    StepMoves(fs, euid, current, path, budget, Down(current, entry), entry);
    AheadExact(fs, euid, entry, path[1..], budget);
  }

  lemma {:induction false} LinkExact(fs: FileSystem, euid: Uid, current: Ino, path: seq<Name>, budget: nat)
    requires fs.IsDirectory(current) && path != [] && path[0].Normal? && path[0].name in fs.nodes[current].entries
    requires fs.nodes[current].entries[path[0].name] in fs.nodes
    requires fs.nodes[fs.nodes[current].entries[path[0].name]].Symlink?
    ensures var end := LeadsTo(fs, euid, current, path, budget);
            if end.Some? then Ahead(fs, euid, current, path, budget) == Ok(end.value)
            else Ahead(fs, euid, current, path, budget).Err?
    decreases budget, |path|, 0
  {
    var link := fs.nodes[current].entries[path[0].name];
    LinkSplices(fs, euid, current, path, budget, link);
    TrustIsExact(fs, euid, fs.root);
    var absolute, target := fs.nodes[link].absolute, fs.nodes[link].target;
    if budget > 0 && (absolute ==> TrustedDirectory(fs, euid, fs.root)) {
      AheadExact(fs, euid, if absolute then fs.root else current, target + path[1..], budget - 1);
    }
  }

  /**
   A path is accepted exactly when it is absolute, foreigners are powerless over the root, and it
   leads through stable directories they are powerless over, by local links within the budget;
   and then it is accepted at that directory.
   */
  lemma AcceptedExactly(fs: FileSystem, euid: Uid, absolute: bool, path: seq<Name>, d: Ino)
    ensures TrustedVerdict(fs, euid, absolute, path) == Ok(d) <==>
              && absolute && ForeignersPowerless(fs, euid, fs.root)
              && LeadsTo(fs, euid, fs.root, path, SYMLINK_BUDGET) == Some(d)
  {
    TrustIsExact(fs, euid, fs.root);
    if TrustedDirectory(fs, euid, fs.root) {
      AheadExact(fs, euid, fs.root, path, SYMLINK_BUDGET);
    }
  }

  /** An ordinary machine: a root-owned `/` and `/home` of mode 0755 and a private home are accepted. */
  lemma OrdinaryHomeAccepted(home: string, user: string)
    ensures var root := Directory(ROOT_UID, 0x1ED, map[home := 1], 0, true);
            var homes := Directory(ROOT_UID, 0x1ED, map[user := 2], 0, true);
            var mine := Directory(1000, 0x1C0, map[], 1, true);
            var fs := FileSystem(map[0 := root, 1 := homes, 2 := mine], 0);
            TrustedVerdict(fs, 1000, true, [Normal(home), Normal(user)]) == Ok(2)
  {
    var root := Directory(ROOT_UID, 0x1ED, map[home := 1], 0, true);
    var homes := Directory(ROOT_UID, 0x1ED, map[user := 2], 0, true);
    var mine := Directory(1000, 0x1C0, map[], 1, true);
    var fs := FileSystem(map[0 := root, 1 := homes, 2 := mine], 0);
    var path := [Normal(home), Normal(user)];
    OrdinaryModes();
    assert path[1..] == [Normal(user)] && [Normal(user)][1..] == [];
    StepMoves(fs, 1000, 0, path, SYMLINK_BUDGET, Down(0, 1), 1);
    StepMoves(fs, 1000, 1, [Normal(user)], SYMLINK_BUDGET, Down(1, 2), 2);
    assert Ahead(fs, 1000, 2, [], SYMLINK_BUDGET) == Ok(2);
  }

  /** What the two tests say of octal 0755, 0700, 0777, 1777, 0020 and 0002. */
  lemma OrdinaryModes()
    ensures !SharedWritable(0x1ED) && !Sticky(0x1ED) && !SharedWritable(0x1C0) && !Sticky(0x1C0)
    ensures SharedWritable(0x1FF) && !Sticky(0x1FF) && SharedWritable(0x3FF) && Sticky(0x3FF)
    ensures SharedWritable(0x10) && SharedWritable(0x02)
  {
  }
}
