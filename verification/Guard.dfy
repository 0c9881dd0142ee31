/**
 The guarded tree check: one no-follow traversal on a stack of directory iterators that
 stops at the first violation or protected name, against the preorder of the tree.
 */
module TreeGuard {
  import opened Wrappers

  type Mount = nat
  type Path = seq<nat>

  datatype Policy = Policy(requiredUid: Option<nat>, names: set<string>)

  /** One inspected tree node; a directory lists what its iterator yields. */
  datatype Node = Node(name: string, mount: Mount, uid: Option<nat>, mode: Option<bv32>, contents: Contents)

  datatype Contents = NotDirectory | Directory(entries: seq<Entry>)

  datatype Entry = Unreadable | Present(node: Node)

  datatype Violation =
    | RelativeRoot | MountBoundary | UidUnavailable | ForeignUid | ModeUnavailable | SharedDirectory | ReadFailed

  datatype Verdict = Clear | Found(path: Path) | Refused(why: Violation, path: Path)

  function RequireUid(policy: Policy, uid: Option<nat>): Option<Violation> {
    if policy.requiredUid.None? then None
    else if uid.None? then Some(UidUnavailable)
    else if uid.value == policy.requiredUid.value then None
    else Some(ForeignUid)
  }

  function RequirePrivate(policy: Policy, mode: Option<bv32>, isDirectory: bool): Option<Violation> {
    if policy.requiredUid.None? || !isDirectory then None
    else if mode.None? then Some(ModeUnavailable)
    else if mode.value & 0x12 == 0 then None
    else Some(SharedDirectory)
  }

  /** The checks that both the root and every descendant must pass. */
  function OwnerVerdict(policy: Policy, path: Path, node: Node): Verdict {
    var uid, private := RequireUid(policy, node.uid), RequirePrivate(policy, node.mode, node.contents.Directory?);
    if uid.Some? then Refused(uid.value, path)
    else if private.Some? then Refused(private.value, path)
    else Clear
  }

  function NodeVerdict(policy: Policy, mount: Mount, path: Path, node: Node): Verdict {
    if node.mount != mount then Refused(MountBoundary, path)
    else if !OwnerVerdict(policy, path, node).Clear? then OwnerVerdict(policy, path, node)
    else if node.name in policy.names then Found(path)
    else Clear
  }

  // ----- the reference: a list of events in preorder ---------------------------------------------

  datatype Event = Broken(dir: Path) | Seen(path: Path, node: Node)

  function EventVerdict(policy: Policy, mount: Mount, e: Event): Verdict {
    match e
    case Broken(dir) => Refused(ReadFailed, dir)
    case Seen(path, node) => NodeVerdict(policy, mount, path, node)
  }

  /** The descendants listed by `es` from index `i` on, each before its own descendants. */
  function Preorder(dir: Path, es: seq<Entry>, i: nat): seq<Event>
    requires i <= |es|
    decreases es, |es| - i
  {
    if i == |es| then [] else EntryPreorder(dir, i, es[i]) + Preorder(dir, es, i + 1)
  }

  function EntryPreorder(dir: Path, i: nat, e: Entry): seq<Event>
    decreases e
  {
    match e
    case Unreadable => [Broken(dir)]
    case Present(node) => [Seen(dir + [i], node)] + Below(dir + [i], node)
  }

  function Below(path: Path, node: Node): seq<Event>
    decreases node
  {
    match node.contents
    case NotDirectory => []
    case Directory(es) => Preorder(path, es, 0)
  }

  /** The node a path of entry indices leads to. */
  function At(es: seq<Entry>, q: Path): Option<Node>
    requires q != []
    decreases |q|
  {
    if q[0] >= |es| || es[q[0]].Unreadable? then None
    else if |q| == 1 then Some(es[q[0]].node)
    else if es[q[0]].node.contents.Directory? then At(es[q[0]].node.contents.entries, q[1..])
    else None
  }

  /** The preorder lists exactly the nodes of the tree. */
  lemma {:induction false} PreorderComplete(dir: Path, es: seq<Entry>, i: nat, p: Path, n: Node)
    requires i <= |es|
    ensures Seen(p, n) in Preorder(dir, es, i) <==>
              dir <= p && p != dir && p[|dir|] >= i && At(es, p[|dir|..]) == Some(n)
    decreases es, |es| - i
  {
    if i < |es| {
      EntryComplete(dir, i, es[i], p, n);
      PreorderComplete(dir, es, i + 1, p, n);
      assert Seen(p, n) in Preorder(dir, es, i) <==>
          Seen(p, n) in EntryPreorder(dir, i, es[i]) || Seen(p, n) in Preorder(dir, es, i + 1);
      PathStep(dir, es, i, p, n);
    }
  }

  /** A path through entry `i` either ends there or goes on below it. */
  lemma PathStep(dir: Path, es: seq<Entry>, i: nat, p: Path, n: Node)
    requires i < |es|
    ensures dir <= p && p != dir ==> (dir + [i] <= p <==> p[|dir|] == i)
    ensures dir + [i] <= p ==> dir <= p && p != dir
    ensures dir + [i] <= p ==>
              (At(es, p[|dir|..]) == Some(n) <==>
                 && es[i].Present?
                 && if p == dir + [i] then n == es[i].node
                    else es[i].node.contents.Directory? && At(es[i].node.contents.entries, p[|dir| + 1..]) == Some(n))
  {
    if dir <= p && p != dir {
      var q := p[|dir|..];
      assert q[0] == p[|dir|] && q[1..] == p[|dir| + 1..];
    }
  }

  lemma {:induction false} EntryComplete(dir: Path, i: nat, e: Entry, p: Path, n: Node)
    ensures Seen(p, n) in EntryPreorder(dir, i, e) <==>
              && e.Present? && dir + [i] <= p
              && if p == dir + [i] then n == e.node
                 else e.node.contents.Directory? && At(e.node.contents.entries, p[|dir| + 1..]) == Some(n)
    decreases e
  {
    if e.Present? && e.node.contents.Directory? {
      PreorderComplete(dir + [i], e.node.contents.entries, 0, p, n);
    }
  }

  /** The verdict of the first event that is not clear. */
  function First(policy: Policy, mount: Mount, events: seq<Event>): Verdict {
    if events == [] then Clear
    else if EventVerdict(policy, mount, events[0]).Clear? then First(policy, mount, events[1..])
    else EventVerdict(policy, mount, events[0])
  }

  /** Clear exactly when every event is; otherwise an event's verdict with only clear ones before it. */
  lemma {:induction false} FirstMeaning(policy: Policy, mount: Mount, events: seq<Event>)
    ensures First(policy, mount, events).Clear? <==>
              forall k :: 0 <= k < |events| ==> EventVerdict(policy, mount, events[k]).Clear?
    ensures !First(policy, mount, events).Clear? ==>
              exists k :: && 0 <= k < |events|
                          && EventVerdict(policy, mount, events[k]) == First(policy, mount, events)
                          && forall j :: 0 <= j < k ==> EventVerdict(policy, mount, events[j]).Clear?
    decreases |events|
  {
    if events != [] && EventVerdict(policy, mount, events[0]).Clear? {
      var rest := events[1..];
      FirstMeaning(policy, mount, rest);
      if First(policy, mount, rest).Clear? {
        forall k | 0 <= k < |events|
          ensures EventVerdict(policy, mount, events[k]).Clear?
        {
          assert k > 0 ==> events[k] == rest[k - 1];
        }
      } else {
        var k :| && 0 <= k < |rest|
                 && EventVerdict(policy, mount, rest[k]) == First(policy, mount, rest)
                 && forall j :: 0 <= j < k ==> EventVerdict(policy, mount, rest[j]).Clear?;
        assert events[k + 1] == rest[k];
        forall j | 0 <= j < k + 1
          ensures EventVerdict(policy, mount, events[j]).Clear?
        {
          assert j > 0 ==> events[j] == rest[j - 1];
        }
      }
    }
  }

  // ----- the stack of iterators -------------------------------------------------------------------

  datatype Iterator = Iterator(path: Path, entries: seq<Entry>, next: nat) {
    predicate Valid() {
      next <= |entries|
    }
  }

  predicate ValidStack(pending: seq<Iterator>) {
    forall i :: 0 <= i < |pending| ==> pending[i].Valid()
  }

  /** What the stack will still yield, innermost directory first. */
  function Ahead(pending: seq<Iterator>): seq<Event>
    requires ValidStack(pending)
    decreases |pending|
  {
    if pending == [] then []
    else
      var top := pending[|pending| - 1];
      Preorder(top.path, top.entries, top.next) + Ahead(pending[..|pending| - 1])
  }

  function NodeWeight(node: Node): (w: nat)
    ensures w > 0
    decreases node
  {
    match node.contents
    case NotDirectory => 1
    case Directory(es) => 2 + EntriesWeight(es, 0)
  }

  function EntriesWeight(es: seq<Entry>, i: nat): nat
    requires i <= |es|
    decreases es, |es| - i
  {
    if i == |es| then 0
    else EntryWeight(es[i]) + EntriesWeight(es, i + 1)
  }

  function EntryWeight(e: Entry): (w: nat)
    ensures w > 0
    decreases e
  {
    if e.Present? then NodeWeight(e.node) else 1
  }

  /** Calls to the iterators still to come, bounding the loop. */
  function Weight(pending: seq<Iterator>): nat
    requires ValidStack(pending)
    decreases |pending|
  {
    if pending == [] then 0
    else
      var top := pending[|pending| - 1];
      1 + EntriesWeight(top.entries, top.next) + Weight(pending[..|pending| - 1])
  }

  lemma Pushed(rest: seq<Iterator>, top: Iterator)
    requires ValidStack(rest) && top.Valid()
    ensures ValidStack(rest + [top])
    ensures Ahead(rest + [top]) == Preorder(top.path, top.entries, top.next) + Ahead(rest)
    ensures Weight(rest + [top]) == 1 + EntriesWeight(top.entries, top.next) + Weight(rest)
  {
    assert (rest + [top])[..|rest|] == rest;
  }

  lemma Reassociate(a: seq<Event>, b: seq<Event>, c: seq<Event>)
    ensures (a + b) + c == a + (b + c)
  {
  }

  /** The iterator advances past a node without entering it. */
  lemma Advanced(rest: seq<Iterator>, top: Iterator)
    requires ValidStack(rest) && top.next < |top.entries|
    ensures ValidStack(rest + [top]) && ValidStack(rest + [top.(next := top.next + 1)])
    ensures Ahead(rest + [top])
         == EntryPreorder(top.path, top.next, top.entries[top.next]) + Ahead(rest + [top.(next := top.next + 1)])
    ensures Weight(rest + [top.(next := top.next + 1)]) < Weight(rest + [top])
  {
    Pushed(rest, top);
    Pushed(rest, top.(next := top.next + 1));
    var entry := EntryPreorder(top.path, top.next, top.entries[top.next]);
    var others := Preorder(top.path, top.entries, top.next + 1);
    Reassociate(entry, others, Ahead(rest));
  }

  /** The iterator advances past a directory and the directory is entered next. */
  lemma Entered(rest: seq<Iterator>, top: Iterator, node: Node)
    requires ValidStack(rest) && top.next < |top.entries|
    requires top.entries[top.next] == Present(node) && node.contents.Directory?
    ensures var advanced := top.(next := top.next + 1);
            var inner := Iterator(top.path + [top.next], node.contents.entries, 0);
            && ValidStack(rest + [top]) && ValidStack(rest + [advanced] + [inner])
            && Ahead(rest + [top]) == [Seen(top.path + [top.next], node)] + Ahead(rest + [advanced] + [inner])
            && Weight(rest + [advanced] + [inner]) < Weight(rest + [top])
  {
    var advanced := top.(next := top.next + 1);
    var inner := Iterator(top.path + [top.next], node.contents.entries, 0);
    Advanced(rest, top);
    Pushed(rest, top);
    Pushed(rest, advanced);
    Pushed(rest + [advanced], inner);
    assert EntriesWeight(top.entries, top.next)
        == EntryWeight(top.entries[top.next]) + EntriesWeight(top.entries, top.next + 1);
    assert EntryWeight(top.entries[top.next]) == 2 + EntriesWeight(inner.entries, 0);
    var seen, below := [Seen(top.path + [top.next], node)], Below(top.path + [top.next], node);
    Reassociate(seen, below, Ahead(rest + [advanced]));
  }

  lemma FirstStep(policy: Policy, mount: Mount, e: Event, events: seq<Event>)
    ensures First(policy, mount, [e] + events) ==
              if EventVerdict(policy, mount, e).Clear? then First(policy, mount, events) else EventVerdict(policy, mount, e)
  {
    assert ([e] + events)[1..] == events;
  }

  /** The stack after the top iterator yielded its next entry without a violation. */
  function Continued(rest: seq<Iterator>, top: Iterator): seq<Iterator>
    requires top.next < |top.entries|
  {
    var advanced := rest + [top.(next := top.next + 1)];
    match top.entries[top.next]
    case Unreadable => advanced
    case Present(node) =>
      if node.contents.Directory?
      then advanced + [Iterator(top.path + [top.next], node.contents.entries, 0)]
      else advanced
  }

  function Yielded(top: Iterator): Event
    requires top.next < |top.entries|
  {
    match top.entries[top.next]
    case Unreadable => Broken(top.path)
    case Present(node) => Seen(top.path + [top.next], node)
  }

  /** One turn of the loop consumes one event and shrinks the stack's weight. */
  lemma Turn(rest: seq<Iterator>, top: Iterator)
    requires ValidStack(rest) && top.next < |top.entries|
    ensures ValidStack(rest + [top]) && ValidStack(Continued(rest, top))
    ensures Ahead(rest + [top]) == [Yielded(top)] + Ahead(Continued(rest, top))
    ensures Weight(Continued(rest, top)) < Weight(rest + [top])
  {
    Advanced(rest, top);
    if top.entries[top.next].Present? && top.entries[top.next].node.contents.Directory? {
      Entered(rest, top, top.entries[top.next].node);
    }
  }

  lemma Popped(rest: seq<Iterator>, top: Iterator)
    requires ValidStack(rest) && top.next == |top.entries|
    ensures ValidStack(rest + [top]) && Ahead(rest + [top]) == Ahead(rest) && Weight(rest) < Weight(rest + [top])
  {
    Pushed(rest, top);
    assert [] + Ahead(rest) == Ahead(rest);
  }

  /** The iterator stack reports the first violation or protected name in preorder. */
  method Find(policy: Policy, mount: Mount, root: seq<Entry>) returns (r: Verdict)
    ensures r == First(policy, mount, Preorder([], root, 0))
  {
    var pending := [Iterator([], root, 0)];
    StartStack(root);
    while pending != []
      invariant ValidStack(pending)
      invariant First(policy, mount, Ahead(pending)) == First(policy, mount, Preorder([], root, 0))
      decreases Weight(pending)
    {
      var rest, top := pending[..|pending| - 1], pending[|pending| - 1];
      assert pending == rest + [top];
      if top.next == |top.entries| {
        Popped(rest, top);
        pending := rest;
      } else {
        Turn(rest, top);
        FirstStep(policy, mount, Yielded(top), Ahead(Continued(rest, top)));
        match top.entries[top.next] {
          case Unreadable =>
            return Refused(ReadFailed, top.path);
          case Present(node) =>
            var own := NodeVerdict(policy, mount, top.path + [top.next], node);
            if !own.Clear? {
              return own;
            }
        }
        pending := Continued(rest, top);
      }
    }
    r := Clear;
  }

  lemma StartStack(root: seq<Entry>)
    ensures Ahead([Iterator([], root, 0)]) == Preorder([], root, 0)
  {
    Pushed([], Iterator([], root, 0));
    assert [] + [Iterator([], root, 0)] == [Iterator([], root, 0)];
  }

  // ----- the whole check ------------------------------------------------------------------------

  datatype Root = Root(node: Node, parentMount: Option<Mount>)

  /** Every descendant, read failures included. */
  function Descendants(node: Node): seq<Event> {
    Below([], node)
  }

  method FindNamed(policy: Policy, absolute: bool, root: Root) returns (r: Verdict)
    ensures r.Clear? <==>
              && absolute
              && (root.parentMount.Some? ==> root.parentMount.value == root.node.mount)
              && OwnerVerdict(policy, [], root.node).Clear?
              && forall k :: 0 <= k < |Descendants(root.node)| ==>
                   EventVerdict(policy, root.node.mount, Descendants(root.node)[k]).Clear?
    ensures !absolute ==> r == Refused(RelativeRoot, [])
    ensures absolute && root.parentMount.Some? && root.parentMount.value != root.node.mount ==>
              r == Refused(MountBoundary, [])
    ensures absolute && (root.parentMount.Some? ==> root.parentMount.value == root.node.mount) ==>
              OwnerVerdict(policy, [], root.node).Clear? || r == OwnerVerdict(policy, [], root.node)
    ensures absolute && (root.parentMount.Some? ==> root.parentMount.value == root.node.mount)
            && OwnerVerdict(policy, [], root.node).Clear? && !r.Clear? ==>
              exists k :: && 0 <= k < |Descendants(root.node)|
                          && EventVerdict(policy, root.node.mount, Descendants(root.node)[k]) == r
                          && forall j :: 0 <= j < k ==>
                               EventVerdict(policy, root.node.mount, Descendants(root.node)[j]).Clear?
  {
    if !absolute {
      return Refused(RelativeRoot, []);
    }
    if root.parentMount.Some? && root.parentMount.value != root.node.mount {
      return Refused(MountBoundary, []);
    }
    var own := OwnerVerdict(policy, [], root.node);
    if !own.Clear? {
      return own;
    }
    FirstMeaning(policy, root.node.mount, Descendants(root.node));
    match root.node.contents
    case NotDirectory => r := Clear;
    case Directory(es) => r := Find(policy, root.node.mount, es);
  }

  /** What a clear descendant guarantees, rule by rule. */
  lemma ClearMeaning(policy: Policy, mount: Mount, path: Path, node: Node)
    ensures NodeVerdict(policy, mount, path, node).Clear? <==>
              && node.mount == mount
              && node.name !in policy.names
              && (policy.requiredUid.Some? ==>
                    node.uid == policy.requiredUid
                    && (node.contents.Directory? ==> node.mode.Some? && node.mode.value & 0x12 == 0))
  {
    assert policy.requiredUid.Some? && node.uid.Some? ==>
        (node.uid == policy.requiredUid <==> node.uid.value == policy.requiredUid.value);
  }

  /** The faults a single node can have, in the order in which one is reported. */
  predicate Faulty(policy: Policy, mount: Mount, node: Node, why: Violation) {
    match why
    case MountBoundary => node.mount != mount
    case UidUnavailable => policy.requiredUid.Some? && node.uid == None
    case ForeignUid => policy.requiredUid.Some? && node.uid.Some? && node.uid != policy.requiredUid
    case ModeUnavailable => policy.requiredUid.Some? && node.contents.Directory? && node.mode == None
    case SharedDirectory =>
      policy.requiredUid.Some? && node.contents.Directory? && node.mode.Some? && node.mode.value & 0x12 != 0
    case RelativeRoot => false
    case ReadFailed => false
  }

  function Urgency(why: Violation): nat {
    match why
    case RelativeRoot | MountBoundary => 0
    case UidUnavailable | ForeignUid => 1
    case ModeUnavailable | SharedDirectory => 2
    case ReadFailed => 3
  }

  /** A refusal names the most urgent fault, and a protected name counts only on a faultless node. */
  lemma RefusalMeaning(policy: Policy, mount: Mount, path: Path, node: Node, why: Violation, q: Path)
    ensures NodeVerdict(policy, mount, path, node) == Refused(why, q) <==>
              && q == path && Faulty(policy, mount, node, why)
              && forall other :: Faulty(policy, mount, node, other) ==> Urgency(why) <= Urgency(other)
    ensures NodeVerdict(policy, mount, path, node) == Found(q) <==>
              && q == path && node.name in policy.names
              && forall other :: !Faulty(policy, mount, node, other)
  {
    var v := NodeVerdict(policy, mount, path, node);
    assert policy.requiredUid.Some? && node.uid.Some? ==>
        (node.uid == policy.requiredUid <==> node.uid.value == policy.requiredUid.value);
    if v.Refused? {
      assert Faulty(policy, mount, node, v.why);
      assert Faulty(policy, mount, node, why) && Urgency(why) <= Urgency(v.why) ==> why == v.why;
    } else {
      assert !Faulty(policy, mount, node, why);
    }
  }
}
