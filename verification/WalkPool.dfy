/**
 The worker pool: any number of workers over one shared last-in-first-out queue, an
 active count and merged statistics, as a step relation over every interleaving.

 One step is one critical section or one unlocked scan.  A condition-variable wait
 is the state `Waiting`; `notify_all` makes every waiter `Ready` again, and a waiter
 may also wake spuriously.
 */
module WalkPool {
  import opened Wrappers
  import opened WalkAccounting
  import opened WalkTree
  import opened WalkFold

  datatype Worker =
    | Ready
    | Waiting
    | Scanning(item: Pending)
    | Scanned(item: Pending, expiry: Option<nat>)
    | Returned
  {
    predicate Busy() {
      Scanning? || Scanned?
    }
  }

  /**
   What an observer of the whole run could write down beside the shared state:
   directories fully consumed, everything lost to the deadline, child directories
   discovered by finished scans, and the exact number of directories left unvisited.
   */
  datatype Log = Log(consumed: multiset<Path>, lost: Ledger, discovered: nat, unvisited: nat)

  datatype Pool = Pool(queue: seq<Pending>, active: int, stats: Stats, workers: seq<Worker>, log: Log) {
    function Now(w: nat, worker: Worker): Pool
      requires w < |workers|
    {
      this.(workers := workers[w := worker])
    }

    function NotifyAll(): Pool {
      this.(workers := Awake(workers))
    }
  }

  function Awake(workers: seq<Worker>): seq<Worker> {
    seq(|workers|, i requires 0 <= i < |workers| => if workers[i].Waiting? then Ready else workers[i])
  }

  datatype Move =
    | Next(w: nat, expired: bool)
    | Consume(w: nat, expiry: Option<nat>)
    | Complete(w: nat)
    | Spurious(w: nat)

  predicate Enabled(s: Pool, move: Move) {
    && move.w < |s.workers|
    && match move
       case Next(w, _) => s.workers[w].Ready?
       case Consume(w, _) => s.workers[w].Scanning?
       case Complete(w) => s.workers[w].Scanned?
       case Spurious(w) => s.workers[w].Waiting?
  }

  function TruncatePending(o: WalkOptions, s: Pool): Pool {
    s.(queue := [],
       stats := s.stats.(truncated := true, unvisited := SaturatingAdd(s.stats.unvisited, Clamp(|s.queue|))),
       log := s.log.(lost := s.log.lost.Plus(ItemsFull(o, s.queue)), unvisited := s.log.unvisited + |s.queue|))
  }

  function Clamp(n: nat): U64 {
    if n > U64_MAX then U64_MAX else n
  }

  /** One pass of the `next_dir` loop under the lock. */
  function NextDir(o: WalkOptions, s: Pool, w: nat, expired: bool): Pool
    requires w < |s.workers|
  {
    if s.queue == [] && s.active == 0 then s.NotifyAll().Now(w, Returned)
    else if s.stats.truncated || expired then TruncatePending(o, s).NotifyAll().Now(w, Returned)
    else if s.queue != [] then
      var last := |s.queue| - 1;
      s.(queue := s.queue[..last], active := s.active + 1).Now(w, Scanning(s.queue[last]))
    else s.Now(w, Waiting)
  }

  function CompleteDir(o: WalkOptions, s: Pool, w: nat): Pool
    requires w < |s.workers| && s.workers[w].Scanned?
  {
    var item, expiry := s.workers[w].item, s.workers[w].expiry;
    var r := Consumed(o, item, expiry);
    var merged := s.stats.Merge(r.stats);
    var log := s.log.(consumed := s.log.consumed + Visited(item, expiry).visits,
                      lost := s.log.lost.Plus(CutOff(o, item, expiry)),
                      discovered := s.log.discovered + |r.dirs|,
                      unvisited := s.log.unvisited + r.stats.unvisited);
    var t :=
      if merged.truncated then
        s.(stats := merged.(unvisited := SaturatingAdd(merged.unvisited, Clamp(|r.dirs|))),
           log := log.(lost := log.lost.Plus(ItemsFull(o, r.dirs)), unvisited := log.unvisited + |r.dirs|))
      else
        s.(stats := merged, queue := s.queue + r.dirs, log := log);
    t.(active := s.active - 1).NotifyAll().Now(w, Ready)
  }

  function Apply(o: WalkOptions, s: Pool, move: Move): Pool
    requires Enabled(s, move)
  {
    match move
    case Next(w, expired) => NextDir(o, s, w, expired)
    case Consume(w, expiry) => s.Now(w, Scanned(s.workers[w].item, expiry))
    case Complete(w) => CompleteDir(o, s, w)
    case Spurious(w) => s.Now(w, Ready)
  }

  function Run(o: WalkOptions, s: Pool, moves: seq<Move>): Option<Pool>
    decreases |moves|
  {
    if moves == [] then Some(s)
    else if !Enabled(s, moves[0]) then None
    else Run(o, Apply(o, s, moves[0]), moves[1..])
  }

  /** What `measure` hands to the workers: the root, inspected, counted and opened. */
  function RootStats(root: Dir): Stats {
    Counted(STAT_OP).Merge(Counted(DirectoryTally(root.meta)))
  }

  function Start(root: Dir, workers: nat): Pool {
    Pool([Pending([], root)], 0, RootStats(root), seq(workers, _ => Ready), Log(multiset{}, EMPTY, 0, 0))
  }

  predicate AllReturned(s: Pool) {
    forall w :: 0 <= w < |s.workers| ==> s.workers[w].Returned?
  }

  // ----- conservation -------------------------------------------------------------------------

  function Load(o: WalkOptions, worker: Worker): Ledger {
    if worker.Busy() then ItemFull(o, worker.item) else EMPTY
  }

  function Held(o: WalkOptions, workers: seq<Worker>): Ledger {
    if workers == [] then EMPTY
    else Held(o, workers[..|workers| - 1]).Plus(Load(o, workers[|workers| - 1]))
  }

  function Outstanding(o: WalkOptions, s: Pool): Ledger {
    ItemsFull(o, s.queue).Plus(Held(o, s.workers))
  }

  function Settled(s: Pool): Ledger {
    Ledger(s.stats.tally, s.log.consumed).Plus(s.log.lost)
  }

  /** Nothing is counted twice and nothing disappears. */
  predicate Conserved(o: WalkOptions, root: Dir, s: Pool) {
    Settled(s).Plus(Outstanding(o, s)) == Note(RootStats(root)).Plus(Full(o, [], root))
  }

  lemma Rebase(a: Ledger, b: Ledger, last: Ledger, x: Ledger, y: Ledger)
    requires a.Plus(x) == b.Plus(y)
    ensures a.Plus(last).Plus(x) == b.Plus(last).Plus(y)
  {
    SwapLast(a, last, x);
    SwapLast(b, last, y);
  }

  lemma UpdateLast(ws: seq<Worker>, x: Worker)
    requires ws != []
    ensures ws[|ws| - 1 := x] == ws[..|ws| - 1] + [x]
  {
  }

  lemma UpdateInit(ws: seq<Worker>, w: nat, x: Worker)
    requires w < |ws| - 1
    ensures ws[w := x] == ws[..|ws| - 1][w := x] + [ws[|ws| - 1]]
  {
  }

  lemma HeldLast(o: WalkOptions, init: seq<Worker>, last: Worker)
    ensures Held(o, init + [last]) == Held(o, init).Plus(Load(o, last))
  {
    assert (init + [last])[..|init|] == init;
  }

  lemma {:induction false} HeldUpdate(o: WalkOptions, ws: seq<Worker>, w: nat, x: Worker)
    requires w < |ws|
    ensures Held(o, ws[w := x]).Plus(Load(o, ws[w])) == Held(o, ws).Plus(Load(o, x))
    decreases |ws|
  {
    var init, last := ws[..|ws| - 1], ws[|ws| - 1];
    SplitLast(ws);
    HeldLast(o, init, last);
    if w == |ws| - 1 {
      UpdateLast(ws, x);
      HeldLast(o, init, x);
      SwapLast(Held(o, init), Load(o, x), Load(o, last));
    } else {
      UpdateInit(ws, w, x);
      HeldLast(o, init[w := x], last);
      HeldUpdate(o, init, w, x);
      Rebase(Held(o, init[w := x]), Held(o, init), Load(o, last), Load(o, ws[w]), Load(o, x));
    }
  }

  lemma {:induction false} HeldAwake(o: WalkOptions, ws: seq<Worker>)
    ensures Held(o, Awake(ws)) == Held(o, ws)
    decreases |ws|
  {
    if ws != [] {
      assert Awake(ws)[..|ws| - 1] == Awake(ws[..|ws| - 1]);
      HeldAwake(o, ws[..|ws| - 1]);
    }
  }

  /** A worker that holds nothing takes `x`. */
  lemma HeldTakes(o: WalkOptions, ws: seq<Worker>, w: nat, x: Worker)
    requires w < |ws| && !ws[w].Busy()
    ensures Held(o, ws[w := x]) == Held(o, ws).Plus(Load(o, x))
  {
    HeldUpdate(o, ws, w, x);
    Neutral(Held(o, ws[w := x]));
  }

  /** A worker lets go of what it holds. */
  lemma HeldReleases(o: WalkOptions, ws: seq<Worker>, w: nat, x: Worker)
    requires w < |ws| && !x.Busy()
    ensures Held(o, ws[w := x]).Plus(Load(o, ws[w])) == Held(o, ws)
  {
    HeldUpdate(o, ws, w, x);
    Neutral(Held(o, ws));
  }

  lemma IdleMoves(o: WalkOptions, ws: seq<Worker>, w: nat, x: Worker)
    requires w < |ws| && !ws[w].Busy() && !x.Busy()
    ensures Held(o, ws[w := x]) == Held(o, ws)
  {
    HeldTakes(o, ws, w, x);
    Neutral(Held(o, ws));
  }

  lemma TruncateConserves(o: WalkOptions, s: Pool, ws: seq<Worker>)
    requires Held(o, ws) == Held(o, s.workers)
    ensures var t := TruncatePending(o, s).(workers := ws);
            Settled(t).Plus(Outstanding(o, t)) == Settled(s).Plus(Outstanding(o, s))
  {
    var base := Ledger(s.stats.tally, s.log.consumed);
    var lost, queue, held := s.log.lost, ItemsFull(o, s.queue), Held(o, s.workers);
    Neutral(held);
    Associates(base, lost, queue);
    Associates(base.Plus(lost), queue, held);
  }

  lemma TakeConserves(o: WalkOptions, s: Pool, w: nat)
    requires w < |s.workers| && s.workers[w].Ready? && s.queue != []
    ensures var last := |s.queue| - 1;
            var t := s.(queue := s.queue[..last], active := s.active + 1).Now(w, Scanning(s.queue[last]));
            Settled(t).Plus(Outstanding(o, t)) == Settled(s).Plus(Outstanding(o, s))
  {
    var last := |s.queue| - 1;
    var item := s.queue[last];
    HeldTakes(o, s.workers, w, Scanning(item));
    var rest, held := ItemsFull(o, s.queue[..last]), Held(o, s.workers);
    Associates(rest, ItemFull(o, item), held);
    Commutes(ItemFull(o, item), held);
  }

  lemma NextConserves(o: WalkOptions, s: Pool, w: nat, expired: bool)
    requires w < |s.workers| && s.workers[w].Ready?
    ensures var t := NextDir(o, s, w, expired);
            Settled(t).Plus(Outstanding(o, t)) == Settled(s).Plus(Outstanding(o, s))
  {
    if (s.queue == [] && s.active == 0) || s.stats.truncated || expired {
      HeldAwake(o, s.workers);
      IdleMoves(o, Awake(s.workers), w, Returned);
      TruncateConserves(o, s, Awake(s.workers)[w := Returned]);
    } else if s.queue != [] {
      TakeConserves(o, s, w);
    } else {
      IdleMoves(o, s.workers, w, Waiting);
    }
  }

  /** The completed scan's parts replace the item the worker held. */
  lemma CompleteParts(base: Ledger, lost: Ledger, queue: Ledger, held: Ledger,
                      done: Ledger, dirs: Ledger, cut: Ledger, item: Ledger)
    requires done.Plus(dirs).Plus(cut) == item
    ensures base.Plus(done).Plus(lost.Plus(cut)).Plus(queue.Plus(dirs).Plus(held))
         == base.Plus(lost).Plus(queue.Plus(held.Plus(item)))
    ensures base.Plus(done).Plus(lost.Plus(cut).Plus(dirs)).Plus(queue.Plus(held))
         == base.Plus(lost).Plus(queue.Plus(held.Plus(item)))
  {
    // both sides are base + lost + (queue + held) + (done + cut + dirs)
    var kept, rest := base.Plus(lost), queue.Plus(held);
    Associates(queue, held, item);
    Associates(kept, rest, item);
    Exchange(base, done, lost, cut);
    SwapLast(queue, dirs, held);
    assert base.Plus(done).Plus(lost.Plus(cut)).Plus(queue.Plus(dirs).Plus(held))
        == kept.Plus(done.Plus(cut)).Plus(rest.Plus(dirs));
    Exchange(kept, done.Plus(cut), rest, dirs);
    SwapLast(done, cut, dirs);
    Associates(base.Plus(done), lost.Plus(cut), dirs);
    assert base.Plus(done).Plus(lost.Plus(cut).Plus(dirs)).Plus(rest)
        == kept.Plus(done.Plus(cut)).Plus(dirs).Plus(rest);
    Associates(kept, done.Plus(cut), dirs);
    SwapLast(kept, item, rest);
  }

  /** Where a completed scan's parts end up. */
  lemma CompletedShape(o: WalkOptions, s: Pool, w: nat)
    requires w < |s.workers| && s.workers[w].Scanned?
    ensures var item, expiry := s.workers[w].item, s.workers[w].expiry;
            var r, t := Consumed(o, item, expiry), CompleteDir(o, s, w);
            var lost, dirs := s.log.lost.Plus(CutOff(o, item, expiry)), ItemsFull(o, r.dirs);
            && t.stats.tally == s.stats.tally.Plus(r.stats.tally)
            && t.log.consumed == s.log.consumed + Visited(item, expiry).visits
            && t.workers == Awake(s.workers)[w := Ready]
            && ((t.log.lost == lost && t.queue == s.queue + r.dirs)
                || (t.log.lost == lost.Plus(dirs) && t.queue == s.queue))
  {
  }

  lemma CompleteConserves(o: WalkOptions, s: Pool, w: nat)
    requires w < |s.workers| && s.workers[w].Scanned?
    ensures var t := CompleteDir(o, s, w);
            Settled(t).Plus(Outstanding(o, t)) == Settled(s).Plus(Outstanding(o, s))
  {
    var item, expiry := s.workers[w].item, s.workers[w].expiry;
    var r, t := Consumed(o, item, expiry), CompleteDir(o, s, w);
    CompletedShape(o, s, w);
    CompletedBase(s.stats, s.log.consumed, Visited(item, expiry), r.stats);
    CompletedHeld(o, s.workers, w);
    ConsumeConserves(o, item, expiry);
    ItemsAppend(o, s.queue, r.dirs);
    CompleteParts(Ledger(s.stats.tally, s.log.consumed), s.log.lost, ItemsFull(o, s.queue), Held(o, t.workers),
                  Visited(item, expiry).Plus(Note(r.stats)), ItemsFull(o, r.dirs), CutOff(o, item, expiry),
                  ItemFull(o, item));
  }

  lemma CompletedHeld(o: WalkOptions, ws: seq<Worker>, w: nat)
    requires w < |ws| && ws[w].Busy()
    ensures Held(o, Awake(ws)[w := Ready]).Plus(ItemFull(o, ws[w].item)) == Held(o, ws)
  {
    HeldAwake(o, ws);
    HeldReleases(o, Awake(ws), w, Ready);
  }

  lemma CompletedBase(stats: Stats, consumed: multiset<Path>, visited: Ledger, partial: Stats)
    requires visited.tally == ZERO
    ensures Ledger(stats.Merge(partial).tally, consumed + visited.visits)
         == Ledger(stats.tally, consumed).Plus(visited.Plus(Note(partial)))
  {
    PlusZero(partial.tally);
  }

  lemma MoveConserves(o: WalkOptions, s: Pool, move: Move)
    requires Enabled(s, move)
    ensures var t := Apply(o, s, move);
            Settled(t).Plus(Outstanding(o, t)) == Settled(s).Plus(Outstanding(o, s))
  {
    match move
    case Next(w, expired) => NextConserves(o, s, w, expired);
    case Consume(w, expiry) =>
      HeldUpdate(o, s.workers, w, Scanned(s.workers[w].item, expiry));
      SameHeld(o, s.workers, w, Scanned(s.workers[w].item, expiry));
    case Complete(w) => CompleteConserves(o, s, w);
    case Spurious(w) => IdleMoves(o, s.workers, w, Ready);
  }

  /** Holding the same item in another state changes nothing. */
  lemma {:induction false} SameHeld(o: WalkOptions, ws: seq<Worker>, w: nat, x: Worker)
    requires w < |ws| && Load(o, ws[w]) == Load(o, x)
    ensures Held(o, ws[w := x]) == Held(o, ws)
    decreases |ws|
  {
    var init, last := ws[..|ws| - 1], ws[|ws| - 1];
    SplitLast(ws);
    HeldLast(o, init, last);
    if w == |ws| - 1 {
      UpdateLast(ws, x);
      HeldLast(o, init, x);
    } else {
      UpdateInit(ws, w, x);
      HeldLast(o, init[w := x], last);
      SameHeld(o, init, w, x);
    }
  }
}
