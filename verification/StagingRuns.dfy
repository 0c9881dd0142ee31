/** One-shot purge authority over every sequence of operations on one engine. */
module StagingRuns {
  import opened Wrappers
  import opened Staging

  /**
   The engine, the authorities handed out and not yet consumed, and the transactions
   whose purge or undo was reported as committed.
   */
  datatype World = World(engine: Engine, authorities: seq<Authority>, purged: multiset<Tx>, undone: multiset<Tx>)

  datatype Op =
    | Request(tx: Tx, request: RequestFacts)
    | Execute(index: nat, execute: ExecuteFacts)
    | Undo(tx: Tx, undo: UndoFacts)
    | Drop(index: nat)
    | Foreign(authority: Authority)                // one from another engine generation turns up
    | Begin(tx: Tx)                                // a new transaction is prepared
    | Other(tx: Tx, to: State, durable: bool)      // any other record any other operation writes

  predicate Enabled(w: World, op: Op) {
    match op
    case Execute(i, _) => i < |w.authorities|
    case Drop(i) => i < |w.authorities|
    case Foreign(a) => a.generation != w.engine.generation
    case Begin(tx) => tx !in w.engine.wal.states && !w.engine.wal.poisoned
    case _ => true
  }

  function Without<T>(s: seq<T>, i: nat): seq<T>
    requires i < |s|
  {
    s[..i] + s[i + 1..]
  }

  function Step(w: World, op: Op): World
    requires Enabled(w, op)
  {
    match op
    case Request(tx, f) =>
      var r := RequestPurge(w.engine, tx, f);
      w.(engine := r.0, authorities := if r.1.Some? then w.authorities + [r.1.value] else w.authorities)
    case Execute(i, f) =>
      var a := w.authorities[i];
      var r := ExecutePurge(w.engine, a, f);
      w.(engine := r.0, authorities := Without(w.authorities, i),
         purged := if r.1 then w.purged + multiset{a.tx} else w.purged)
    case Undo(tx, f) =>
      var r := UndoVerified(w.engine, tx, f);
      w.(engine := r.0, undone := if r.1 then w.undone + multiset{tx} else w.undone)
    case Drop(i) => w.(authorities := Without(w.authorities, i))
    case Foreign(a) => w.(authorities := w.authorities + [a])
    case Begin(tx) => w.(engine := w.engine.With(w.engine.wal.Written(tx, Prepared)))
    case Other(tx, to, durable) => w.(engine := w.engine.With(w.engine.wal.Append(tx, to, durable)))
  }

  function Run(w: World, ops: seq<Op>): Option<World>
    decreases |ops|
  {
    if ops == [] then Some(w)
    else if !Enabled(w, ops[0]) then None
    else Run(Step(w, ops[0]), ops[1..])
  }

  /** A newly opened engine over a log that earlier runs wrote under the same table. */
  predicate Fresh(w: World) {
    w.engine.issued == {} && w.authorities == [] && w.purged == multiset{} && w.undone == multiset{}
    && LogOk(w.engine.wal)
  }

  // ----- sides of the log ------------------------------------------------------------------------

  predicate HistoryOk(w: Wal) {
    forall tx :: tx in w.states ==> SideOk(w, tx)
  }

  predicate SideOk(w: Wal, tx: Tx)
    requires tx in w.states
  {
    && (Record(tx, UndoIntent) in w.records ==> UndoSide(w.states[tx]))
    && (Record(tx, Purgeable) in w.records ==> PurgeSide(w.states[tx]))
    && !(Record(tx, UndoIntent) in w.records && Record(tx, Purgeable) in w.records)
    && (Record(tx, PurgeIntent) in w.records ==> Record(tx, Purgeable) in w.records)
    && (PurgeSide(w.states[tx]) && !w.states[tx].RecoveryRequired? ==> Record(tx, Purgeable) in w.records)
  }

  predicate RecordsKnown(w: Wal) {
    forall i :: 0 <= i < |w.records| ==> w.records[i].tx in w.states
  }

  predicate LogOk(w: Wal) {
    RecordsKnown(w) && HistoryOk(w)
  }

  lemma WrittenOk(w: Wal, tx: Tx, to: State)
    requires LogOk(w)
    requires if tx in w.states then ValidTransition(w.states[tx], to) else to.Prepared?
    ensures LogOk(w.Written(tx, to))
  {
    var w' := w.Written(tx, to);
    if tx in w.states {
      SidesAreKept(w.states[tx], to);
      assert SideOk(w, tx);
    }
    forall t | t in w'.states
      ensures SideOk(w', t)
    {
      assert t != tx ==> SideOk(w, t);
    }
  }

  lemma AppendOk(w: Wal, tx: Tx, to: State, durable: bool)
    requires LogOk(w)
    ensures LogOk(w.Append(tx, to, durable))
  {
    if w.Accepts(tx, to) {
      WrittenOk(w, tx, to);
    }
  }

  lemma {:induction false} ProgressOk(w: Wal, tx: Tx, path: seq<State>, fate: Fate)
    requires LogOk(w)
    ensures LogOk(Progress(w, tx, path, fate))
    decreases |path|
  {
    if path != [] && w.Accepts(tx, path[0]) {
      WrittenOk(w, tx, path[0]);
      if fate.steps > 0 {
        ProgressOk(w.Written(tx, path[0]), tx, path[1..], Fate(fate.steps - 1, fate.poisons));
      }
    }
  }

  // ----- transactions do not lose their side ---------------------------------------------------------

  /** Terminal states stay, sides stay, and no transaction disappears. */
  predicate Forward(w: Wal, w': Wal) {
    forall tx :: tx in w.states ==>
      && tx in w'.states
      && (Terminal(w.states[tx]) ==> w'.states[tx] == w.states[tx])
      && (PurgeSide(w.states[tx]) ==> PurgeSide(w'.states[tx]))
  }

  lemma AppendForward(w: Wal, tx: Tx, to: State, durable: bool)
    ensures Forward(w, w.Append(tx, to, durable))
  {
    if w.Accepts(tx, to) {
      SidesAreKept(w.states[tx], to);
    }
  }

  lemma {:induction false} ProgressForward(w: Wal, tx: Tx, path: seq<State>, fate: Fate)
    ensures Forward(w, Progress(w, tx, path, fate))
    decreases |path|
  {
    if path != [] && fate.steps > 0 && w.Accepts(tx, path[0]) {
      AppendForward(w, tx, path[0], true);
      ProgressForward(w.Written(tx, path[0]), tx, path[1..], Fate(fate.steps - 1, fate.poisons));
    }
  }

  lemma {:induction false} CompletesEnds(w: Wal, tx: Tx, path: seq<State>, fate: Fate)
    requires path != [] && Completes(w, tx, path, fate)
    ensures tx in Progress(w, tx, path, fate).states
    ensures Progress(w, tx, path, fate).states[tx] == path[|path| - 1]
    decreases |path|
  {
    if |path| > 1 {
      CompletesEnds(w.Written(tx, path[0]), tx, path[1..], Fate(fate.steps - 1, fate.poisons));
    }
  }

  // ----- the invariant -------------------------------------------------------------------------------

  /** The authority is this engine's own, so it is on the issued list and past the committed state. */
  predicate Live(e: Engine, a: Authority) {
    a.generation == e.generation ==>
      a.tx in e.issued && a.tx in e.wal.states && PurgeSide(e.wal.states[a.tx])
  }

  predicate OneEach(generation: nat, s: seq<Authority>) {
    forall i, j :: 0 <= i < j < |s| && s[i].generation == generation && s[j].generation == generation ==>
      s[i].tx != s[j].tx
  }

  predicate AuthoritiesOk(w: World) {
    && (forall i :: 0 <= i < |w.authorities| ==> Live(w.engine, w.authorities[i]))
    && OneEach(w.engine.generation, w.authorities)
  }

  predicate OutcomesOk(w: World) {
    && (forall tx :: tx in w.purged ==>
          tx in w.engine.wal.states && w.engine.wal.states[tx].Purged? && w.purged[tx] == 1)
    && (forall tx :: tx in w.undone ==>
          tx in w.engine.wal.states && w.engine.wal.states[tx].Restored? && w.undone[tx] == 1)
  }

  predicate Inv(w: World) {
    LogOk(w.engine.wal) && AuthoritiesOk(w) && OutcomesOk(w)
  }

  /** An engine whose log moved forward and whose issued list did not shrink keeps its authorities. */
  lemma AuthoritiesForward(w: World, e: Engine)
    requires AuthoritiesOk(w) && Forward(w.engine.wal, e.wal)
    requires e.generation == w.engine.generation && w.engine.issued <= e.issued
    ensures AuthoritiesOk(w.(engine := e))
  {
    forall i | 0 <= i < |w.authorities|
      ensures Live(e, w.authorities[i])
    {
      assert Live(w.engine, w.authorities[i]);
    }
  }

  lemma OutcomesForward(w: World, e: Engine)
    requires OutcomesOk(w) && Forward(w.engine.wal, e.wal)
    ensures OutcomesOk(w.(engine := e))
  {
  }

  lemma ForwardInv(w: World, e: Engine)
    requires Inv(w) && Forward(w.engine.wal, e.wal) && LogOk(e.wal)
    requires e.generation == w.engine.generation && w.engine.issued <= e.issued
    ensures Inv(w.(engine := e))
  {
    AuthoritiesForward(w, e);
    OutcomesForward(w, e);
  }

  lemma DropInv(w: World, i: nat)
    requires Inv(w) && i < |w.authorities|
    ensures Inv(w.(authorities := Without(w.authorities, i)))
  {
    var rest := Without(w.authorities, i);
    forall k | 0 <= k < |rest|
      ensures rest[k] == w.authorities[if k < i then k else k + 1]
    {
    }
  }

  lemma RequestInv(w: World, tx: Tx, f: RequestFacts)
    requires Inv(w)
    ensures Inv(Step(w, Request(tx, f)))
  {
    var e := w.engine;
    var r := RequestPurge(e, tx, f);
    RequestForward(e, tx, f);
    ForwardInv(w, r.0);
    if r.1.Some? {
      NewAuthority(w.(engine := r.0), e, tx);
    }
  }

  /** What a request leaves behind, and when it may hand out an authority. */
  lemma RequestForward(e: Engine, tx: Tx, f: RequestFacts)
    requires LogOk(e.wal)
    ensures var r := RequestPurge(e, tx, f);
            && Forward(e.wal, r.0.wal) && LogOk(r.0.wal)
            && r.0.generation == e.generation && e.issued <= r.0.issued
            && (r.1.Some? ==>
                  && r.1.value == Authority(tx, e.generation) && r.0.issued == e.issued + {tx}
                  && tx in e.wal.states && tx in r.0.wal.states && r.0.wal.states[tx].Purgeable?
                  && (e.wal.states[tx].VerifiedCommitted? || tx !in e.issued))
  {
    var (to, durable) := Recorded(f);
    AppendForward(e.wal, tx, to, durable);
    AppendOk(e.wal, tx, to, durable);
    RequestAppends(e, tx, f);
  }

  /** The one record a purge request may write. */
  function Recorded(f: RequestFacts): (State, bool) {
    if f.rebinding.Stale? then (RecoveryRequired, f.rebinding.durable)
    else if f.verification.TreeChanged? then (RecoveryRequired, f.verification.durable)
    else (Purgeable, f.verification.Exact? && f.verification.durable)
  }

  lemma RequestAppends(e: Engine, tx: Tx, f: RequestFacts)
    ensures var r := RequestPurge(e, tx, f).0;
            || r.wal == e.wal
            || r.wal == e.wal.Append(tx, Recorded(f).0, Recorded(f).1)
  {
  }

  /** A transaction that was committed or unissued had no live authority before. */
  lemma NewAuthority(w: World, before: Engine, tx: Tx)
    requires Inv(w) && w.engine.generation == before.generation
    requires forall i :: 0 <= i < |w.authorities| ==> Live(before, w.authorities[i])
    requires tx in before.wal.states && (before.wal.states[tx].VerifiedCommitted? || tx !in before.issued)
    requires tx in w.engine.issued && tx in w.engine.wal.states && w.engine.wal.states[tx].Purgeable?
    ensures Inv(w.(authorities := w.authorities + [Authority(tx, before.generation)]))
  {
    forall i | 0 <= i < |w.authorities| && w.authorities[i].generation == before.generation
      ensures w.authorities[i].tx != tx
    {
      assert Live(before, w.authorities[i]);
    }
  }

  lemma ExecuteForward(e: Engine, a: Authority, f: ExecuteFacts)
    requires LogOk(e.wal)
    ensures var r := ExecutePurge(e, a, f);
            && Forward(e.wal, r.0.wal) && LogOk(r.0.wal) && r.0.generation == e.generation
            && e.issued - {a.tx} <= r.0.issued
            && (a.generation != e.generation ==> r.0 == e)
            && (r.1 ==> a.tx in e.wal.states && !Terminal(e.wal.states[a.tx])
                        && a.tx in r.0.wal.states && r.0.wal.states[a.tx].Purged?)
  {
    ProgressForward(e.wal, a.tx, PURGE, f.fate);
    ProgressOk(e.wal, a.tx, PURGE, f.fate);
    if Completes(e.wal, a.tx, PURGE, f.fate) {
      CompletesEnds(e.wal, a.tx, PURGE, f.fate);
    }
  }

  lemma ExecuteInv(w: World, i: nat, f: ExecuteFacts)
    requires Inv(w) && i < |w.authorities|
    ensures Inv(Step(w, Execute(i, f)))
  {
    var e, a := w.engine, w.authorities[i];
    var r := ExecutePurge(e, a, f);
    var rest := w.(authorities := Without(w.authorities, i));
    ExecuteForward(e, a, f);
    DropInv(w, i);
    ConsumedAuthorities(w, i, r.0);
    OutcomesForward(rest, r.0);
    if r.1 {
      assert a.tx !in w.purged && a.tx !in w.undone;
    }
  }

  /** Consuming an authority is the only thing that may take its transaction off the issued list. */
  lemma ConsumedAuthorities(w: World, i: nat, e: Engine)
    requires AuthoritiesOk(w) && i < |w.authorities| && Forward(w.engine.wal, e.wal)
    requires e.generation == w.engine.generation
    requires w.engine.issued - {w.authorities[i].tx} <= e.issued
    requires w.authorities[i].generation != e.generation ==> e == w.engine
    ensures AuthoritiesOk(w.(engine := e, authorities := Without(w.authorities, i)))
  {
    var rest := Without(w.authorities, i);
    forall k | 0 <= k < |rest|
      ensures rest[k] == w.authorities[if k < i then k else k + 1] && Live(e, rest[k])
    {
      assert Live(w.engine, w.authorities[if k < i then k else k + 1]);
    }
  }

  lemma UndoInv(w: World, tx: Tx, f: UndoFacts)
    requires Inv(w)
    ensures Inv(Step(w, Undo(tx, f)))
  {
    var e := w.engine;
    var r := UndoVerified(e, tx, f);
    UndoForward(e, tx, f);
    ForwardInv(w, r.0);
    if r.1 {
      assert tx !in w.purged && tx !in w.undone;
    }
  }

  lemma ForwardTransitive(a: Wal, b: Wal, c: Wal)
    requires Forward(a, b) && Forward(b, c)
    ensures Forward(a, c)
  {
  }

  lemma UndoForward(e: Engine, tx: Tx, f: UndoFacts)
    requires LogOk(e.wal)
    ensures var r := UndoVerified(e, tx, f);
            && Forward(e.wal, r.0.wal) && LogOk(r.0.wal) && r.0.generation == e.generation && r.0.issued == e.issued
            && (r.1 ==> tx in e.wal.states && !Terminal(e.wal.states[tx])
                        && tx in r.0.wal.states && r.0.wal.states[tx].Restored?)
  {
    var path := UndoPath(f);
    var w := Progress(e.wal, tx, path, f.fate);
    ProgressForward(e.wal, tx, path, f.fate);
    ProgressOk(e.wal, tx, path, f.fate);
    if Completes(e.wal, tx, path, f.fate) {
      CompletesEnds(e.wal, tx, path, f.fate);
    } else if f.abandons.Some? {
      AppendForward(w, tx, RecoveryRequired, f.abandons.value);
      AppendOk(w, tx, RecoveryRequired, f.abandons.value);
      ForwardTransitive(e.wal, w, w.Append(tx, RecoveryRequired, f.abandons.value));
    }
  }

  lemma StepInv(w: World, op: Op)
    requires Inv(w) && Enabled(w, op)
    ensures Inv(Step(w, op)) && Step(w, op).engine.generation == w.engine.generation
  {
    match op
    case Request(tx, f) => RequestInv(w, tx, f); RequestForward(w.engine, tx, f);
    case Execute(i, f) => ExecuteInv(w, i, f); ExecuteForward(w.engine, w.authorities[i], f);
    case Undo(tx, f) => UndoInv(w, tx, f); UndoForward(w.engine, tx, f);
    case Drop(i) => DropInv(w, i);
    case Foreign(_) =>
    case Begin(tx) =>
      WrittenOk(w.engine.wal, tx, Prepared);
      ForwardInv(w, w.engine.With(w.engine.wal.Written(tx, Prepared)));
    case Other(tx, to, durable) =>
      AppendOk(w.engine.wal, tx, to, durable);
      AppendForward(w.engine.wal, tx, to, durable);
      ForwardInv(w, w.engine.With(w.engine.wal.Append(tx, to, durable)));
  }

  lemma {:induction false} RunInv(w: World, ops: seq<Op>, t: World)
    requires Inv(w) && Run(w, ops) == Some(t)
    ensures Inv(t) && t.engine.generation == w.engine.generation
    decreases |ops|
  {
    if ops != [] {
      StepInv(w, ops[0]);
      RunInv(Step(w, ops[0]), ops[1..], t);
    }
  }

  /**
   Over every run of one engine: two unconsumed authorities of its generation never name
   the same transaction; purge and undo are each reported at most once per transaction and
   never both; and the log never holds the intent of both for one transaction.
   */
  lemma OneShotPurgeAuthority(w: World, ops: seq<Op>, t: World)
    requires Fresh(w) && Run(w, ops) == Some(t)
    ensures OneEach(w.engine.generation, t.authorities)
    ensures forall tx :: t.purged[tx] + t.undone[tx] <= 1
    ensures forall tx :: !(Record(tx, UndoIntent) in t.engine.wal.records && Record(tx, PurgeIntent) in t.engine.wal.records)
  {
    RunInv(w, ops, t);
    forall tx
      ensures t.purged[tx] + t.undone[tx] <= 1
      ensures !(Record(tx, UndoIntent) in t.engine.wal.records && Record(tx, PurgeIntent) in t.engine.wal.records)
    {
      var wal := t.engine.wal;
      assert tx in wal.states ==> SideOk(wal, tx);
      assert tx !in wal.states ==> Record(tx, UndoIntent) !in wal.records;
    }
  }

  // ----- exactly when an operation reports success -----------------------------------------------

  /** Known before anything is touched: the engine and the request would admit an authority. */
  predicate MayRequest(e: Engine, tx: Tx, f: RequestFacts) {
    && !e.blocked && e.wal.CanBegin() && tx in e.wal.states
    && (e.wal.states[tx] == VerifiedCommitted || (e.wal.states[tx] == Purgeable && tx !in e.issued))
    && f.matches && f.contentProven && f.certified
  }

  /**
   An authority is issued exactly for a ready engine, a committed or authorised but unissued
   transaction, a matching and content-proven association with certified anchors, an exact
   rebinding and verification, and a durable authorisation record where one had to be written.
   Every refusal before the rebinding leaves the engine as it was.
   */
  lemma AuthorityExactly(e: Engine, tx: Tx, f: RequestFacts)
    ensures var r := RequestPurge(e, tx, f);
            && (r.1.Some? <==>
                  && MayRequest(e, tx, f) && f.rebinding == Rebound && f.verification.Exact?
                  && (e.wal.states[tx] == VerifiedCommitted ==> f.verification.durable))
            && (r.1.Some? ==>
                  && r.1.value == Authority(tx, e.generation) && r.0.issued == e.issued + {tx}
                  && tx in r.0.wal.states && r.0.wal.states[tx] == Purgeable
                  && r.0.wal.records == e.wal.records
                       + if e.wal.states[tx] == VerifiedCommitted then [Record(tx, Purgeable)] else [])
            && (r.1.None? ==> r.0.issued == e.issued)
            && (!MayRequest(e, tx, f) ==> r == (e, None))
  {
  }

  /** A stale rebinding or a changed tree fails closed: recorded where the log can, and the engine is blocked. */
  lemma StaleRequestBlocks(e: Engine, tx: Tx, f: RequestFacts)
    requires MayRequest(e, tx, f)
    requires f.rebinding.Stale? || (f.rebinding == Rebound && f.verification.TreeChanged?)
    ensures var r := RequestPurge(e, tx, f);
            && r.1.None? && r.0.blocked
            && (if f.rebinding.Stale? then f.rebinding.durable else f.verification.durable) ==
                 (tx in r.0.wal.states && r.0.wal.states[tx] == RecoveryRequired)
  {
    var w := RequestPurge(e, tx, f).0.wal;
    assert tx in w.states && (w.poisoned || w.states[tx] == RecoveryRequired);
  }

  /** Each state of the path may follow the one before it. */
  predicate Chain(from: State, path: seq<State>)
    decreases |path|
  {
    path == [] || (ValidTransition(from, path[0]) && Chain(path[0], path[1..]))
  }

  function RecordsOf(tx: Tx, path: seq<State>): seq<Record> {
    seq(|path|, i requires 0 <= i < |path| => Record(tx, path[i]))
  }

  /** A legal path is written to the end exactly when every record of it becomes durable. */
  lemma {:induction false} CompletesExactly(w: Wal, tx: Tx, path: seq<State>, fate: Fate)
    requires tx in w.states && Chain(w.states[tx], path) && path != []
    ensures Completes(w, tx, path, fate) <==> !w.poisoned && fate.steps >= |path|
    decreases |path|
  {
    if !w.poisoned && fate.steps > 0 && |path| > 1 {
      CompletesExactly(w.Written(tx, path[0]), tx, path[1..], Fate(fate.steps - 1, fate.poisons));
    }
  }

  /** How many records of a path are written: those that became durable, none on a poisoned log. */
  function Written(w: Wal, path: seq<State>, fate: Fate): nat {
    if w.poisoned then 0 else if fate.steps < |path| then fate.steps else |path|
  }

  /** However far a legal path gets, the records written are its first ones. */
  lemma {:induction false} ProgressExactly(w: Wal, tx: Tx, path: seq<State>, fate: Fate)
    requires tx in w.states && Chain(w.states[tx], path)
    ensures Progress(w, tx, path, fate).records == w.records + RecordsOf(tx, path[..Written(w, path, fate)])
    decreases |path|
  {
    var m := Written(w, path, fate);
    if m == 0 {
      assert RecordsOf(tx, path[..m]) == [];
    } else {
      var w1, f1 := w.Written(tx, path[0]), Fate(fate.steps - 1, fate.poisons);
      ProgressExactly(w1, tx, path[1..], f1);
      assert RecordsOf(tx, path[..m]) == [Record(tx, path[0])] + RecordsOf(tx, path[1..][..m - 1]);
      assert w1.records + RecordsOf(tx, path[1..][..m - 1]) == w.records + RecordsOf(tx, path[..m]);
    }
  }

  /** A purge is reported exactly on this engine's own authorised transaction, with the same root and an
      authentic plan, when all three of its records became durable. */
  lemma PurgeReportedExactly(e: Engine, a: Authority, f: ExecuteFacts)
    ensures var r := ExecutePurge(e, a, f);
            && (r.1 <==>
                  && a.generation == e.generation && a.tx in e.wal.states && e.wal.states[a.tx] == Purgeable
                  && f.sameRoot && f.planAuthentic && !e.wal.poisoned && f.fate.steps >= 3)
            && (a.generation == e.generation && a.tx in e.wal.states && e.wal.states[a.tx] == Purgeable
                && f.sameRoot && f.planAuthentic ==>
                  var path := [PurgeIntent, PurgeOutcome, Purged];
                  r.0.wal.records == e.wal.records + RecordsOf(a.tx, path[..Written(e.wal, path, f.fate)]))
            && (r.0.issued != e.issued ==>
                  && a.generation == e.generation && a.tx in e.wal.states && e.wal.states[a.tx] == Purgeable
                  && f.sameRoot && !f.planAuthentic && r.0.issued == e.issued - {a.tx} && r.0.wal == e.wal)
  {
    assert PURGE[1..] == [PurgeOutcome, Purged] && [PurgeOutcome, Purged][1..] == [Purged] && [Purged][1..] == [];
    assert Chain(Purgeable, PURGE);
    if a.tx in e.wal.states && e.wal.states[a.tx] == Purgeable {
      CompletesExactly(e.wal, a.tx, PURGE, f.fate);
      ProgressExactly(e.wal, a.tx, PURGE, f.fate);
    }
  }

  lemma UndoChain(f: UndoFacts)
    ensures |UndoPath(f)| == 4 && Chain(VerifiedCommitted, UndoPath(f))
  {
    var end := UndoPath(f)[3];
    assert [end][1..] == [] && Chain(UndoRenameIntent, [end]);
    assert [UndoRenameIntent, end][1..] == [end] && Chain(UndoModesRestored, [UndoRenameIntent, end]);
    var tail := [UndoModesRestored, UndoRenameIntent, end];
    assert tail[1..] == [UndoRenameIntent, end] && Chain(UndoIntent, tail);
    assert UndoPath(f)[1..] == tail;
  }

  /** An undo is reported exactly on a committed transaction whose request matches, rebinds and renames
      back without a collision, when all four of its records became durable. */
  lemma UndoReportedExactly(e: Engine, tx: Tx, f: UndoFacts)
    ensures var r := UndoVerified(e, tx, f);
            && (r.1 <==>
                  && tx in e.wal.states && e.wal.states[tx] == VerifiedCommitted
                  && f.matches && f.certified && f.rebound && !f.collides && !f.renameFails
                  && !e.wal.poisoned && f.fate.steps >= 4)
            && (Undoable(e, tx, f) && !e.wal.poisoned && f.fate.steps >= 4 ==>
                  r.0.wal.records == e.wal.records + RecordsOf(tx, [UndoIntent, UndoModesRestored, UndoRenameIntent,
                    if f.renameFails then RecoveryRequired else if f.collides then UndoConflict else Restored]))
            && (!(tx in e.wal.states && e.wal.states[tx] == VerifiedCommitted && f.matches && f.certified && f.rebound)
                ==> r == (e, false))
  {
    UndoChain(f);
    if tx in e.wal.states && e.wal.states[tx] == VerifiedCommitted {
      CompletesExactly(e.wal, tx, UndoPath(f), f.fate);
      ProgressExactly(e.wal, tx, UndoPath(f), f.fate);
      assert f.fate.steps >= 4 && !e.wal.poisoned ==> UndoPath(f)[..Written(e.wal, UndoPath(f), f.fate)] == UndoPath(f);
    }
  }
}
