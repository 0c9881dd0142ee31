/**
 The staging lifecycle: the write-ahead log's transition table, the ready engine that
 issues one-shot purge authorities and verified undos over it, and what every sequence
 of those operations keeps.
 */
module Staging {
  import opened Wrappers

  type Tx = nat

  datatype State =
    | Prepared | ParentSealIntent | ParentSealed | TreeSealIntent | TreeSealed | RenameIntent
    | StagedUnverified | StagedSealed | SourceParentRestoreIntent | SourceParentRestored | VerifiedCommitted
    | UndoIntent | UndoModesRestored | UndoRenameIntent | UndoConflict
    | Purgeable | PurgeIntent | PurgeOutcome | Purged
    | RollbackIntent | RolledBack | RestoreIntent | Restored | Quarantined | RecoveryRequired

  predicate ValidTransition(from: State, to: State) {
    match to
    case Prepared => false
    case ParentSealIntent => from.Prepared?
    case ParentSealed => from.ParentSealIntent?
    case TreeSealIntent => from.ParentSealed?
    case TreeSealed => from.TreeSealIntent?
    case RenameIntent => from.TreeSealed?
    case StagedUnverified => from.RenameIntent?
    case StagedSealed => from.StagedUnverified?
    case SourceParentRestoreIntent => from.StagedSealed?
    case SourceParentRestored => from.SourceParentRestoreIntent?
    case VerifiedCommitted => from.SourceParentRestored?
    case UndoIntent => from.VerifiedCommitted?
    case UndoModesRestored => from.UndoIntent?
    case UndoRenameIntent => from.UndoModesRestored?
    case UndoConflict => from.UndoRenameIntent?
    case Purgeable => from.VerifiedCommitted?
    case PurgeIntent => from.Purgeable?
    case PurgeOutcome => from.PurgeIntent?
    case Purged => from.PurgeOutcome?
    case RollbackIntent => from.StagedUnverified? || from.StagedSealed?
    case RolledBack => from.RollbackIntent?
    case RestoreIntent => from.Prepared? || from.ParentSealIntent? || from.ParentSealed? || from.TreeSealIntent?
                          || from.TreeSealed? || from.RenameIntent?
    case Restored => from.RestoreIntent? || from.UndoRenameIntent?
    case Quarantined => from.StagedUnverified? || from.StagedSealed? || from.SourceParentRestoreIntent?
                        || from.SourceParentRestored? || from.RollbackIntent?
    case RecoveryRequired => !Terminal(from) && !from.PurgeOutcome?
  }

  /** Outcomes without any outgoing edge. */
  predicate Terminal(s: State) {
    s.Purged? || s.Restored? || s.UndoConflict? || s.RolledBack? || s.RecoveryRequired?
  }

  lemma TerminalIsFinal(from: State, to: State)
    requires ValidTransition(from, to)
    ensures !Terminal(from)
  {
  }

  predicate UndoSide(s: State) {
    s in {UndoIntent, UndoModesRestored, UndoRenameIntent, Restored, UndoConflict, RecoveryRequired}
  }

  predicate PurgeSide(s: State) {
    s in {Purgeable, PurgeIntent, PurgeOutcome, Purged, RecoveryRequired}
  }

  /** Neither side is ever left, and each is entered only from the committed state. */
  lemma SidesAreKept(from: State, to: State)
    requires ValidTransition(from, to)
    ensures UndoSide(from) ==> UndoSide(to)
    ensures PurgeSide(from) ==> PurgeSide(to)
    ensures to.Purgeable? || to.UndoIntent? ==> from.VerifiedCommitted?
    ensures to.PurgeIntent? ==> from.Purgeable?
  {
  }

  // ----- the log ----------------------------------------------------------------------------------

  datatype Record = Record(tx: Tx, state: State)

  /** The durable records in order, the state each transaction is in, and whether a write failed. */
  datatype Wal = Wal(records: seq<Record>, states: map<Tx, State>, poisoned: bool, retained: set<Tx>) {
    predicate Accepts(tx: Tx, to: State) {
      !poisoned && tx in states && ValidTransition(states[tx], to)
    }

    function Written(tx: Tx, to: State): Wal {
      this.(records := records + [Record(tx, to)], states := states[tx := to])
    }

    /** A refused record changes nothing; a failed write poisons the log. */
    function Append(tx: Tx, to: State, durable: bool): Wal {
      if !Accepts(tx, to) then this else if durable then Written(tx, to) else this.(poisoned := true)
    }

    predicate Appends(tx: Tx, to: State, durable: bool) {
      Accepts(tx, to) && durable
    }

    /** No transaction is in a state that recovery would have to act on. */
    predicate CanBegin() {
      && !poisoned
      && forall tx :: tx in states ==>
           || states[tx] in {VerifiedCommitted, Purgeable, Purged, Restored, UndoConflict, RolledBack}
           || (states[tx] == Quarantined && tx !in retained)
    }
  }

  /** How far a multi-record operation gets: `steps` durable records, and whether a write then fails. */
  datatype Fate = Fate(steps: nat, poisons: bool)

  /** Append `path` in order until the fate runs out or a record is refused. */
  function Progress(w: Wal, tx: Tx, path: seq<State>, fate: Fate): Wal
    decreases |path|
  {
    if path == [] then w
    else if fate.steps == 0 then (if fate.poisons then w.Append(tx, path[0], false) else w)
    else if !w.Accepts(tx, path[0]) then w
    else Progress(w.Written(tx, path[0]), tx, path[1..], Fate(fate.steps - 1, fate.poisons))
  }

  predicate Completes(w: Wal, tx: Tx, path: seq<State>, fate: Fate)
    decreases |path|
  {
    path == [] ||
    (fate.steps > 0 && w.Accepts(tx, path[0])
     && Completes(w.Written(tx, path[0]), tx, path[1..], Fate(fate.steps - 1, fate.poisons)))
  }

  // ----- the engine, on values -----------------------------------------------------------------------

  datatype Engine = Engine(wal: Wal, blocked: bool, issued: set<Tx>, generation: nat) {
    function With(w: Wal): Engine {
      this.(wal := w, blocked := !w.CanBegin())
    }

    predicate Ready() {
      !blocked && wal.CanBegin()
    }
  }

  datatype Authority = Authority(tx: Tx, generation: nat)

  datatype Rebinding = Rebound | Mismatched | Stale(durable: bool)

  datatype Verification = Exact(durable: bool) | TreeChanged(durable: bool) | Unsupported

  /** The answers of the file system and the sidecars to one purge request. */
  datatype RequestFacts = RequestFacts(matches: bool, contentProven: bool, certified: bool,
                                       rebinding: Rebinding, verification: Verification)

  predicate Admissible(e: Engine, tx: Tx, f: RequestFacts) {
    && e.Ready() && tx in e.wal.states
    && !(e.wal.states[tx].Purgeable? && tx in e.issued)
    && (e.wal.states[tx].VerifiedCommitted? || e.wal.states[tx].Purgeable?)
    && f.matches && f.contentProven && f.certified
  }

  function RequestPurge(e: Engine, tx: Tx, f: RequestFacts): (Engine, Option<Authority>) {
    if !Admissible(e, tx, f) then (e, None)
    else
      match f.rebinding
      case Mismatched => (e.With(e.wal), None)
      case Stale(durable) => (e.With(e.wal.Append(tx, RecoveryRequired, durable)), None)
      case Rebound =>
        match f.verification
        case Unsupported => (e.With(e.wal), None)
        case TreeChanged(durable) => (e.With(e.wal.Append(tx, RecoveryRequired, durable)), None)
        case Exact(durable) =>
          var w := if e.wal.states[tx].Purgeable? then e.wal else e.wal.Append(tx, Purgeable, durable);
          if !w.states[tx].Purgeable? then (e.With(w), None)
          else (e.With(w).(issued := e.issued + {tx}), Some(Authority(tx, e.generation)))
  }

  datatype ExecuteFacts = ExecuteFacts(sameRoot: bool, planAuthentic: bool, fate: Fate)

  const PURGE: seq<State> := [PurgeIntent, PurgeOutcome, Purged]

  function ExecutePurge(e: Engine, a: Authority, f: ExecuteFacts): (Engine, bool) {
    if a.generation != e.generation then (e, false)
    else if a.tx !in e.wal.states || !e.wal.states[a.tx].Purgeable? || !f.sameRoot then (e.With(e.wal), false)
    else if !f.planAuthentic then (e.With(e.wal).(issued := e.issued - {a.tx}), false)
    else (e.With(Progress(e.wal, a.tx, PURGE, f.fate)), Completes(e.wal, a.tx, PURGE, f.fate))
  }

  /** `abandons` says whether an undo that stops early also records that recovery is required. */
  datatype UndoFacts = UndoFacts(matches: bool, certified: bool, rebound: bool, collides: bool, renameFails: bool,
                                 fate: Fate, abandons: Option<bool>)

  /** The records an undo writes, depending on how its rename-back ends. */
  function UndoPath(f: UndoFacts): seq<State> {
    [UndoIntent, UndoModesRestored, UndoRenameIntent]
    + [if f.renameFails then RecoveryRequired else if f.collides then UndoConflict else Restored]
  }

  predicate Undoable(e: Engine, tx: Tx, f: UndoFacts) {
    tx in e.wal.states && e.wal.states[tx].VerifiedCommitted? && f.matches && f.certified && f.rebound
  }

  function UndoVerified(e: Engine, tx: Tx, f: UndoFacts): (Engine, bool) {
    if !Undoable(e, tx, f) then (e, false)
    else
      var w := Progress(e.wal, tx, UndoPath(f), f.fate);
      if Completes(e.wal, tx, UndoPath(f), f.fate) then (e.With(w), !f.renameFails && !f.collides)
      else (e.With(if f.abandons.Some? then w.Append(tx, RecoveryRequired, f.abandons.value) else w), false)
  }

  // ----- the engine itself ----------------------------------------------------------------------------

  class SealWal {
    var records: seq<Record>
    var states: map<Tx, State>
    var poisoned: bool
    const retained: set<Tx>

    function Value(): Wal
      reads this
    {
      Wal(records, states, poisoned, retained)
    }

    constructor (quarantinedSeals: set<Tx>)
      ensures Value() == Wal([], map[], false, quarantinedSeals)
    {
      records, states, poisoned, retained := [], map[], false, quarantinedSeals;
    }

    method Append(tx: Tx, to: State, durable: bool) returns (ok: bool)
      modifies this
      ensures Value() == old(Value()).Append(tx, to, durable)
      ensures ok == old(Value()).Appends(tx, to, durable)
    {
      if poisoned || tx !in states || !ValidTransition(states[tx], to) {
        return false;
      }
      if !durable {
        poisoned := true;
        return false;
      }
      records, states := records + [Record(tx, to)], states[tx := to];
      return true;
    }

    /** Writes records one by one; the first that fails ends the operation. */
    method AppendAll(tx: Tx, path: seq<State>, fate: Fate) returns (ok: bool)
      modifies this
      ensures Value() == Progress(old(Value()), tx, path, fate)
      ensures ok == Completes(old(Value()), tx, path, fate)
    {
      var i := 0;
      ok := true;
      while i < |path|
        invariant 0 <= i <= |path| && i <= fate.steps
        invariant Progress(old(Value()), tx, path, fate)
               == Progress(Value(), tx, path[i..], Fate(fate.steps - i, fate.poisons))
        invariant Completes(old(Value()), tx, path, fate)
              <==> Completes(Value(), tx, path[i..], Fate(fate.steps - i, fate.poisons))
      {
        assert path[i..][0] == path[i] && path[i..][1..] == path[i + 1..];
        if i == fate.steps {
          if fate.poisons {
            var _ := Append(tx, path[i], false);
          }
          return false;
        }
        var appended := Append(tx, path[i], true);
        if !appended {
          return false;
        }
        i := i + 1;
      }
    }
  }

  class ReadyStagingEngine {
    const wal: SealWal
    const generation: nat
    var startupBlocked: bool
    var issued: set<Tx>

    function Value(): Engine
      reads this, wal
    {
      Engine(wal.Value(), startupBlocked, issued, generation)
    }

    constructor (log: SealWal, leaseGeneration: nat)
      ensures wal == log && Value() == Engine(log.Value(), !log.Value().CanBegin(), {}, leaseGeneration)
    {
      wal, generation, startupBlocked, issued := log, leaseGeneration, !log.Value().CanBegin(), {};
    }

    method Reassess()
      modifies this`startupBlocked
      ensures Value() == old(Value()).With(wal.Value())
    {
      startupBlocked := !wal.Value().CanBegin();
    }

    method RequestVerifiedPurge(tx: Tx, f: RequestFacts) returns (authority: Option<Authority>)
      modifies this, wal
      ensures (Value(), authority) == RequestPurge(old(Value()), tx, f)
    {
      if startupBlocked || !wal.Value().CanBegin() || tx !in wal.states {
        return None;
      }
      var state := wal.states[tx];
      if state.Purgeable? && tx in issued {
        return None;
      }
      if !(state.VerifiedCommitted? || state.Purgeable?) || !f.matches || !f.contentProven || !f.certified {
        return None;
      }
      if f.rebinding.Stale? {
        var _ := wal.Append(tx, RecoveryRequired, f.rebinding.durable);
        Reassess();
        return None;
      }
      if f.rebinding.Mismatched? || f.verification.Unsupported? {
        Reassess();
        return None;
      }
      if f.verification.TreeChanged? {
        var _ := wal.Append(tx, RecoveryRequired, f.verification.durable);
        Reassess();
        return None;
      }
      if state.VerifiedCommitted? {
        var recorded := wal.Append(tx, Purgeable, f.verification.durable);
        if !recorded {
          Reassess();
          return None;
        }
      }
      Reassess();
      issued := issued + {tx};
      authority := Some(Authority(tx, generation));
    }

    method ExecuteVerifiedPurge(a: Authority, f: ExecuteFacts) returns (committed: bool)
      modifies this, wal
      ensures (Value(), committed) == ExecutePurge(old(Value()), a, f)
    {
      if a.generation != generation {
        return false;
      }
      if a.tx !in wal.states || !wal.states[a.tx].Purgeable? || !f.sameRoot {
        Reassess();
        return false;
      }
      if !f.planAuthentic {
        issued := issued - {a.tx};
        Reassess();
        return false;
      }
      committed := wal.AppendAll(a.tx, PURGE, f.fate);
      Reassess();
    }

    method Undo(tx: Tx, f: UndoFacts) returns (committed: bool)
      modifies this, wal
      ensures (Value(), committed) == UndoVerified(old(Value()), tx, f)
    {
      if tx !in wal.states || !wal.states[tx].VerifiedCommitted? || !f.matches || !f.certified || !f.rebound {
        return false;
      }
      var completed := wal.AppendAll(tx, UndoPath(f), f.fate);
      if !completed && f.abandons.Some? {
        var _ := wal.Append(tx, RecoveryRequired, f.abandons.value);
      }
      Reassess();
      committed := completed && !f.renameFails && !f.collides;
    }
  }
}
