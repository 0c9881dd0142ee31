/**
 Startup recovery: every transaction the log left unfinished is driven, in bounded steps
 of durable state, to a safe terminal state, or no ready engine is returned.
 */
module StartupRecovery {
  import opened Wrappers
  import opened Staging

  const MAX_STEPS: nat := 4
  const MAX_TRANSACTIONS: nat := 64

  datatype RenameOutcome = Applied | NotApplied
  datatype UndoOutcome = PutBack | Collided

  /** What the log says about one transaction. */
  datatype Snapshot = Snapshot(
    state: State, legacySchema: bool, hasMetadata: bool, uncertain: bool, activeSeals: nat,
    insufficientIdentity: bool, rename: Option<RenameOutcome>, undo: Option<UndoOutcome>)

  datatype Work =
    | Nothing | PreserveCommitted | PreserveQuarantine | PreserveUndoConflict
    | RestoreBeforeRename | VerifyOrQuarantine | RestoreSourceParent | RestoreQuarantinedSeals
    | ResolveUncertain | ResumeUndo
    | FinalizeCommit | FinalizeUndo(outcome: UndoOutcome) | FinalizePurge
    | Required

  predicate NeedsMountAuthority(s: Snapshot) {
    match s.state
    case VerifiedCommitted | Restored | RolledBack | Purged | Purgeable | PurgeOutcome | UndoConflict => false
    case RecoveryRequired => false
    case Quarantined => s.activeSeals > 0
    case _ => true
  }

  function DecideFromRecords(s: Snapshot): Work {
    if s.uncertain then ResolveUncertain
    else
      match s.state
      case UndoRenameIntent => if s.undo.Some? then FinalizeUndo(s.undo.value) else Required
      case UndoIntent => ResumeUndo
      case UndoModesRestored => ResumeUndo
      case Quarantined => if s.activeSeals == 0 then PreserveQuarantine else RestoreQuarantinedSeals
      case _ => DecideFromIdentity(s)
  }

  /** The states whose work addresses the sealed objects, which the log must identify. */
  function DecideFromIdentity(s: Snapshot): Work {
    if (s.state == RenameIntent && s.rename.None?) || s.insufficientIdentity then Required
    else
      match s.state
      case RenameIntent => if s.rename.value.Applied? then VerifyOrQuarantine else RestoreBeforeRename
      case StagedSealed => RestoreSourceParent
      case SourceParentRestoreIntent => RestoreSourceParent
      case SourceParentRestored => FinalizeCommit
      case StagedUnverified => VerifyOrQuarantine
      case RollbackIntent => VerifyOrQuarantine
      case _ => RestoreBeforeRename
  }

  function Decide(s: Snapshot): Work {
    if s.legacySchema && NeedsMountAuthority(s) then Required
    else
      match s.state
      case PurgeOutcome => FinalizePurge
      case PurgeIntent => Required
      case RecoveryRequired => Required
      case VerifiedCommitted => PreserveCommitted
      case Purgeable => PreserveCommitted
      case Purged => PreserveCommitted
      case UndoConflict => PreserveUndoConflict
      case Restored => Nothing
      case RolledBack => Nothing
      case _ => DecideFromRecords(s)
  }

  predicate RequiresCandidate(w: Work) {
    !(w.Nothing? || w.PreserveCommitted? || w.PreserveQuarantine? || w.PreserveUndoConflict?)
  }

  /** Work that inspects the file system through caller-supplied anchors. */
  predicate UsesAnchors(w: Work) {
    !(w.Required? || w.FinalizeCommit? || w.FinalizeUndo? || w.FinalizePurge?)
  }

  /** Work that only records an outcome the log already holds. */
  predicate Finalizes(w: Work) {
    w.FinalizeCommit? || w.FinalizeUndo? || w.FinalizePurge?
  }

  function FinalState(w: Work): State
    requires Finalizes(w)
  {
    match w
    case FinalizePurge => Purged
    case FinalizeCommit => VerifiedCommitted
    case FinalizeUndo(outcome) => if outcome.PutBack? then Restored else UndoConflict
  }

  predicate Safe(s: Snapshot) {
    || s.state.VerifiedCommitted? || s.state.Purgeable? || s.state.Purged?
    || s.state.Restored? || s.state.UndoConflict? || s.state.RolledBack?
    || (s.state.Quarantined? && s.activeSeals == 0)
  }

  /** The engine may begin exactly when recovery would call every transaction safe. */
  lemma BeginsExactlySafe(w: Wal, snapshots: map<Tx, Snapshot>)
    requires snapshots.Keys == w.states.Keys
    requires forall tx :: tx in snapshots ==>
               snapshots[tx].state == w.states[tx] && (snapshots[tx].activeSeals > 0 <==> tx in w.retained)
    ensures w.CanBegin() <==> !w.poisoned && forall tx :: tx in snapshots ==> Safe(snapshots[tx])
  {
    forall tx | tx in snapshots
      ensures Safe(snapshots[tx]) <==>
                || w.states[tx] in {VerifiedCommitted, Purgeable, Purged, Restored, UndoConflict, RolledBack}
                || (w.states[tx] == Quarantined && tx !in w.retained)
    {
    }
  }

  /** The recovery set is the unfinished transactions, and quarantined ones with an undecided change. */
  lemma RecoverySetMeaning(s: Snapshot)
    ensures RequiresCandidate(Decide(s)) <==> !Safe(s) || (s.state == Quarantined && s.uncertain)
    ensures !Safe(s) ==> RequiresCandidate(Decide(s))
  {
  }

  /** Everything recovery decides to write by itself is a legal record. */
  lemma DecisionsAreLegal(s: Snapshot)
    ensures Decide(s).FinalizePurge? ==> ValidTransition(s.state, Purged)
    ensures Decide(s).FinalizeCommit? ==> ValidTransition(s.state, VerifiedCommitted)
    ensures Decide(s).FinalizeUndo? ==> ValidTransition(s.state, Restored) && ValidTransition(s.state, UndoConflict)
    ensures Decide(s).Required? && s.state != RecoveryRequired ==> ValidTransition(s.state, RecoveryRequired)
  {
  }

  /** The last seal of a quarantined tree was released. */
  predicate Releases(before: Snapshot, after: Snapshot) {
    before.state == Quarantined && before.activeSeals > 0 && after.activeSeals == 0
  }

  /**
   A transaction finishes without a change of state exactly when the last seal of a quarantined
   tree is released, and then it has to: the table lets it move nowhere safe.
   */
  lemma FinishesInPlace(before: Snapshot, after: Snapshot)
    requires before.state == after.state
    ensures !Safe(before) && Safe(after) <==> Releases(before, after)
    ensures Releases(before, after) ==>
              forall to :: ValidTransition(before.state, to) ==> to == RecoveryRequired
  {
  }

  // ----- states a step can lead to ---------------------------------------------------------------

  /** The state after writing `path`, where a record the table refuses is not written. */
  function Walked(from: State, path: seq<State>): State
    decreases |path|
  {
    if path == [] then from
    else Walked(if ValidTransition(from, path[0]) then path[0] else from, path[1..])
  }

  /** `to` is reached from `from` by records the table allows. */
  ghost predicate Onward(from: State, to: State) {
    exists path :: Walked(from, path) == to
  }

  lemma {:induction false} WalkedAppend(from: State, a: seq<State>, b: seq<State>)
    ensures Walked(from, a + b) == Walked(Walked(from, a), b)
    decreases |a|
  {
    if a == [] {
      assert a + b == b;
    } else {
      assert (a + b)[1..] == a[1..] + b;
      WalkedAppend(if ValidTransition(from, a[0]) then a[0] else from, a[1..], b);
    }
  }

  lemma OnwardStep(from: State, to: State)
    ensures Onward(from, from)
    ensures ValidTransition(from, to) ==> Onward(from, to)
  {
    assert Walked(from, []) == from;
    assert [to][1..] == [];
    assert Walked(from, [to]) == if ValidTransition(from, to) then to else from;
  }

  lemma OnwardTransitive(a: State, b: State, c: State)
    requires Onward(a, b) && Onward(b, c)
    ensures Onward(a, c)
  {
    var p :| Walked(a, p) == b;
    var q :| Walked(b, q) == c;
    WalkedAppend(a, p, q);
  }

  lemma {:induction false} WalkedKeeps(from: State, path: seq<State>)
    ensures Terminal(from) ==> Walked(from, path) == from
    ensures UndoSide(from) ==> UndoSide(Walked(from, path))
    ensures PurgeSide(from) ==> PurgeSide(Walked(from, path))
    decreases |path|
  {
    if path != [] {
      if ValidTransition(from, path[0]) {
        SidesAreKept(from, path[0]);
        TerminalIsFinal(from, path[0]);
      }
      WalkedKeeps(if ValidTransition(from, path[0]) then path[0] else from, path[1..]);
    }
  }

  /** Whatever recovery does, a terminal outcome stays, and neither side of the table is left. */
  lemma OnwardKeeps(from: State, to: State)
    requires Onward(from, to)
    ensures Terminal(from) ==> to == from
    ensures UndoSide(from) ==> UndoSide(to)
    ensures PurgeSide(from) ==> PurgeSide(to)
  {
    var path :| Walked(from, path) == to;
    WalkedKeeps(from, path);
  }

  // ----- what one attempt meets ---------------------------------------------------------------------

  /** The outside world's answers during one pass over one transaction. */
  datatype Turn = Turn(
    withinLimits: bool, durable: bool, certified: bool, anchors: bool, rebound: bool,
    written: seq<State>, facts: Snapshot, executed: bool)
  {
    /** The transaction after an anchor-using step: what it wrote, and what the log then says. */
    function After(before: Snapshot): Snapshot {
      facts.(state := Walked(before.state, written))
    }
  }

  /** The anchor-using step finished, or moved the transaction. */
  predicate Progresses(before: Snapshot, turn: Turn) {
    && turn.anchors && turn.rebound && turn.executed
    && (Safe(turn.After(before)) || turn.After(before).state != before.state)
  }

  // ----- which transactions recovery finishes --------------------------------------------------------

  /** A pass over this transaction succeeds. */
  predicate Movable(s: Snapshot, poisoned: bool, turn: Turn) {
    && !Safe(s) && turn.withinLimits && !Decide(s).Required?
    && if Finalizes(Decide(s)) then !poisoned && turn.durable && (Decide(s).FinalizeCommit? ==> turn.certified)
       else s.hasMetadata && Progresses(s, turn)
  }

  /** What a successful pass leaves. */
  function Moved(s: Snapshot, turn: Turn): Snapshot {
    if Finalizes(Decide(s)) then s.(state := FinalState(Decide(s))) else turn.After(s)
  }

  /** Successive snapshots, each left by a successful pass with the turn of its position. */
  ghost predicate Passes(states: seq<Snapshot>, poisoned: bool, tx: Tx, turns: (Tx, nat) -> Turn) {
    forall j :: 0 <= j < |states| - 1 ==>
      Movable(states[j], poisoned, turns(tx, j)) && states[j + 1] == Moved(states[j], turns(tx, j))
  }

  /** At most four passes end safe; after a fourth that only recorded an outcome nobody looks again. */
  ghost predicate Ends(states: seq<Snapshot>, s: Snapshot, poisoned: bool, tx: Tx, turns: (Tx, nat) -> Turn) {
    && 0 < |states| <= MAX_STEPS + 1 && states[0] == s && Passes(states, poisoned, tx, turns)
    && Safe(states[|states| - 1])
    && (|states| == MAX_STEPS + 1 ==> !Finalizes(Decide(states[MAX_STEPS - 1])))
  }

  ghost predicate Recovers(s: Snapshot, poisoned: bool, tx: Tx, turns: (Tx, nat) -> Turn) {
    exists states :: Ends(states, s, poisoned, tx, turns)
  }

  /** The snapshots are determined by the first one and the turns. */
  lemma {:induction false} PassesAgree(a: seq<Snapshot>, b: seq<Snapshot>, poisoned: bool, tx: Tx, turns: (Tx, nat) -> Turn,
                                       k: nat)
    requires Passes(a, poisoned, tx, turns) && Passes(b, poisoned, tx, turns)
    requires k < |a| && k < |b| && a[0] == b[0]
    ensures a[k] == b[k]
  {
    if k > 0 {
      PassesAgree(a, b, poisoned, tx, turns, k - 1);
      assert a[k] == Moved(a[k - 1], turns(tx, k - 1)) == b[k];
    }
  }

  /** Passes that got stuck, or used up their four turns, leave no other way to an end. */
  predicate GivesUp(states: seq<Snapshot>, poisoned: bool, tx: Tx, turns: (Tx, nat) -> Turn)
    requires 0 < |states| <= MAX_STEPS + 1
  {
    var last := states[|states| - 1];
    if |states| <= MAX_STEPS then !Safe(last) && !Movable(last, poisoned, turns(tx, |states| - 1))
    else !Safe(last) || Finalizes(Decide(states[MAX_STEPS - 1]))
  }

  lemma GivesUpRightly(states: seq<Snapshot>, other: seq<Snapshot>, poisoned: bool, tx: Tx, turns: (Tx, nat) -> Turn)
    requires 0 < |states| <= MAX_STEPS + 1 && Passes(states, poisoned, tx, turns) && GivesUp(states, poisoned, tx, turns)
    requires 0 < |other| <= MAX_STEPS + 1 && Passes(other, poisoned, tx, turns) && other[0] == states[0]
    ensures Safe(other[|other| - 1]) ==> |other| == MAX_STEPS + 1 && Finalizes(Decide(other[MAX_STEPS - 1]))
  {
    PassesAgree(states, other, poisoned, tx, turns, if |other| < |states| then |other| - 1 else |states| - 1);
    if |states| == |other| == MAX_STEPS + 1 {
      PassesAgree(states, other, poisoned, tx, turns, MAX_STEPS - 1);
    }
  }

  lemma NoOtherEnd(states: seq<Snapshot>, poisoned: bool, tx: Tx, turns: (Tx, nat) -> Turn)
    requires 0 < |states| <= MAX_STEPS + 1 && Passes(states, poisoned, tx, turns) && GivesUp(states, poisoned, tx, turns)
    ensures !Recovers(states[0], poisoned, tx, turns)
  {
    forall other | 0 < |other| <= MAX_STEPS + 1 && other[0] == states[0] && Passes(other, poisoned, tx, turns)
      ensures !Ends(other, states[0], poisoned, tx, turns)
    {
      GivesUpRightly(states, other, poisoned, tx, turns);
    }
  }

  lemma PassesNext(states: seq<Snapshot>, poisoned: bool, tx: Tx, turns: (Tx, nat) -> Turn, s': Snapshot)
    requires |states| > 0 && Passes(states, poisoned, tx, turns)
    requires Movable(states[|states| - 1], poisoned, turns(tx, |states| - 1))
    requires s' == Moved(states[|states| - 1], turns(tx, |states| - 1))
    ensures Passes(states + [s'], poisoned, tx, turns)
  {
    var more := states + [s'];
    forall j | 0 <= j < |more| - 1
      ensures Movable(more[j], poisoned, turns(tx, j)) && more[j + 1] == Moved(more[j], turns(tx, j))
    {
      assert more[j] == states[j];
      assert j < |states| - 1 ==> more[j + 1] == states[j + 1];
    }
  }

  /** A turn that writes nothing and after which the log counts no active seal. */
  function Releasing(before: Snapshot): Turn {
    Turn(true, true, true, true, true, [], before.(activeSeals := 0), true)
  }

  /**
   Exactly which transactions can be finished by an anchor-using step that leaves their state
   alone, known before the step: the quarantined ones.  For all others, a step that succeeds
   changes the state.
   */
  lemma InPlaceExactlyQuarantined(before: Snapshot)
    requires !Safe(before) && UsesAnchors(Decide(before))
    ensures (exists turn :: Progresses(before, turn) && turn.After(before).state == before.state)
              <==> before.state == Quarantined
  {
    if before.state == Quarantined {
      var turn := Releasing(before);
      assert Progresses(before, turn) && turn.After(before).state == before.state;
    } else {
      forall turn | Progresses(before, turn)
        ensures turn.After(before).state != before.state
      {
        assert turn.After(before).state == before.state ==> !Safe(turn.After(before));
      }
    }
  }

  /** One of them: a quarantined tree with one seal left, whose release finishes it in place. */
  lemma QuarantineFinishesInPlace() returns (before: Snapshot, turn: Turn)
    ensures before == Snapshot(Quarantined, false, true, false, 1, false, None, None)
    ensures !Safe(before) && Decide(before) == RestoreQuarantinedSeals && UsesAnchors(Decide(before))
    ensures Progresses(before, turn) && turn.After(before).state == before.state && Safe(turn.After(before))
  {
    before := Snapshot(Quarantined, false, true, false, 1, false, None, None);
    turn := Releasing(before);
  }

  /** One request for anchors: the work it was for and what came of it. */
  datatype Request = Request(tx: Tx, before: Snapshot, work: Work, after: Option<Snapshot>)

  /** Anchors are asked only for work that may use them, and a step that succeeds changes something. */
  predicate Justified(r: Request) {
    && r.work == Decide(r.before) && UsesAnchors(r.work)
    && (r.after.Some? ==> r.after.value.state != r.before.state || Releases(r.before, r.after.value))
  }

  predicate Ascending(s: seq<Tx>) {
    forall i, j :: 0 <= i < j < |s| ==> s[i] < s[j]
  }

  /** Requests allowed for `tx` once the first `n` transactions have been recovered. */
  function Allowance(txs: seq<Tx>, n: nat, tx: Tx): nat
    requires n <= |txs|
  {
    if tx in txs[..n] then MAX_STEPS else 0
  }

  lemma AllowanceGrows(txs: seq<Tx>, n: nat)
    requires Ascending(txs) && n < |txs|
    ensures forall q :: Allowance(txs, n + 1, q) == if q == txs[n] then MAX_STEPS else Allowance(txs, n, q)
    ensures Allowance(txs, n, txs[n]) == 0
  {
  }

  /** How often anchors were requested for one transaction. */
  function Asked(s: seq<Request>, tx: Tx): nat {
    if s == [] then 0 else Asked(s[..|s| - 1], tx) + if s[|s| - 1].tx == tx then 1 else 0
  }

  /** Between two logs, `tx` was asked for at most `limit` times and nothing else was. */
  ghost predicate AskedOnly(before: seq<Request>, now: seq<Request>, tx: Tx, limit: nat) {
    forall q :: Asked(now, q) <= Asked(before, q) + if q == tx then limit else 0
  }

  /** Between two logs, only the first `n` of `txs` were asked for, each within its limit. */
  ghost predicate AskedWithin(before: seq<Request>, now: seq<Request>, txs: seq<Tx>, n: nat)
    requires n <= |txs|
  {
    forall q :: Asked(now, q) <= Asked(before, q) + Allowance(txs, n, q)
  }

  lemma AskedNext(before: seq<Request>, mid: seq<Request>, now: seq<Request>, txs: seq<Tx>, n: nat)
    requires Ascending(txs) && n < |txs|
    requires AskedWithin(before, mid, txs, n) && AskedOnly(mid, now, txs[n], MAX_STEPS)
    ensures AskedWithin(before, now, txs, n + 1)
  {
    AllowanceGrows(txs, n);
    forall q
      ensures Asked(now, q) <= Asked(before, q) + Allowance(txs, n + 1, q)
    {
      assert Asked(mid, q) <= Asked(before, q) + Allowance(txs, n, q);
    }
  }

  /** Whatever was asked for, no transaction was asked for more than its steps. */
  lemma AskedBounded(before: seq<Request>, now: seq<Request>, txs: seq<Tx>, n: nat)
    requires n <= |txs| && AskedWithin(before, now, txs, n)
    ensures forall q :: Asked(now, q) <= Asked(before, q) + MAX_STEPS
  {
    forall q
      ensures Asked(now, q) <= Asked(before, q) + MAX_STEPS
    {
      assert Asked(now, q) <= Asked(before, q) + Allowance(txs, n, q);
    }
  }

  lemma AskedOnce(s: seq<Request>, r: Request)
    ensures forall tx :: Asked(s + [r], tx) == Asked(s, tx) + if r.tx == tx then 1 else 0
  {
    assert (s + [r])[..|s|] == s;
  }

  /**
   Between two moments only `tx` changed, along the table, and for it alone anchors were
   requested, at most `n` times and each time justified.
   */
  ghost predicate Steps(before: map<Tx, Snapshot>, asked: seq<Request>, now: map<Tx, Snapshot>, requests: seq<Request>,
                        tx: Tx, n: nat)
  {
    && now.Keys == before.Keys && (forall q :: q in now && q != tx ==> now[q] == before[q])
    && (tx in now ==> Onward(before[tx].state, now[tx].state))
    && NewlyJustified(asked, requests) && AskedOnly(asked, requests, tx, n)
  }

  lemma StepsJoin(before: map<Tx, Snapshot>, asked: seq<Request>, mid: map<Tx, Snapshot>, more: seq<Request>,
                  now: map<Tx, Snapshot>, requests: seq<Request>, tx: Tx, m: nat, n: nat)
    requires Steps(before, asked, mid, more, tx, m) && Steps(mid, more, now, requests, tx, n)
    ensures Steps(before, asked, now, requests, tx, m + n)
  {
    if tx in now {
      OnwardTransitive(before[tx].state, mid[tx].state, now[tx].state);
    }
    JustifiedJoin(asked, more, requests);
    AskedJoin(asked, more, requests, tx, m, n);
  }

  lemma AskedJoin(asked: seq<Request>, more: seq<Request>, requests: seq<Request>, tx: Tx, m: nat, n: nat)
    requires AskedOnly(asked, more, tx, m) && AskedOnly(more, requests, tx, n)
    ensures AskedOnly(asked, requests, tx, m + n)
  {
    forall q
      ensures Asked(requests, q) <= Asked(asked, q) + if q == tx then m + n else 0
    {
      assert Asked(more, q) <= Asked(asked, q) + if q == tx then m else 0;
    }
  }

  lemma StepsMore(before: map<Tx, Snapshot>, asked: seq<Request>, now: map<Tx, Snapshot>, requests: seq<Request>,
                  tx: Tx, n: nat)
    requires n <= MAX_STEPS && Steps(before, asked, now, requests, tx, n)
    ensures Steps(before, asked, now, requests, tx, MAX_STEPS)
  {
    forall q
      ensures Asked(requests, q) <= Asked(asked, q) + if q == tx then MAX_STEPS else 0
    {
      assert Asked(requests, q) <= Asked(asked, q) + if q == tx then n else 0;
    }
  }

  lemma StepsStart(snapshots: map<Tx, Snapshot>, requests: seq<Request>, tx: Tx)
    ensures Steps(snapshots, requests, snapshots, requests, tx, 0)
  {
    if tx in snapshots {
      OnwardStep(snapshots[tx].state, snapshots[tx].state);
    }
  }

  datatype Outcome = Reached(state: State) | Stopped

  datatype Candidate = Candidate(tx: Tx, generation: nat)

  datatype Report = Report(generation: nat, candidates: seq<Candidate>)

  datatype Recovered = Recovered(tx: Tx, state: State)

  /** Those of `txs` that recovery has to act on, in the same order. */
  function Pending(txs: seq<Tx>, snapshots: map<Tx, Snapshot>): seq<Tx> {
    if txs == [] then []
    else
      var last := txs[|txs| - 1];
      Pending(txs[..|txs| - 1], snapshots)
      + if last in snapshots && RequiresCandidate(Decide(snapshots[last])) then [last] else []
  }

  lemma {:induction false} PendingMeaning(txs: seq<Tx>, snapshots: map<Tx, Snapshot>)
    requires Ascending(txs)
    ensures Ascending(Pending(txs, snapshots))
    ensures forall tx :: tx in Pending(txs, snapshots) <==>
              tx in txs && tx in snapshots && RequiresCandidate(Decide(snapshots[tx]))
    decreases |txs|
  {
    if txs != [] {
      var init, last := txs[..|txs| - 1], txs[|txs| - 1];
      PendingMeaning(init, snapshots);
      SplitLast(txs);
      var before := Pending(init, snapshots);
      forall k | 0 <= k < |before|
        ensures before[k] < last
      {
        assert before[k] in before;
      }
    }
  }

  function Transactions(report: Report): seq<Tx> {
    seq(|report.candidates|, i requires 0 <= i < |report.candidates| => report.candidates[i].tx)
  }

  predicate Matches(report: Report, generation: nat, canonical: seq<Tx>) {
    && report.generation == generation
    && (forall i :: 0 <= i < |report.candidates| ==> report.candidates[i].generation == generation)
    && Transactions(report) == canonical
  }

  /** The report belongs to this lease and lists exactly the unfinished transactions, once each, in order. */
  predicate ExactReport(report: Report, generation: nat, unfinished: set<Tx>) {
    && report.generation == generation
    && (forall i :: 0 <= i < |report.candidates| ==> report.candidates[i].generation == generation)
    && Ascending(Transactions(report))
    && (set tx | tx in Transactions(report)) == unfinished
  }

  lemma BelowLast(a: seq<Tx>)
    requires Ascending(a) && a != []
    ensures forall tx :: tx in a[..|a| - 1] <==> tx in a && tx < a[|a| - 1]
  {
    var init := a[..|a| - 1];
    forall tx | tx in a && tx < a[|a| - 1]
      ensures tx in init
    {
      var i :| 0 <= i < |a| && a[i] == tx;
      assert init[i] == tx;
    }
  }

  ghost predicate SameMembers(a: seq<Tx>, b: seq<Tx>) {
    forall tx :: tx in a <==> tx in b
  }

  lemma LastIsGreatest(a: seq<Tx>, tx: Tx)
    requires Ascending(a) && tx in a
    ensures tx <= a[|a| - 1]
  {
  }

  lemma SameLast(a: seq<Tx>, b: seq<Tx>)
    requires Ascending(a) && Ascending(b) && SameMembers(a, b) && a != [] && b != []
    ensures a[|a| - 1] == b[|b| - 1] && SameMembers(a[..|a| - 1], b[..|b| - 1])
  {
    assert a[|a| - 1] in a && b[|b| - 1] in b;
    LastIsGreatest(b, a[|a| - 1]);
    LastIsGreatest(a, b[|b| - 1]);
    BelowLast(a);
    BelowLast(b);
    var x, y := a[..|a| - 1], b[..|b| - 1];
    forall tx
      ensures tx in x <==> tx in y
    {
      assert tx in a <==> tx in b;
    }
  }

  lemma BothEmpty(a: seq<Tx>, b: seq<Tx>)
    requires SameMembers(a, b)
    ensures a == [] ==> b == []
  {
    if b != [] {
      assert b[0] in b;
    }
  }

  lemma {:induction false} AscendingUnique(a: seq<Tx>, b: seq<Tx>)
    requires Ascending(a) && Ascending(b) && SameMembers(a, b)
    ensures a == b
    decreases |a|
  {
    BothEmpty(a, b);
    BothEmpty(b, a);
    if a != [] {
      SameLast(a, b);
      AscendingUnique(a[..|a| - 1], b[..|b| - 1]);
      SplitLast(a);
      SplitLast(b);
    }
  }

  lemma MatchesExactly(report: Report, generation: nat, canonical: seq<Tx>, unfinished: set<Tx>)
    requires Ascending(canonical) && forall tx :: tx in canonical <==> tx in unfinished
    ensures Matches(report, generation, canonical) <==> ExactReport(report, generation, unfinished)
  {
    if ExactReport(report, generation, unfinished) {
      assert forall tx :: tx in Transactions(report) <==> tx in unfinished;
      AscendingUnique(Transactions(report), canonical);
    }
  }

  /** Each summary line names its transaction's state, and that state is safe. */
  predicate SafeIn(snapshots: map<Tx, Snapshot>, summary: seq<Recovered>, txs: seq<Tx>) {
    && |summary| <= |txs|
    && forall k :: 0 <= k < |summary| ==>
         && summary[k].tx == txs[k] && txs[k] in snapshots
         && Safe(snapshots[txs[k]]) && summary[k].state == snapshots[txs[k]].state
  }

  /** The first `n` of `txs` can be brought to an end, each from where it starts. */
  ghost predicate AllRecover(start: map<Tx, Snapshot>, poisoned: bool, txs: seq<Tx>, n: nat, turns: (Tx, nat) -> Turn) {
    n <= |txs| && forall k :: 0 <= k < n ==> txs[k] in start && Recovers(start[txs[k]], poisoned, txs[k], turns)
  }

  /** Only the first `n` of `txs` changed. */
  predicate Untouched(start: map<Tx, Snapshot>, now: map<Tx, Snapshot>, txs: seq<Tx>, n: nat) {
    n <= |txs| && now.Keys == start.Keys && forall q :: q in now && q !in txs[..n] ==> now[q] == start[q]
  }

  lemma UntouchedNext(start: map<Tx, Snapshot>, mid: map<Tx, Snapshot>, now: map<Tx, Snapshot>, txs: seq<Tx>, n: nat)
    requires n < |txs| && Ascending(txs) && txs[n] in start && Untouched(start, mid, txs, n)
    requires now.Keys == mid.Keys && forall q :: q in now && q != txs[n] ==> now[q] == mid[q]
    ensures Untouched(start, now, txs, n + 1) && mid[txs[n]] == start[txs[n]]
  {
    AllowanceGrows(txs, n);
    assert forall q :: q in txs[..n] ==> q in txs[..n + 1];
    assert txs[..n + 1][n] == txs[n];
    assert txs[n] !in txs[..n];
  }

  lemma AllRecoverMeaning(start: map<Tx, Snapshot>, poisoned: bool, txs: seq<Tx>, turns: (Tx, nat) -> Turn)
    requires forall tx :: tx in txs <==> tx in start && RequiresCandidate(Decide(start[tx]))
    ensures AllRecover(start, poisoned, txs, |txs|, turns) <==>
              forall tx :: tx in start && RequiresCandidate(Decide(start[tx])) ==> Recovers(start[tx], poisoned, tx, turns)
  {
    forall k | 0 <= k < |txs|
      ensures txs[k] in start && RequiresCandidate(Decide(start[txs[k]]))
    {
      assert txs[k] in txs;
    }
  }

  /** Whoever needed no recovery was safe before, and everybody else is now. */
  lemma NobodyLeft(start: map<Tx, Snapshot>, now: map<Tx, Snapshot>, summary: seq<Recovered>, txs: seq<Tx>)
    requires forall tx :: tx in txs <==> tx in start && RequiresCandidate(Decide(start[tx]))
    requires Untouched(start, now, txs, |txs|) && SafeIn(now, summary, txs) && |summary| == |txs|
    ensures forall tx :: tx in now ==> Safe(now[tx])
  {
    forall tx | tx in now
      ensures Safe(now[tx])
    {
      if tx in txs {
        var k :| 0 <= k < |txs| && txs[k] == tx;
        assert summary[k].tx == tx;
      } else {
        assert txs[..|txs|] == txs;
        RecoverySetMeaning(start[tx]);
      }
    }
  }

  lemma SafeNext(mid: map<Tx, Snapshot>, now: map<Tx, Snapshot>, summary: seq<Recovered>, txs: seq<Tx>)
    requires Ascending(txs) && |summary| < |txs| && SafeIn(mid, summary, txs)
    requires now.Keys == mid.Keys && forall q :: q in now && q != txs[|summary|] ==> now[q] == mid[q]
    requires txs[|summary|] in now && Safe(now[txs[|summary|]])
    ensures SafeIn(now, summary + [Recovered(txs[|summary|], now[txs[|summary|]].state)], txs)
  {
  }

  /** Every transaction moved only along the table. */
  ghost predicate AllOnward(before: map<Tx, Snapshot>, now: map<Tx, Snapshot>) {
    forall q {:trigger Onward(before[q].state, now[q].state)} ::
      q in now && q in before ==> Onward(before[q].state, now[q].state)
  }

  lemma StaysOnward(snapshots: map<Tx, Snapshot>)
    ensures AllOnward(snapshots, snapshots)
  {
    forall q | q in snapshots
      ensures Onward(snapshots[q].state, snapshots[q].state)
    {
      OnwardStep(snapshots[q].state, snapshots[q].state);
    }
  }

  /** Every request made since was justified. */
  ghost predicate NewlyJustified(asked: seq<Request>, requests: seq<Request>) {
    asked <= requests && forall k :: |asked| <= k < |requests| ==> Justified(requests[k])
  }

  /** Along the way, and where it stops: what has changed and what was requested. */
  ghost predicate SoFar(start: map<Tx, Snapshot>, asked: seq<Request>, now: map<Tx, Snapshot>, requests: seq<Request>,
                        txs: seq<Tx>, i: nat)
  {
    && Untouched(start, now, txs, i) && AllOnward(start, now)
    && NewlyJustified(asked, requests) && AskedWithin(asked, requests, txs, i)
  }

  lemma SoFarStart(snapshots: map<Tx, Snapshot>, requests: seq<Request>, txs: seq<Tx>)
    ensures SoFar(snapshots, requests, snapshots, requests, txs, 0)
  {
    StaysOnward(snapshots);
  }

  lemma SoFarNext(start: map<Tx, Snapshot>, asked: seq<Request>, mid: map<Tx, Snapshot>, more: seq<Request>,
                  now: map<Tx, Snapshot>, requests: seq<Request>, txs: seq<Tx>, i: nat)
    requires i < |txs| && Ascending(txs) && txs[i] in start && SoFar(start, asked, mid, more, txs, i)
    requires Steps(mid, more, now, requests, txs[i], MAX_STEPS)
    ensures mid[txs[i]] == start[txs[i]] && SoFar(start, asked, now, requests, txs, i + 1)
  {
    UntouchedNext(start, mid, now, txs, i);
    AskedNext(asked, more, requests, txs, i);
    OnwardTransitive(start[txs[i]].state, mid[txs[i]].state, now[txs[i]].state);
    JustifiedJoin(asked, more, requests);
  }

  lemma Bounded(start: map<Tx, Snapshot>, asked: seq<Request>, now: map<Tx, Snapshot>, requests: seq<Request>,
                txs: seq<Tx>, i: nat)
    requires SoFar(start, asked, now, requests, txs, i)
    ensures forall q :: Asked(requests, q) <= Asked(asked, q) + MAX_STEPS
  {
    AskedBounded(asked, requests, txs, i);
  }

  lemma RecoverNext(start: map<Tx, Snapshot>, poisoned: bool, txs: seq<Tx>, i: nat, turns: (Tx, nat) -> Turn)
    requires i < |txs| && txs[i] in start && AllRecover(start, poisoned, txs, i, turns)
    ensures Recovers(start[txs[i]], poisoned, txs[i], turns) <==> AllRecover(start, poisoned, txs, i + 1, turns)
    ensures AllRecover(start, poisoned, txs, |txs|, turns) ==> AllRecover(start, poisoned, txs, i + 1, turns)
  {
  }

  lemma StepsSafe(mid: map<Tx, Snapshot>, more: seq<Request>, now: map<Tx, Snapshot>, requests: seq<Request>,
                  summary: seq<Recovered>, txs: seq<Tx>)
    requires Ascending(txs) && |summary| < |txs| && SafeIn(mid, summary, txs)
    requires Steps(mid, more, now, requests, txs[|summary|], MAX_STEPS)
    requires txs[|summary|] in now && Safe(now[txs[|summary|]])
    ensures SafeIn(now, summary + [Recovered(txs[|summary|], now[txs[|summary|]].state)], txs)
  {
    SafeNext(mid, now, summary, txs);
  }

  /** One more transaction took its steps, whatever came of them. */
  lemma OneFurther(start: map<Tx, Snapshot>, asked: seq<Request>, mid: map<Tx, Snapshot>, more: seq<Request>,
                   now: map<Tx, Snapshot>, requests: seq<Request>, poisoned: bool, txs: seq<Tx>, i: nat,
                   reached: bool, turns: (Tx, nat) -> Turn)
    requires i < |txs| && Ascending(txs) && txs[i] in start
    requires SoFar(start, asked, mid, more, txs, i) && AllRecover(start, poisoned, txs, i, turns)
    requires Steps(mid, more, now, requests, txs[i], MAX_STEPS)
    requires reached <==> Recovers(mid[txs[i]], poisoned, txs[i], turns)
    ensures SoFar(start, asked, now, requests, txs, i + 1)
    ensures if reached then AllRecover(start, poisoned, txs, i + 1, turns)
            else !AllRecover(start, poisoned, txs, |txs|, turns)
  {
    SoFarNext(start, asked, mid, more, now, requests, txs, i);
    RecoverNext(start, poisoned, txs, i, turns);
  }

  lemma OneDone(start: map<Tx, Snapshot>, asked: seq<Request>, mid: map<Tx, Snapshot>, more: seq<Request>,
                now: map<Tx, Snapshot>, requests: seq<Request>, poisoned: bool, txs: seq<Tx>, done: seq<Recovered>,
                outcome: Outcome, turns: (Tx, nat) -> Turn)
    requires |done| < |txs| && Ascending(txs) && txs[|done|] in start && SafeIn(mid, done, txs)
    requires SoFar(start, asked, mid, more, txs, |done|) && AllRecover(start, poisoned, txs, |done|, turns)
    requires Steps(mid, more, now, requests, txs[|done|], MAX_STEPS)
    requires outcome.Reached? <==> Recovers(mid[txs[|done|]], poisoned, txs[|done|], turns)
    requires outcome.Reached? ==> Safe(now[txs[|done|]]) && outcome.state == now[txs[|done|]].state
    ensures SoFar(start, asked, now, requests, txs, |done| + 1)
    ensures if outcome.Stopped? then !AllRecover(start, poisoned, txs, |txs|, turns)
            else AllRecover(start, poisoned, txs, |done| + 1, turns)
    ensures outcome.Reached? ==> SafeIn(now, done + [Recovered(txs[|done|], outcome.state)], txs)
  {
    OneFurther(start, asked, mid, more, now, requests, poisoned, txs, |done|, outcome.Reached?, turns);
    if outcome.Reached? {
      StepsSafe(mid, more, now, requests, done, txs);
    }
  }

  lemma JustifiedJoin(asked: seq<Request>, more: seq<Request>, requests: seq<Request>)
    requires NewlyJustified(asked, more) && NewlyJustified(more, requests)
    ensures NewlyJustified(asked, requests)
  {
    forall k | |asked| <= k < |requests|
      ensures Justified(requests[k])
    {
      assert k < |more| ==> requests[k] == more[k];
    }
  }

  /** What one pass answers: stopped exactly when it cannot succeed, done exactly when anchors made it safe. */
  predicate Answers(s: Snapshot, poisoned: bool, turn: Turn, answer: Option<Outcome>, s': Snapshot) {
    if !Movable(s, poisoned, turn) then answer == Some(Stopped)
    else
      && s' == Moved(s, turn)
      && answer == if Safe(s') && !Finalizes(Decide(s)) then Some(Reached(s'.state)) else None
  }

  /** `states` leads from `s` to `now` in `i` successful passes. */
  ghost predicate Follows(states: seq<Snapshot>, s: Snapshot, now: Snapshot, poisoned: bool, tx: Tx,
                          turns: (Tx, nat) -> Turn, i: nat)
  {
    |states| == i + 1 && states[0] == s && states[i] == now && Passes(states, poisoned, tx, turns)
  }

  lemma SafeEnds(states: seq<Snapshot>, s: Snapshot, now: Snapshot, poisoned: bool, tx: Tx,
                 turns: (Tx, nat) -> Turn, i: nat)
    requires i < MAX_STEPS && Follows(states, s, now, poisoned, tx, turns, i) && Safe(now)
    ensures Recovers(s, poisoned, tx, turns)
  {
    assert Ends(states, s, poisoned, tx, turns);
  }

  lemma AnswerStops(states: seq<Snapshot>, s: Snapshot, now: Snapshot, poisoned: bool, tx: Tx,
                    turns: (Tx, nat) -> Turn, i: nat, s': Snapshot)
    requires i < MAX_STEPS && Follows(states, s, now, poisoned, tx, turns, i) && !Safe(now)
    requires Answers(now, poisoned, turns(tx, i), Some(Stopped), s')
    ensures !Recovers(s, poisoned, tx, turns)
  {
    NoOtherEnd(states, poisoned, tx, turns);
  }

  /** The next snapshot ends the way, leads on, or was the last one looked at. */
  lemma AnswerFollows(states: seq<Snapshot>, s: Snapshot, now: Snapshot, poisoned: bool, tx: Tx,
                      turns: (Tx, nat) -> Turn, i: nat, answer: Option<Outcome>, s': Snapshot)
    requires i < MAX_STEPS && Follows(states, s, now, poisoned, tx, turns, i)
    requires Answers(now, poisoned, turns(tx, i), answer, s') && answer != Some(Stopped)
    ensures Follows(states + [s'], s, s', poisoned, tx, turns, i + 1)
    ensures answer.Some? ==> Recovers(s, poisoned, tx, turns)
    ensures answer.None? && i + 1 == MAX_STEPS ==> !Recovers(s, poisoned, tx, turns)
  {
    var more := states + [s'];
    PassesNext(states, poisoned, tx, turns, s');
    if answer.Some? {
      assert Ends(more, s, poisoned, tx, turns);
    } else if i + 1 == MAX_STEPS {
      NoOtherEnd(more, poisoned, tx, turns);
    }
  }

  class RecoveringEngine {
    const generation: nat
    /** The log's transactions in their order; recovery adds and removes none. */
    const order: seq<Tx>
    var snapshots: map<Tx, Snapshot>
    var poisoned: bool
    ghost var requests: seq<Request>

    ghost predicate Valid()
      reads this
    {
      Ascending(order) && (forall tx :: tx in snapshots <==> tx in order)
    }

    ghost function Unfinished(): set<Tx>
      reads this
    {
      set tx | tx in snapshots && RequiresCandidate(Decide(snapshots[tx]))
    }

    constructor (lease: nat, sorted: seq<Tx>, replayed: map<Tx, Snapshot>)
      requires Ascending(sorted) && forall tx :: tx in replayed <==> tx in sorted
      ensures Valid() && generation == lease && order == sorted && snapshots == replayed && !poisoned && requests == []
    {
      generation, order, snapshots, poisoned, requests := lease, sorted, replayed, false, [];
    }

    method Record(tx: Tx, to: State, durable: bool) returns (ok: bool)
      requires Valid() && tx in snapshots
      modifies this`snapshots, this`poisoned
      ensures Valid()
      ensures ok == (!old(poisoned) && durable && ValidTransition(old(snapshots)[tx].state, to))
      ensures snapshots == if ok then old(snapshots)[tx := old(snapshots)[tx].(state := to)] else old(snapshots)
      ensures poisoned == (old(poisoned) || (ValidTransition(old(snapshots)[tx].state, to) && !durable))
    {
      if poisoned || !ValidTransition(snapshots[tx].state, to) {
        return false;
      }
      ok := durable;
      if ok {
        snapshots := snapshots[tx := snapshots[tx].(state := to)];
      } else {
        poisoned := true;
      }
    }

    /** The canonical recovery set, in order. */
    method CurrentRecoveryTransactions() returns (txs: seq<Tx>)
      requires Valid()
      ensures Ascending(txs)
      ensures forall tx :: tx in txs <==> tx in Unfinished()
    {
      txs := [];
      var i := 0;
      while i < |order|
        invariant 0 <= i <= |order|
        invariant txs == Pending(order[..i], snapshots)
      {
        assert order[..i + 1][..i] == order[..i] && order[i] in snapshots;
        if RequiresCandidate(Decide(snapshots[order[i]])) {
          txs := txs + [order[i]];
        }
        i := i + 1;
      }
      assert order[..i] == order;
      PendingMeaning(order, snapshots);
    }

    /** Record that only a person may continue, unless that is recorded already. */
    method Block(tx: Tx, durable: bool)
      requires Valid() && tx in snapshots
      modifies this`snapshots, this`poisoned
      ensures Valid() && snapshots.Keys == old(snapshots.Keys)
      ensures forall q :: q in snapshots && q != tx ==> snapshots[q] == old(snapshots[q])
      ensures !old(poisoned) && durable && ValidTransition(old(snapshots[tx].state), RecoveryRequired) ==>
                snapshots[tx] == old(snapshots[tx]).(state := RecoveryRequired)
      ensures Onward(old(snapshots[tx].state), snapshots[tx].state)
    {
      OnwardStep(snapshots[tx].state, RecoveryRequired);
      if snapshots[tx].state != RecoveryRequired {
        var _ := Record(tx, RecoveryRequired, durable);
      }
    }

    /** Ask for anchors, rebind, execute; `true` when the step made progress. */
    method UseAnchors(tx: Tx, turn: Turn) returns (progressed: bool)
      requires Valid() && tx in snapshots && !Safe(snapshots[tx]) && UsesAnchors(Decide(snapshots[tx]))
      modifies this`snapshots, this`requests
      ensures Valid() && snapshots.Keys == old(snapshots.Keys)
      ensures forall q :: q in snapshots && q != tx ==> snapshots[q] == old(snapshots[q])
      ensures NewlyJustified(old(requests), requests)
      ensures forall q :: Asked(requests, q) <= old(Asked(requests, q)) + if q == tx then 1 else 0
      ensures progressed <==> old(snapshots[tx]).hasMetadata && Progresses(old(snapshots[tx]), turn)
      ensures progressed ==> snapshots[tx] == turn.After(old(snapshots[tx]))
      ensures Onward(old(snapshots[tx].state), snapshots[tx].state)
    {
      var before := snapshots[tx];
      OnwardStep(before.state, before.state);
      if !before.hasMetadata {
        return false;
      }
      var after := turn.After(before);
      progressed := Progresses(before, turn);
      if turn.anchors {
        snapshots := snapshots[tx := after];
      }
      if after.state == before.state {
        FinishesInPlace(before, after);
      }
      assert Walked(before.state, turn.written) == after.state;
      ghost var request := Request(tx, before, Decide(before), if progressed then Some(after) else None);
      AskedOnce(requests, request);
      requests := requests + [request];
    }

    /** The finalize kinds need nothing but the log. */
    method Finalize(tx: Tx, work: Work, turn: Turn) returns (ok: bool)
      requires Valid() && tx in snapshots && Finalizes(work)
      requires ValidTransition(snapshots[tx].state, FinalState(work))
      modifies this`snapshots, this`poisoned
      ensures Valid() && snapshots.Keys == old(snapshots.Keys)
      ensures ok == (!old(poisoned) && turn.durable && (work.FinalizeCommit? ==> turn.certified))
      ensures snapshots == if ok then old(snapshots)[tx := old(snapshots)[tx].(state := FinalState(work))] else old(snapshots)
      ensures ok ==> poisoned == old(poisoned)
    {
      if work.FinalizeCommit? && !turn.certified {
        return false;
      }
      ok := Record(tx, FinalState(work), turn.durable);
    }

    /** One pass: `Some(outcome)` ends the loop, `None` goes on. */
    method Pass(tx: Tx, turn: Turn) returns (r: Option<Outcome>)
      requires Valid() && tx in snapshots && !Safe(snapshots[tx])
      modifies this
      ensures Valid() && Steps(old(snapshots), old(requests), snapshots, requests, tx, 1)
      ensures Answers(old(snapshots)[tx], old(poisoned), turn, r, snapshots[tx])
      ensures r != Some(Stopped) ==> poisoned == old(poisoned)
    {
      var s := snapshots[tx];
      var work := Decide(s);
      DecisionsAreLegal(s);
      if !turn.withinLimits || work.Required? {
        Block(tx, turn.durable);
        return Some(Stopped);
      }
      if Finalizes(work) {
        OnwardStep(s.state, FinalState(work));
        OnwardStep(s.state, s.state);
        var ok := Finalize(tx, work, turn);
        return if ok then None else Some(Stopped);
      }
      var progressed := UseAnchors(tx, turn);
      if !progressed {
        return Some(Stopped);
      }
      r := if Safe(snapshots[tx]) then Some(Reached(snapshots[tx].state)) else None;
    }

    method RecoverToTerminal(tx: Tx, turns: (Tx, nat) -> Turn) returns (r: Outcome)
      requires Valid() && tx in snapshots
      modifies this
      ensures Valid() && Steps(old(snapshots), old(requests), snapshots, requests, tx, MAX_STEPS)
      ensures r.Reached? ==> Safe(snapshots[tx]) && r.state == snapshots[tx].state && poisoned == old(poisoned)
      ensures r.Reached? <==> Recovers(old(snapshots)[tx], old(poisoned), tx, turns)
    {
      var i := 0;
      ghost var states := [snapshots[tx]];
      StepsStart(snapshots, requests, tx);
      while i < MAX_STEPS
        invariant 0 <= i <= MAX_STEPS
        invariant Valid() && tx in snapshots && Steps(old(snapshots), old(requests), snapshots, requests, tx, i)
        invariant poisoned == old(poisoned)
        invariant Follows(states, old(snapshots)[tx], snapshots[tx], poisoned, tx, turns, i)
        invariant i == MAX_STEPS ==> !Recovers(old(snapshots)[tx], poisoned, tx, turns)
      {
        StepsMore(old(snapshots), old(requests), snapshots, requests, tx, i);
        ghost var before, asked, was := snapshots, requests, poisoned;
        if Safe(snapshots[tx]) {
          SafeEnds(states, old(snapshots)[tx], snapshots[tx], poisoned, tx, turns, i);
          return Reached(snapshots[tx].state);
        }
        var outcome := Pass(tx, turns(tx, i));
        StepsJoin(old(snapshots), old(requests), before, asked, snapshots, requests, tx, i, 1);
        StepsMore(old(snapshots), old(requests), snapshots, requests, tx, i + 1);
        if outcome == Some(Stopped) {
          AnswerStops(states, old(snapshots)[tx], before[tx], was, tx, turns, i, snapshots[tx]);
          return Stopped;
        }
        AnswerFollows(states, old(snapshots)[tx], before[tx], was, tx, turns, i, outcome, snapshots[tx]);
        if outcome.Some? {
          return outcome.value;
        }
        states := states + [snapshots[tx]];
        i := i + 1;
      }
      r := Stopped;
    }

    predicate CanBegin()
      reads this
    {
      !poisoned && forall tx :: tx in snapshots ==> Safe(snapshots[tx])
    }

    /**
     A ready engine exists only if the report is exactly this generation's recovery set in
     order, small enough, and every one of its transactions ended in a safe terminal state.
     */
    method RecoverStartup(report: Report, turns: (Tx, nat) -> Turn) returns (ready: bool, summary: seq<Recovered>)
      requires Valid()
      modifies this
      ensures Valid()
      ensures ready <==>
                && ExactReport(report, generation, old(Unfinished())) && |report.candidates| <= MAX_TRANSACTIONS
                && !old(poisoned)
                && forall tx :: tx in old(Unfinished()) ==> Recovers(old(snapshots)[tx], false, tx, turns)
      ensures ready ==>
                |summary| == |report.candidates| && SafeIn(snapshots, summary, Transactions(report)) && CanBegin()
      ensures AllOnward(old(snapshots), snapshots)
      ensures NewlyJustified(old(requests), requests)
      ensures forall q :: Asked(requests, q) <= old(Asked(requests, q)) + MAX_STEPS
    {
      summary := [];
      StaysOnward(snapshots);
      var canonical := CurrentRecoveryTransactions();
      MatchesExactly(report, generation, canonical, Unfinished());
      if !Matches(report, generation, canonical) || |report.candidates| > MAX_TRANSACTIONS {
        return false, [];
      }
      assert forall i :: 0 <= i < |canonical| ==> canonical[i] in canonical;
      var stopped;
      ghost var n;
      summary, stopped, n := RecoverEach(canonical, turns);
      Bounded(old(snapshots), old(requests), snapshots, requests, canonical, n);
      AllRecoverMeaning(old(snapshots), old(poisoned), canonical, turns);
      if !stopped {
        NobodyLeft(old(snapshots), snapshots, summary, canonical);
      }
      ready := !stopped && CanBegin();
    }

    /** The next transaction, remembering where all of them started. */
    method RecoverOne(txs: seq<Tx>, done: seq<Recovered>, turns: (Tx, nat) -> Turn,
                      ghost start: map<Tx, Snapshot>, ghost asked: seq<Request>)
      returns (summary: seq<Recovered>, stopped: bool)
      requires Valid() && Ascending(txs) && |done| < |txs| && txs[|done|] in start && SafeIn(snapshots, done, txs)
      requires SoFar(start, asked, snapshots, requests, txs, |done|) && AllRecover(start, poisoned, txs, |done|, turns)
      modifies this
      ensures Valid() && snapshots.Keys == old(snapshots.Keys)
      ensures SoFar(start, asked, snapshots, requests, txs, |done| + 1)
      ensures if stopped then !AllRecover(start, old(poisoned), txs, |txs|, turns)
              else AllRecover(start, old(poisoned), txs, |done| + 1, turns)
      ensures !stopped ==> |summary| == |done| + 1 && SafeIn(snapshots, summary, txs) && poisoned == old(poisoned)
    {
      ghost var more, mid, was := requests, snapshots, poisoned;
      var outcome := RecoverToTerminal(txs[|done|], turns);
      OneDone(start, asked, mid, more, snapshots, requests, was, txs, done, outcome, turns);
      stopped := outcome.Stopped?;
      summary := if stopped then done else done + [Recovered(txs[|done|], outcome.state)];
    }

    /** All of them in order, up to the first that stops; `n` of them took their steps. */
    method RecoverEach(txs: seq<Tx>, turns: (Tx, nat) -> Turn)
      returns (summary: seq<Recovered>, stopped: bool, ghost n: nat)
      requires Valid() && Ascending(txs) && forall i :: 0 <= i < |txs| ==> txs[i] in snapshots
      modifies this
      ensures Valid() && SoFar(old(snapshots), old(requests), snapshots, requests, txs, n)
      ensures !stopped <==> AllRecover(old(snapshots), old(poisoned), txs, |txs|, turns)
      ensures !stopped ==> n == |summary| == |txs| && SafeIn(snapshots, summary, txs) && poisoned == old(poisoned)
    {
      summary, stopped, n := [], false, 0;
      SoFarStart(snapshots, requests, txs);
      while |summary| < |txs|
        invariant n == |summary| <= |txs| && !stopped
        invariant Valid() && poisoned == old(poisoned) && SafeIn(snapshots, summary, txs)
        invariant SoFar(old(snapshots), old(requests), snapshots, requests, txs, n)
        invariant AllRecover(old(snapshots), poisoned, txs, n, turns)
      {
        n := n + 1;
        summary, stopped := RecoverOne(txs, summary, turns, old(snapshots), old(requests));
        if stopped {
          return;
        }
      }
    }
  }
}
