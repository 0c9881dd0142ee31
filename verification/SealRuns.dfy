/**
 What the held-mode machine keeps over every sequence of operations, with the object
 changed by others at any point and the system calls failing at will.
 */
module SealRuns {
  import opened Wrappers
  import opened ModeBits
  import opened HeldMode

  /**
   The evidence, the object, the prepared changes not yet applied, and what a recorder
   would have seen: every change attempted, every lineage bound and every one restored.
   */
  datatype World = World(
    evidence: Evidence, held: Snapshot, tokens: seq<Prepared>,
    attempts: seq<Prepared>, bound: multiset<Lineage>, restored: multiset<Lineage>)

  datatype Op =
    | Seals(acquire: bool, fault: Option<Failure>)
    | Restores(transaction: nat, mutation: nat, expected: Mode, original: Mode, fault: Option<Failure>)
    | Applies(token: nat, weather: Weather)
    | Records(transaction: nat, mutation: nat, original: Mode, sealed: Mode)
    | Rebinds(transaction: nat, mutation: nat, original: Mode, sealed: Mode, subject: Subject)
    | Invalidates
    | Meddles(attributes: Snapshot)

  predicate Enabled(w: World, op: Op) {
    op.Applies? ==> op.token < |w.tokens|
  }

  function Issued(w: World, r: (Evidence, Result<Prepared>)): World {
    w.(evidence := r.0, tokens := if r.1.Ok? then w.tokens + [r.1.value] else w.tokens)
  }

  function Bound(w: World, r: (Evidence, Option<Failure>)): World {
    w.(evidence := r.0, bound := if r.1.None? && r.0.lineage.Some? then w.bound + multiset{r.0.lineage.value} else w.bound)
  }

  function Applied(w: World, i: nat, weather: Weather): World
    requires i < |w.tokens|
  {
    var p := w.tokens[i];
    var f := Apply(w.evidence, w.held, p, weather);
    World(f.evidence, f.held, w.tokens[..i] + w.tokens[i + 1..],
          if f.outcome.RefusedBeforeMutation? then w.attempts else w.attempts + [p],
          w.bound,
          if f.outcome.Changed() && p.kind.Restore? then w.restored + multiset{p.kind.lineage} else w.restored)
  }

  function Step(w: World, op: Op): World
    requires Enabled(w, op)
  {
    match op
    case Seals(acquire, fault) => Issued(w, PrepareSeal(w.evidence, w.held, fault, acquire))
    case Restores(t, m, expected, original, fault) =>
      Issued(w, PrepareRestore(w.evidence, w.held, fault, t, m, expected, original))
    case Applies(i, weather) => Applied(w, i, weather)
    case Records(t, m, original, sealed) => Bound(w, Recorded(w.evidence, t, m, original, sealed))
    case Rebinds(t, m, original, sealed, subject) => Bound(w, Rebound(w.evidence, t, m, original, sealed, subject))
    case Invalidates => w.(evidence := w.evidence.Invalidated(w.evidence.mode))
    case Meddles(attributes) => w.(held := attributes)
  }

  function Run(w: World, ops: seq<Op>): Option<World>
    decreases |ops|
  {
    if ops == [] then Some(w)
    else if !Enabled(w, ops[0]) then None
    else Run(Step(w, ops[0]), ops[1..])
  }

  /** Freshly certified: verified, no lineage, nothing prepared. */
  predicate Certified(w: World) {
    && w.evidence.verified && w.evidence.lineage == None
    && w.tokens == [] && w.attempts == [] && w.bound == multiset{} && w.restored == multiset{}
  }

  // ----- what every run keeps -------------------------------------------------------------------

  /** A change aims at a minimal seal of the verified mode or at its lineage's original mode. */
  predicate Aimed(subject: Subject, p: Prepared) {
    && p.pre.subject == subject
    && match p.kind
       case Seal => p.target == Sealed(p.pre.mode) || p.target == Sealed(p.pre.mode.WithOwnerAccess())
       case Restore(l) => p.target == l.original && p.pre.mode == l.sealed && l.subject == subject
  }

  predicate AllAimed(subject: Subject, ps: seq<Prepared>) {
    forall i :: 0 <= i < |ps| ==> Aimed(subject, ps[i])
  }

  function Current(e: Evidence): multiset<Lineage> {
    if e.lineage.Some? then multiset{e.lineage.value} else multiset{}
  }

  predicate Kept(w: World) {
    && AllAimed(w.evidence.subject, w.tokens) && AllAimed(w.evidence.subject, w.attempts)
    && w.restored + Current(w.evidence) <= w.bound
    && (w.evidence.lineage.Some? ==> w.evidence.lineage.value.subject == w.evidence.subject)
  }

  lemma PrepareAims(e: Evidence, held: Snapshot, fault: Option<Failure>, target: Mode, kind: Kind)
    ensures var r := Prepare(e, held, fault, target, kind);
            && r.0 == e.(verified := r.0.verified)
            && (r.1.Ok? ==> r.1.value == Prepared(Snapshot(e.subject, e.mode), target, kind))
  {
    ValidSnapshotMeaning(held, e.subject, e.mode);
  }

  lemma IssuedKeeps(w: World, r: (Evidence, Result<Prepared>))
    requires Kept(w) && r.0 == w.evidence.(verified := r.0.verified)
    requires r.1.Ok? ==> Aimed(w.evidence.subject, r.1.value)
    ensures Kept(Issued(w, r))
  {
  }

  lemma BoundKeeps(w: World, r: (Evidence, Option<Failure>), l: Lineage)
    requires Kept(w) && l.subject == w.evidence.subject
    requires r.1.Some? ==> r.0 == w.evidence
    requires r.1.None? ==> w.evidence.lineage.None? && r.0 == w.evidence.(lineage := Some(l))
    ensures Kept(Bound(w, r))
  {
  }

  lemma SealsKeeps(w: World, acquire: bool, fault: Option<Failure>)
    requires Kept(w)
    ensures Kept(Issued(w, PrepareSeal(w.evidence, w.held, fault, acquire)))
    ensures PrepareSeal(w.evidence, w.held, fault, acquire).0.subject == w.evidence.subject
  {
    var e := w.evidence;
    PrepareAims(e, w.held, fault, Sealed(if acquire then e.mode.WithOwnerAccess() else e.mode), Seal);
    IssuedKeeps(w, PrepareSeal(e, w.held, fault, acquire));
  }

  lemma RestoresKeeps(w: World, fault: Option<Failure>, t: nat, m: nat, expected: Mode, original: Mode)
    requires Kept(w)
    ensures Kept(Issued(w, PrepareRestore(w.evidence, w.held, fault, t, m, expected, original)))
    ensures PrepareRestore(w.evidence, w.held, fault, t, m, expected, original).0.subject == w.evidence.subject
  {
    var e := w.evidence;
    if e.lineage.Some? {
      PrepareAims(e, w.held, fault, original, Restore(e.lineage.value));
    }
    IssuedKeeps(w, PrepareRestore(e, w.held, fault, t, m, expected, original));
  }

  lemma StepKeeps(w: World, op: Op)
    requires Kept(w) && Enabled(w, op)
    ensures Kept(Step(w, op)) && Step(w, op).evidence.subject == w.evidence.subject
  {
    var e := w.evidence;
    match op
    case Seals(acquire, fault) => SealsKeeps(w, acquire, fault);
    case Restores(t, m, expected, original, fault) => RestoresKeeps(w, fault, t, m, expected, original);
    case Applies(i, weather) => ApplyKeeps(w, i, weather);
    case Records(t, m, original, sealed) =>
      BoundKeeps(w, Recorded(e, t, m, original, sealed), Lineage(t, m, e.subject, original, sealed));
    case Rebinds(t, m, original, sealed, subject) =>
      BoundKeeps(w, Rebound(e, t, m, original, sealed, subject), Lineage(t, m, e.subject, original, sealed));
    case _ =>
  }

  /** An application keeps the subject, and keeps the lineage or gives it up. */
  lemma ApplyLineage(e: Evidence, held: Snapshot, p: Prepared, w: Weather)
    ensures var f := Apply(e, held, p, w);
            && f.evidence.subject == e.subject
            && (f.evidence.lineage == None || f.evidence.lineage == e.lineage)
            && (f.outcome.Changed() && p.kind.Restore? ==>
                  f.evidence.lineage == None && e.lineage == Some(p.kind.lineage))
  {
  }

  lemma ApplyKeeps(w: World, i: nat, weather: Weather)
    requires Kept(w) && i < |w.tokens|
    ensures Kept(Applied(w, i, weather)) && Applied(w, i, weather).evidence.subject == w.evidence.subject
  {
    ApplyLineage(w.evidence, w.held, w.tokens[i], weather);
    var rest := w.tokens[..i] + w.tokens[i + 1..];
    forall k | 0 <= k < |rest|
      ensures Aimed(w.evidence.subject, rest[k])
    {
      assert rest[k] == w.tokens[if k < i then k else k + 1];
    }
  }

  lemma {:induction false} RunKeeps(w: World, ops: seq<Op>, t: World)
    requires Kept(w) && Run(w, ops) == Some(t)
    ensures Kept(t) && t.evidence.subject == w.evidence.subject
    decreases |ops|
  {
    if ops != [] {
      StepKeeps(w, ops[0]);
      RunKeeps(Step(w, ops[0]), ops[1..], t);
    }
  }

  /**
   Over every run: each attempted change aimed at a minimal seal of a mode it had verified
   on this very object, or at its lineage's original mode; and no lineage is restored more
   often than it was bound.
   */
  lemma ChangesAreAuthorised(w: World, ops: seq<Op>, t: World)
    requires Certified(w) && Run(w, ops) == Some(t)
    ensures AllAimed(w.evidence.subject, t.attempts)
    ensures forall l :: t.restored[l] <= t.bound[l]
    ensures t.evidence.lineage.Some? ==>
              t.restored[t.evidence.lineage.value] < t.bound[t.evidence.lineage.value]
  {
    RunKeeps(w, ops, t);
    var current := Current(t.evidence);
    forall l
      ensures t.restored[l] + current[l] <= t.bound[l]
    {
      assert (t.restored + current)[l] <= t.bound[l];
    }
  }

  /** Nothing is attempted on an object that is not exactly as it was when the change was prepared. */
  lemma AttemptsSawThePrepared(e: Evidence, held: Snapshot, p: Prepared, w: Weather)
    ensures !Apply(e, held, p, w).outcome.RefusedBeforeMutation? ==> held == p.pre
    ensures Apply(e, held, p, w).outcome.RefusedBeforeMutation? ==> Apply(e, held, p, w).held == held
  {
    ValidSnapshotMeaning(held, p.pre.subject, p.pre.mode);
  }

  // ----- verified evidence and its lineage ----------------------------------------------------------

  /** Verified evidence that carries a lineage is at the lineage's sealed mode. */
  predicate AtSealedMode(e: Evidence) {
    e.verified && e.lineage.Some? ==> e.mode == e.lineage.value.sealed
  }

  /**
   Known before the call: a seal that aims elsewhere than the active lineage is about to be
   applied to an object that is still exactly as the seal was prepared for.
   */
  predicate Endangers(e: Evidence, held: Snapshot, p: Prepared) {
    && p.kind.Seal? && e.lineage.Some? && p.target != e.lineage.value.sealed
    && held == p.pre && held.subject.effectiveUid == held.subject.owner
  }

  /** A caller's check: nothing that endangers the lineage is applied. */
  predicate Disciplined(w: World, op: Op) {
    op.Applies? && op.token < |w.tokens| ==> !Endangers(w.evidence, w.held, w.tokens[op.token])
  }

  /** One application breaks the property exactly when it lands a seal aiming elsewhere. */
  lemma ApplyAtSealedMode(e: Evidence, held: Snapshot, p: Prepared, w: Weather)
    requires AtSealedMode(e)
    ensures var f := Apply(e, held, p, w);
            AtSealedMode(f.evidence) <==>
              !(p.kind.Seal? && e.lineage.Some? && p.target != e.lineage.value.sealed && f.outcome.AppliedVerified?)
  {
    var f := Apply(e, held, p, w);
    if f.outcome.AppliedVerified? {
      ValidSnapshotMeaning(f.held, p.pre.subject, p.target);
    }
  }

  /** An application can break the property, in some weather, exactly when it endangers the lineage. */
  lemma BreaksExactlyWhenEndangered(e: Evidence, held: Snapshot, p: Prepared)
    requires AtSealedMode(e)
    ensures (forall w :: AtSealedMode(Apply(e, held, p, w).evidence)) <==> !Endangers(e, held, p)
  {
    ValidSnapshotMeaning(held, p.pre.subject, p.pre.mode);
    if Endangers(e, held, p) {
      ValidSnapshotMeaning(held.(mode := p.target), p.pre.subject, p.target);
      ApplyAtSealedMode(e, held, p, CALM);
      assert !AtSealedMode(Apply(e, held, p, CALM).evidence);
    } else {
      forall w
        ensures AtSealedMode(Apply(e, held, p, w).evidence)
      {
        ApplyAtSealedMode(e, held, p, w);
        AttemptsSawThePrepared(e, held, p, w);
      }
    }
  }

  lemma StepAtSealedMode(w: World, op: Op)
    requires AtSealedMode(w.evidence) && Enabled(w, op) && Disciplined(w, op)
    ensures AtSealedMode(Step(w, op).evidence)
  {
    var e := w.evidence;
    match op
    case Seals(acquire, fault) =>
      PrepareAims(e, w.held, fault, Sealed(if acquire then e.mode.WithOwnerAccess() else e.mode), Seal);
    case Restores(_, _, _, original, fault) =>
      if e.lineage.Some? {
        PrepareAims(e, w.held, fault, original, Restore(e.lineage.value));
      }
    case Applies(i, weather) =>
      BreaksExactlyWhenEndangered(e, w.held, w.tokens[i]);
      assert AtSealedMode(Apply(e, w.held, w.tokens[i], weather).evidence);
    case _ =>
  }

  predicate DisciplinedRun(w: World, ops: seq<Op>)
    decreases |ops|
  {
    ops == [] || (Disciplined(w, ops[0]) && (Enabled(w, ops[0]) ==> DisciplinedRun(Step(w, ops[0]), ops[1..])))
  }

  /** In every disciplined run, verified evidence with a lineage is at its sealed mode. */
  lemma {:induction false} LineageMode(w: World, ops: seq<Op>, t: World)
    requires AtSealedMode(w.evidence) && Run(w, ops) == Some(t) && DisciplinedRun(w, ops)
    ensures AtSealedMode(t.evidence)
    decreases |ops|
  {
    if ops != [] {
      StepAtSealedMode(w, ops[0]);
      LineageMode(Step(w, ops[0]), ops[1..], t);
    }
  }

  const CALM := Weather(None, None, false, None, None)

  lemma RunCons(w: World, op: Op, rest: seq<Op>)
    requires Enabled(w, op)
    ensures Run(w, [op] + rest) == Run(Step(w, op), rest)
  {
    assert ([op] + rest)[1..] == rest;
  }

  const OWNER_READS := Mode(0, 0, Triple(true, false, true), Triple(false, false, false), Triple(false, false, false))
  const SUBJECT := Subject(0, 0, 0, 0, 7, 0, 7, {})

  /** Two seals prepared, one applied and recorded; the second token is still outstanding. */
  lemma TwoSealsPrepared(w: World)
    requires w == World(Evidence(SUBJECT, OWNER_READS, true, None), Snapshot(SUBJECT, OWNER_READS), [], [],
                        multiset{}, multiset{})
    ensures var p := Prepared(w.held, OWNER_READS, Seal);
            var q := Prepared(w.held, OWNER_READS.WithOwnerAccess(), Seal);
            Run(w, [Seals(false, None)] + ([Seals(true, None)] + [])) == Some(w.(tokens := [p, q]))
  {
    var p := Prepared(w.held, OWNER_READS, Seal);
    var w1 := Step(w, Seals(false, None));
    assert w1 == w.(tokens := [p]);
    RunCons(w, Seals(false, None), [Seals(true, None)] + []);
    RunCons(w1, Seals(true, None), []);
    var q := Prepared(w.held, OWNER_READS.WithOwnerAccess(), Seal);
    assert Sealed(OWNER_READS.WithOwnerAccess()) == OWNER_READS.WithOwnerAccess();
    assert PrepareSeal(w.evidence, w.held, None, true) == (w.evidence, Ok(q));
    assert Step(w1, Seals(true, None)).tokens == [p, q];
  }

  /**
   Without the discipline it fails: of two seals prepared at mode 0500, the one that also
   takes owner access still applies after the other was applied and recorded.
   */
  lemma SecondSealBreaksLineage() returns (w: World, prepare: seq<Op>, w2: World, rest: seq<Op>, t: World)
    ensures Certified(w) && Run(w, prepare) == Some(w2) && Run(w2, rest) == Some(t)
    ensures !AtSealedMode(t.evidence)
  {
    w := World(Evidence(SUBJECT, OWNER_READS, true, None), Snapshot(SUBJECT, OWNER_READS), [], [],
               multiset{}, multiset{});
    var p, q := Prepared(w.held, OWNER_READS, Seal), Prepared(w.held, OWNER_READS.WithOwnerAccess(), Seal);
    TwoSealsPrepared(w);
    prepare, w2 := [Seals(false, None)] + ([Seals(true, None)] + []), w.(tokens := [p, q]);
    var apply, record := Applies(0, CALM), Records(1, 1, OWNER_READS, OWNER_READS);
    var w3 := Step(w2, apply);
    assert w3.tokens == [q] && w3.evidence == w.evidence && w3.held == w.held;
    var w4 := Step(w3, record);
    t := Step(w4, apply);
    rest := [apply] + ([record] + ([apply] + []));
    RunCons(w2, apply, [record] + ([apply] + []));
    RunCons(w3, record, [apply] + []);
    RunCons(w4, apply, []);
    assert t.evidence.mode.owner.write;
  }

  // ----- every outcome ------------------------------------------------------------------------------

  /** The prepared object was found as prepared, and a restore is the current lineage's. */
  predicate Admissible(e: Evidence, held: Snapshot, p: Prepared, w: Weather) {
    && w.inspection.None? && held == p.pre && p.pre.subject.effectiveUid == p.pre.subject.owner
    && (p.kind.Restore? ==> e.lineage == Some(p.kind.lineage))
  }

  /** Refused exactly when inadmissible: nothing is touched, and only a failed look costs the verification. */
  lemma RefusedExactly(e: Evidence, held: Snapshot, p: Prepared, w: Weather)
    ensures var f := Apply(e, held, p, w);
            && (f.outcome.RefusedBeforeMutation? <==> !Admissible(e, held, p, w))
            && (f.outcome.RefusedBeforeMutation? ==>
                  && f.held == held && f.evidence == e.(verified := f.evidence.verified)
                  && (w.inspection.None? && held == p.pre && held.subject.effectiveUid == held.subject.owner ==>
                        f.evidence == e)
                  && (w.inspection.Some? || held != p.pre ==> !f.evidence.verified))
  {
    ValidSnapshotMeaning(held, p.pre.subject, p.pre.mode);
  }

  /** A refused change: evidence and lineage stay exactly when the object is seen to be as before. */
  lemma NotAppliedExactly(e: Evidence, held: Snapshot, p: Prepared, w: Weather)
    requires Admissible(e, held, p, w) && w.refusesChmod
    ensures var f, after := Apply(e, held, p, w), Or(w.meddledAfter, Or(w.meddled, held));
            && f.held == after
            && (f.outcome.NotAppliedVerified? <==> w.reinspection.None? && after == p.pre)
            && (if f.outcome.NotAppliedVerified? then f.evidence == e
                else f.outcome.OutcomeUnknown? && f.evidence == Evidence(e.subject, e.mode, false, None))
  {
    ValidSnapshotMeaning(held, p.pre.subject, p.pre.mode);
    ValidSnapshotMeaning(Or(w.meddledAfter, Or(w.meddled, held)), p.pre.subject, p.pre.mode);
  }

  /** An applied change: verified exactly when the object is seen to be the prepared one at the target. */
  lemma AppliedExactly(e: Evidence, held: Snapshot, p: Prepared, w: Weather)
    requires Admissible(e, held, p, w) && !w.refusesChmod
    ensures var f, after := Apply(e, held, p, w), Or(w.meddledAfter, Or(w.meddled, held).(mode := p.target));
            && f.held == after && f.outcome.Changed()
            && (f.outcome.AppliedVerified? <==> w.reinspection.None? && after == Snapshot(p.pre.subject, p.target))
            && (if f.outcome.AppliedVerified?
                then f.evidence == Evidence(e.subject, p.target, true, if p.kind.Restore? then None else e.lineage)
                else !f.evidence.verified && f.evidence.lineage == None)
  {
    ValidSnapshotMeaning(held, p.pre.subject, p.pre.mode);
    ValidSnapshotMeaning(Or(w.meddledAfter, Or(w.meddled, held).(mode := p.target)), p.pre.subject, p.target);
  }

  // ----- round trip ----------------------------------------------------------------------------------

  /**
   Seal, record, restore: with nobody in the way the object and the evidence come back
   exactly as they were; if anybody changed the object in between, the restore refuses
   before touching it.
   */
  lemma SealRestoreRoundTrip(e: Evidence, acquire: bool, t: nat, m: nat, meddled: Snapshot, again: Snapshot)
    requires e.verified && e.lineage.None? && e.mode.PermissionsOnly() && e.subject.effectiveUid == e.subject.owner
    ensures var held := Snapshot(e.subject, e.mode);
            var seal := PrepareSeal(e, held, None, acquire);
            && seal.1.Ok?
            && var sealed := Apply(seal.0, held, seal.1.value, CALM);
               && sealed.outcome.AppliedVerified? && NamespaceExclusive(sealed.held.mode)
               && var recorded := Recorded(sealed.evidence, t, m, e.mode, seal.1.value.target);
                  && recorded.1 == None
                  && var restore := PrepareRestore(recorded.0, meddled, None, t, m, seal.1.value.target, e.mode);
                     && (restore.1.Ok? <==> meddled == sealed.held)
                     && (restore.1.Ok? ==>
                           var back := Apply(restore.0, again, restore.1.value, CALM);
                           if again == sealed.held
                           then back.held == held && back.evidence == e && back.outcome.AppliedVerified?
                           else back.held == again && back.outcome.RefusedBeforeMutation?)
  {
    var held := Snapshot(e.subject, e.mode);
    var target := Sealed(if acquire then e.mode.WithOwnerAccess() else e.mode);
    SealedMeaning(if acquire then e.mode.WithOwnerAccess() else e.mode);
    ValidSnapshotMeaning(held, e.subject, e.mode);
    ValidSnapshotMeaning(Snapshot(e.subject, target), e.subject, target);
    ValidSnapshotMeaning(meddled, e.subject, target);
    ValidSnapshotMeaning(again, e.subject, target);
  }

  /**
   Every weather: a restore that reports verified success consumed exactly its own lineage and
   left the object at exactly the original mode; one that refuses left the object alone.
   */
  lemma RestoreGivesBack(e: Evidence, held: Snapshot, p: Prepared, w: Weather)
    requires Aimed(e.subject, p) && p.kind.Restore?
    ensures var f := Apply(e, held, p, w);
            && (f.outcome.AppliedVerified? ==>
                  && held == Snapshot(e.subject, p.kind.lineage.sealed)
                  && f.held == Snapshot(e.subject, p.kind.lineage.original)
                  && e.lineage == Some(p.kind.lineage)
                  && f.evidence == Evidence(e.subject, p.kind.lineage.original, true, None))
            && (f.outcome.RefusedBeforeMutation? ==> f.held == held)
            && (f.outcome.Changed() ==> f.evidence.lineage == None)
  {
    var f := Apply(e, held, p, w);
    ValidSnapshotMeaning(held, p.pre.subject, p.pre.mode);
    if f.outcome.AppliedVerified? {
      ValidSnapshotMeaning(f.held, p.pre.subject, p.target);
    }
  }

  /** The same for a seal: verified success is exactly the minimal seal of the mode found. */
  lemma SealLands(e: Evidence, held: Snapshot, p: Prepared, w: Weather)
    requires Aimed(e.subject, p) && p.kind.Seal?
    ensures var f := Apply(e, held, p, w);
            && (f.outcome.AppliedVerified? ==>
                  && held.subject == f.held.subject == e.subject
                  && (f.held.mode == Sealed(held.mode) || f.held.mode == Sealed(held.mode.WithOwnerAccess()))
                  && NamespaceExclusive(f.held.mode)
                  && f.evidence == Evidence(e.subject, f.held.mode, true, e.lineage))
            && (f.outcome.RefusedBeforeMutation? ==> f.held == held)
  {
    var f := Apply(e, held, p, w);
    ValidSnapshotMeaning(held, p.pre.subject, p.pre.mode);
    if f.outcome.AppliedVerified? {
      ValidSnapshotMeaning(f.held, p.pre.subject, p.target);
      SealedMeaning(held.mode);
      SealedMeaning(held.mode.WithOwnerAccess());
    }
  }

  /** So over every run and every weather, whatever happened before. */
  lemma RestoreAfterAnyRun(w: World, ops: seq<Op>, t: World, i: nat, weather: Weather)
    requires Certified(w) && Run(w, ops) == Some(t) && i < |t.tokens| && t.tokens[i].kind.Restore?
    ensures var l, f := t.tokens[i].kind.lineage, Apply(t.evidence, t.held, t.tokens[i], weather);
            && (f.outcome.AppliedVerified? ==>
                  && f.held == Snapshot(w.evidence.subject, l.original)
                  && t.evidence.lineage == Some(l) && f.evidence.lineage == None
                  && t.restored[l] < t.bound[l])
            && (f.outcome.RefusedBeforeMutation? ==> f.held == t.held)
  {
    RunKeeps(w, ops, t);
    assert Aimed(t.evidence.subject, t.tokens[i]);
    RestoreGivesBack(t.evidence, t.held, t.tokens[i], weather);
    ChangesAreAuthorised(w, ops, t);
  }

  /**
   The round trip under every weather, with the object replaced by anybody at any point: if the
   seal and then the restore report verified success, the object is exactly what was certified
   and so is the evidence; a refusal leaves the object as it was found.
   */
  lemma SealRestoreEveryWeather(e: Evidence, acquire: bool, t: nat, m: nat,
                                found: Snapshot, f1: Option<Failure>, sealing: Snapshot, w1: Weather,
                                later: Snapshot, f2: Option<Failure>, restoring: Snapshot, w2: Weather)
    requires PrepareSeal(e, found, f1, acquire).1.Ok?
    ensures var seal := PrepareSeal(e, found, f1, acquire);
            var target := seal.1.value.target;
            var sealed := Apply(seal.0, sealing, seal.1.value, w1);
            sealed.outcome.AppliedVerified? ==>
              var recorded := Recorded(sealed.evidence, t, m, e.mode, target);
              && recorded.1 == None
              && var restore := PrepareRestore(recorded.0, later, f2, t, m, target, e.mode);
                 restore.1.Ok? ==>
                   var back := Apply(restore.0, restoring, restore.1.value, w2);
                   && (back.outcome.AppliedVerified? ==> back.held == found && back.evidence == e)
                   && (back.outcome.RefusedBeforeMutation? ==> back.held == restoring)
  {
    var seal := PrepareSeal(e, found, f1, acquire);
    var p := seal.1.value;
    PrepareAims(e, found, f1, Sealed(if acquire then e.mode.WithOwnerAccess() else e.mode), Seal);
    ValidSnapshotMeaning(found, e.subject, e.mode);
    var sealed := Apply(seal.0, sealing, p, w1);
    if sealed.outcome.AppliedVerified? {
      SealLands(e, sealing, p, w1);
      ValidSnapshotMeaning(sealed.held, p.pre.subject, p.target);
      var recorded := Recorded(sealed.evidence, t, m, e.mode, p.target);
      var l := Lineage(t, m, e.subject, e.mode, p.target);
      PrepareAims(recorded.0, later, f2, e.mode, Restore(l));
      var restore := PrepareRestore(recorded.0, later, f2, t, m, p.target, e.mode);
      if restore.1.Ok? {
        RestoreGivesBack(recorded.0, restoring, restore.1.value, w2);
      }
    }
  }
}
