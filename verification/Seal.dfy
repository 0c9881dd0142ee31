/**
 The held-descriptor mode machine: evidence about one directory, the changes prepared
 from it, and the lineage token that authorises putting the original mode back.  The
 object itself belongs to the operating system and may be changed by anybody, at any
 time, including between the check and the change.
 */
module HeldMode {
  import opened Wrappers
  import opened ModeBits

  // ----- objects, snapshots and evidence ---------------------------------------------------------

  datatype Subject = Subject(
    backend: nat, mountId: nat, device: nat, inode: nat, owner: nat, group: nat, effectiveUid: nat, groups: set<nat>)

  datatype Snapshot = Snapshot(subject: Subject, mode: Mode)

  datatype Failure =
    | EvidenceUnverified | SealAlreadyActive | MissingSealLineage | SealLineageMismatch | InvalidTargetMode
    | BackendChanged | MountChanged | IdentityChanged | OwnerChanged | GroupChanged
    | EffectiveUidChanged | EffectiveGroupsChanged | ModeChanged(expected: Mode, actual: Mode)
    | InspectionFailed

  datatype Result<T> = Ok(value: T) | Err(error: Failure)

  function ValidateSnapshot(actual: Snapshot, expected: Subject, mode: Mode): Option<Failure> {
    var a := actual.subject;
    if a.backend != expected.backend then Some(BackendChanged)
    else if a.mountId != expected.mountId then Some(MountChanged)
    else if a.device != expected.device || a.inode != expected.inode then Some(IdentityChanged)
    else if a.owner != expected.owner then Some(OwnerChanged)
    else if a.group != expected.group then Some(GroupChanged)
    else if a.effectiveUid != expected.effectiveUid || a.effectiveUid != a.owner then Some(EffectiveUidChanged)
    else if a.groups != expected.groups then Some(EffectiveGroupsChanged)
    else if actual.mode != mode then Some(ModeChanged(mode, actual.mode))
    else None
  }

  /** Passing means the same object, owner and credentials at exactly that mode. */
  lemma ValidSnapshotMeaning(actual: Snapshot, expected: Subject, mode: Mode)
    ensures ValidateSnapshot(actual, expected, mode) == None <==>
              actual == Snapshot(expected, mode) && expected.effectiveUid == expected.owner
  {
    if ValidateSnapshot(actual, expected, mode) == None {
      assert actual.subject == expected;
    }
  }

  datatype Lineage = Lineage(transaction: nat, mutation: nat, subject: Subject, original: Mode, sealed: Mode)

  datatype Kind = Seal | Restore(lineage: Lineage)

  /** A prepared change; it is consumed by being applied. */
  datatype Prepared = Prepared(pre: Snapshot, target: Mode, kind: Kind)

  datatype Evidence = Evidence(subject: Subject, mode: Mode, verified: bool, lineage: Option<Lineage>) {
    function Invalidated(observed: Mode): Evidence {
      Evidence(subject, observed, false, None)
    }
  }

  /** What the operating system does during one call. */
  datatype Weather = Weather(
    inspection: Option<Failure>,     // the first inspection fails
    meddled: Option<Snapshot>,       // someone replaces the attributes before the change
    refusesChmod: bool,
    meddledAfter: Option<Snapshot>,  // or after it
    reinspection: Option<Failure>)

  function Check(held: Snapshot, fault: Option<Failure>, expected: Subject, mode: Mode): Option<Failure> {
    if fault.Some? then fault else ValidateSnapshot(held, expected, mode)
  }

  function Or<T>(change: Option<T>, otherwise: T): T {
    if change.Some? then change.value else otherwise
  }

  // ----- what each operation does, on values -----------------------------------------------------

  function Prepare(e: Evidence, held: Snapshot, fault: Option<Failure>, target: Mode, kind: Kind)
    : (Evidence, Result<Prepared>)
  {
    if !target.PermissionsOnly() then (e, Err(InvalidTargetMode))
    else
      match Check(held, fault, e.subject, e.mode)
      case Some(failure) => (e.(verified := false), Err(failure))
      case None => (e, Ok(Prepared(held, target, kind)))
  }

  function PrepareSeal(e: Evidence, held: Snapshot, fault: Option<Failure>, acquire: bool)
    : (Evidence, Result<Prepared>)
  {
    if !e.verified then (e, Err(EvidenceUnverified))
    else if e.lineage.Some? then (e, Err(SealAlreadyActive))
    else Prepare(e, held, fault, Sealed(if acquire then e.mode.WithOwnerAccess() else e.mode), Seal)
  }

  function PrepareRestore(e: Evidence, held: Snapshot, fault: Option<Failure>,
                          transaction: nat, mutation: nat, expected: Mode, original: Mode)
    : (Evidence, Result<Prepared>)
  {
    if !e.verified || e.mode != expected then (e, Err(EvidenceUnverified))
    else if e.lineage.None? then (e, Err(MissingSealLineage))
    else if e.lineage.value != Lineage(transaction, mutation, e.subject, original, expected)
    then (e, Err(SealLineageMismatch))
    else Prepare(e, held, fault, original, Restore(e.lineage.value))
  }

  function Recorded(e: Evidence, transaction: nat, mutation: nat, original: Mode, sealed: Mode)
    : (Evidence, Option<Failure>)
  {
    if !e.verified || e.mode != sealed then (e, Some(EvidenceUnverified))
    else if e.lineage.Some? then (e, Some(SealAlreadyActive))
    else (e.(lineage := Some(Lineage(transaction, mutation, e.subject, original, sealed))), None)
  }

  /** Start-up recovery re-binds a lineage the log authenticated. */
  function Rebound(e: Evidence, transaction: nat, mutation: nat, original: Mode, sealed: Mode, expected: Subject)
    : (Evidence, Option<Failure>)
  {
    if !e.verified || e.lineage.Some? || e.subject.backend != expected.backend || e.subject.device != expected.device
       || e.subject.inode != expected.inode || e.mode != sealed
    then (e, Some(SealLineageMismatch))
    else (e.(lineage := Some(Lineage(transaction, mutation, e.subject, original, sealed))), None)
  }

  datatype Outcome =
    | RefusedBeforeMutation(reason: Failure)
    | NotAppliedVerified
    | OutcomeUnknown(after: Failure)
    | AppliedButUnverified(why: Failure)
    | AppliedVerified(pre: Snapshot, post: Snapshot)
  {
    /** The mode was really changed by us. */
    predicate Changed() {
      AppliedButUnverified? || AppliedVerified?
    }
  }

  /** The new evidence, the new object, the outcome. */
  datatype Effect = Effect(evidence: Evidence, held: Snapshot, outcome: Outcome)

  function Apply(e: Evidence, held: Snapshot, p: Prepared, w: Weather): Effect {
    match Check(held, w.inspection, p.pre.subject, p.pre.mode)
    case Some(failure) => Effect(e.(verified := false), held, RefusedBeforeMutation(failure))
    case None =>
      if p.kind.Restore? && e.lineage.None? then Effect(e, held, RefusedBeforeMutation(MissingSealLineage))
      else if p.kind.Restore? && e.lineage.value != p.kind.lineage
      then Effect(e, held, RefusedBeforeMutation(SealLineageMismatch))
      else
        var now := Or(w.meddled, held);
        if w.refusesChmod then
          var after := Or(w.meddledAfter, now);
          match Check(after, w.reinspection, p.pre.subject, p.pre.mode)
          case None => Effect(e, after, NotAppliedVerified)
          case Some(failure) => Effect(e.Invalidated(e.mode), after, OutcomeUnknown(failure))
        else
          Changed(if p.kind.Restore? then e.(lineage := None) else e, held, now.(mode := p.target), p, w)
  }

  /** After a successful change: verify it, or drop every claim about the mode. */
  function Changed(e: Evidence, before: Snapshot, changed: Snapshot, p: Prepared, w: Weather): Effect {
    var after := Or(w.meddledAfter, changed);
    match Check(after, w.reinspection, p.pre.subject, p.target)
    case None => Effect(e.(mode := after.mode, verified := true), after, AppliedVerified(before, after))
    case Some(failure) =>
      Effect(e.Invalidated(if failure.ModeChanged? then failure.actual else p.target), after,
             AppliedButUnverified(failure))
  }

  // ----- the machine itself ----------------------------------------------------------------------

  class Object {
    var attributes: Snapshot

    constructor (a: Snapshot)
      ensures attributes == a
    {
      attributes := a;
    }
  }

  class HeldEvidence {
    const subject: Subject
    const held: Object
    var mode: Mode
    var modeVerified: bool
    var lineage: Option<Lineage>

    function Value(): Evidence
      reads this
    {
      Evidence(subject, mode, modeVerified, lineage)
    }

    constructor (h: Object)
      ensures held == h
      ensures Value() == Evidence(h.attributes.subject, h.attributes.mode, true, None)
    {
      held, subject, mode := h, h.attributes.subject, h.attributes.mode;
      modeVerified, lineage := true, None;
    }

    method PrepareExact(target: Mode, kind: Kind, fault: Option<Failure>) returns (r: Result<Prepared>)
      modifies this
      ensures (Value(), r) == Prepare(old(Value()), held.attributes, fault, target, kind)
      // a change is prepared only for the certified object exactly as it now is
      ensures r.Ok? ==>
                && fault.None? && held.attributes == Snapshot(subject, mode) && target.PermissionsOnly()
                && r.value == Prepared(Snapshot(subject, mode), target, kind) && Value() == old(Value())
      // a failed inspection or any difference leaves the evidence unverified
      ensures target.PermissionsOnly() && (fault.Some? || held.attributes != Snapshot(subject, mode)) ==>
                r.Err? && !modeVerified && mode == old(mode) && lineage == old(lineage)
    {
      ValidSnapshotMeaning(held.attributes, subject, mode);
      if !target.PermissionsOnly() {
        return Err(InvalidTargetMode);
      }
      var failure := Check(held.attributes, fault, subject, mode);
      if failure.Some? {
        modeVerified := false;
        return Err(failure.value);
      }
      r := Ok(Prepared(held.attributes, target, kind));
    }

    method PrepareMinimalSeal(acquire: bool, fault: Option<Failure>) returns (r: Result<Prepared>)
      modifies this
      ensures (Value(), r) == PrepareSeal(old(Value()), held.attributes, fault, acquire)
      // a seal is prepared only on verified evidence without a lineage, for the object as certified,
      // and aims at the minimal seal of its mode
      ensures r.Ok? ==>
                && old(modeVerified) && old(lineage).None? && Value() == old(Value())
                && held.attributes == Snapshot(subject, mode)
                && r.value == Prepared(Snapshot(subject, mode),
                                       Sealed(if acquire then mode.WithOwnerAccess() else mode), Seal)
      ensures old(lineage).Some? || !old(modeVerified) ==> r.Err? && Value() == old(Value())
    {
      if !modeVerified {
        return Err(EvidenceUnverified);
      }
      if lineage.Some? {
        return Err(SealAlreadyActive);
      }
      var base := if acquire then mode.WithOwnerAccess() else mode;
      r := PrepareExact(Sealed(base), Seal, fault);
    }

    method PrepareWalBoundRestore(transaction: nat, mutation: nat, expected: Mode, original: Mode, fault: Option<Failure>)
      returns (r: Result<Prepared>)
      modifies this
      ensures (Value(), r) ==
                PrepareRestore(old(Value()), held.attributes, fault, transaction, mutation, expected, original)
      // a restore is prepared only for the exact lineage, on the object still at its sealed mode
      ensures r.Ok? ==>
                && old(modeVerified) && old(mode) == expected && Value() == old(Value())
                && old(lineage) == Some(Lineage(transaction, mutation, subject, original, expected))
                && held.attributes == Snapshot(subject, expected)
                && r.value == Prepared(Snapshot(subject, expected), original, Restore(lineage.value))
      ensures old(lineage) != Some(Lineage(transaction, mutation, subject, original, expected)) ==>
                r.Err? && Value() == old(Value())
    {
      if !modeVerified || mode != expected {
        return Err(EvidenceUnverified);
      }
      if lineage.None? {
        return Err(MissingSealLineage);
      }
      var l := lineage.value;
      if l != Lineage(transaction, mutation, subject, original, expected) {
        return Err(SealLineageMismatch);
      }
      r := PrepareExact(original, Restore(l), fault);
    }

    method RecordAppliedSealLineage(transaction: nat, mutation: nat, original: Mode, sealed: Mode)
      returns (failure: Option<Failure>)
      modifies this
      ensures (Value(), failure) == Recorded(old(Value()), transaction, mutation, original, sealed)
      ensures failure.None? <==> old(modeVerified) && old(mode) == sealed && old(lineage).None?
      ensures failure.None? ==>
                && modeVerified && mode == old(mode)
                && lineage == Some(Lineage(transaction, mutation, subject, original, sealed))
      ensures failure.Some? ==> Value() == old(Value())
    {
      if !modeVerified || mode != sealed {
        return Some(EvidenceUnverified);
      }
      if lineage.Some? {
        return Some(SealAlreadyActive);
      }
      lineage := Some(Lineage(transaction, mutation, subject, original, sealed));
      failure := None;
    }

    method BindRecoveredSealLineage(transaction: nat, mutation: nat, original: Mode, sealed: Mode, expected: Subject)
      returns (failure: Option<Failure>)
      modifies this
      ensures (Value(), failure) == Rebound(old(Value()), transaction, mutation, original, sealed, expected)
      ensures failure.None? <==>
                && old(modeVerified) && old(mode) == sealed && old(lineage).None?
                && subject.backend == expected.backend
                && subject.device == expected.device && subject.inode == expected.inode
      ensures failure.None? ==>
                && modeVerified && mode == old(mode)
                && lineage == Some(Lineage(transaction, mutation, subject, original, sealed))
      ensures failure.Some? ==> Value() == old(Value())
    {
      if !modeVerified || lineage.Some? || subject.backend != expected.backend || subject.device != expected.device
         || subject.inode != expected.inode || mode != sealed {
        return Some(SealLineageMismatch);
      }
      lineage := Some(Lineage(transaction, mutation, subject, original, sealed));
      failure := None;
    }

    method Invalidate(observed: Mode)
      modifies this
      ensures Value() == old(Value()).Invalidated(observed)
    {
      mode, modeVerified, lineage := observed, false, None;
    }

    method ApplyModeChange(p: Prepared, w: Weather) returns (outcome: Outcome)
      modifies this, held
      ensures Effect(Value(), held.attributes, outcome) == Apply(old(Value()), old(held.attributes), p, w)
    {
      var pre := held.attributes;
      var failure := Check(pre, w.inspection, p.pre.subject, p.pre.mode);
      if failure.Some? {
        modeVerified := false;
        return RefusedBeforeMutation(failure.value);
      }
      var consumed := None;
      if p.kind.Restore? {
        if lineage.None? {
          return RefusedBeforeMutation(MissingSealLineage);
        }
        if lineage.value != p.kind.lineage {
          return RefusedBeforeMutation(SealLineageMismatch);
        }
        consumed, lineage := lineage, None;
      }
      held.attributes := Or(w.meddled, held.attributes);
      if !w.refusesChmod {
        held.attributes := held.attributes.(mode := p.target);
        held.attributes := Or(w.meddledAfter, held.attributes);
        outcome := FinishSuccessfulChmod(p, pre, w.reinspection);
      } else {
        held.attributes := Or(w.meddledAfter, held.attributes);
        var after := Check(held.attributes, w.reinspection, p.pre.subject, p.pre.mode);
        if after.None? {
          if consumed.Some? {
            lineage := consumed;
          }
          outcome := NotAppliedVerified;
        } else {
          Invalidate(mode);
          outcome := OutcomeUnknown(after.value);
        }
      }
    }

    method FinishSuccessfulChmod(p: Prepared, pre: Snapshot, fault: Option<Failure>) returns (outcome: Outcome)
      modifies this
      ensures match Check(held.attributes, fault, p.pre.subject, p.target)
              case None =>
                && Value() == old(Value()).(mode := held.attributes.mode, verified := true)
                && outcome == AppliedVerified(pre, held.attributes)
              case Some(failure) =>
                && Value() == old(Value()).Invalidated(if failure.ModeChanged? then failure.actual else p.target)
                && outcome == AppliedButUnverified(failure)
      // verified exactly when the object is the prepared one at the target mode
      ensures outcome.AppliedVerified? <==>
                fault.None? && held.attributes == Snapshot(p.pre.subject, p.target)
                && p.pre.subject.effectiveUid == p.pre.subject.owner
      ensures outcome.AppliedVerified? ==> modeVerified && mode == p.target && lineage == old(lineage)
      // otherwise every claim about the mode is dropped
      ensures !outcome.AppliedVerified? ==> !modeVerified && lineage == None
    {
      ValidSnapshotMeaning(held.attributes, p.pre.subject, p.target);
      var failure := Check(held.attributes, fault, p.pre.subject, p.target);
      if failure.None? {
        mode, modeVerified := held.attributes.mode, true;
        outcome := AppliedVerified(pre, held.attributes);
      } else {
        Invalidate(if failure.value.ModeChanged? then failure.value.actual else p.target);
        outcome := AppliedButUnverified(failure.value);
      }
    }
  }
}
