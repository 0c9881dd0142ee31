/**
 Publishing a record: write a temporary file, sync it, rename it over an absent name and
 sync the directory, with any of those calls failing.  A reader, before or after a crash,
 finds no record or the complete one, and the self-initializer reports honestly how far
 its claim got.
 */
module RecordPublication {
  import opened Wrappers
  import opened RecordCodec

  datatype Name = Authority | Prepare | Active | Binding

  /** A file's content is safe from a crash only once it is synced. */
  datatype File = File(bytes: Bytes, synced: bool)

  datatype Fault = NoFault | ReadFails | OpenFails | WriteFails | FileSyncFails | InspectionFails | RenameFails | SyncFails

  datatype Refusal = NotResumable | NamesExhausted | IoFailure

  datatype Result = Ok | Err(why: Refusal)

  const TEMPORARY_ATTEMPTS: nat := 128

  /** An unused temporary name, if one of the next hundred and twenty-eight is free. */
  method FreeTemporary(taken: set<nat>, start: nat) returns (name: Option<nat>)
    ensures name.Some? ==> name.value !in taken && start <= name.value < start + TEMPORARY_ATTEMPTS
    ensures name.None? <==> forall k :: start <= k < start + TEMPORARY_ATTEMPTS ==> k in taken
  {
    var i := start;
    while i < start + TEMPORARY_ATTEMPTS
      invariant start <= i <= start + TEMPORARY_ATTEMPTS
      invariant forall k :: start <= k < i ==> k in taken
    {
      if i !in taken {
        return Some(i);
      }
      i := i + 1;
    }
    name := None;
  }

  /** What is in the directory and which fault it meets let the record into place. */
  ghost predicate LandsIn(visible: map<Name, File>, taken: set<nat>, start: nat, name: Name, bytes: Bytes, fault: Fault) {
    if name in visible then visible[name].bytes == bytes && fault != ReadFails
    else (fault == NoFault || fault == SyncFails) && exists k :: start <= k < start + TEMPORARY_ATTEMPTS && k !in taken
  }

  class RecordDirectory {
    var visible: map<Name, File>
    var durable: map<Name, File>
    var temporaries: set<nat>
    var nextTemporary: nat

    /** Only complete files are ever linked in, and what is durable is still visible. */
    ghost predicate Valid()
      reads this
    {
      && (forall n :: n in visible ==> visible[n].synced)
      && (forall n :: n in durable ==> n in visible && visible[n] == durable[n])
    }

    constructor ()
      ensures Valid() && visible == map[] && durable == map[]
    {
      visible, durable, temporaries, nextTemporary := map[], map[], {}, 0;
    }

    method Sync()
      requires Valid()
      modifies this`durable
      ensures Valid() && durable == visible
    {
      durable := visible;
    }

    /**
     `observed` is the publication callback.  It fires exactly when the record is in place
     on return; before that nothing has changed; success means durable.
     */
    method Publish(name: Name, bytes: Bytes, fault: Fault) returns (r: Result, observed: bool)
      requires Valid()
      modifies this
      ensures Valid()
      ensures forall n :: n != name ==> (n in visible <==> n in old(visible)) && (n in visible ==> visible[n] == old(visible)[n])
      ensures name in old(visible) ==> visible == old(visible)
      ensures name in visible && name !in old(visible) ==> observed && visible[name] == File(bytes, true)
      ensures !observed ==> visible == old(visible) && durable == old(durable)
      ensures observed ==> name in visible && visible[name].bytes == bytes
      ensures forall n :: n in old(durable) ==> n in durable && durable[n] == old(durable)[n]
      ensures r.Ok? ==> observed && durable == visible
      ensures name in old(visible) && old(visible)[name].bytes != bytes && fault != ReadFails ==> r == Err(NotResumable)
      // exactly when it gets into place, and when it succeeds
      ensures observed <==> LandsIn(old(visible), old(temporaries), old(nextTemporary), name, bytes, fault)
      ensures r.Ok? <==> observed && fault != SyncFails
    {
      observed := false;
      if fault == ReadFails {
        return Err(IoFailure), false;
      }
      if name in visible {
        if visible[name].bytes != bytes {
          return Err(NotResumable), false;
        }
        observed := true;
        if fault == SyncFails {
          return Err(IoFailure), true;
        }
        Sync();
        return Ok, true;
      }
      r, observed := PublishNew(name, bytes, fault);
    }

    /** The half that writes: the name is free. */
    method PublishNew(name: Name, bytes: Bytes, fault: Fault) returns (r: Result, observed: bool)
      requires Valid() && name !in visible && fault != ReadFails
      modifies this
      ensures Valid()
      ensures visible == if observed then old(visible)[name := File(bytes, true)] else old(visible)
      ensures durable == if observed && fault != SyncFails then visible else old(durable)
      ensures observed <==> LandsIn(old(visible), old(temporaries), old(nextTemporary), name, bytes, fault)
      ensures r.Ok? <==> observed && fault != SyncFails
    {
      observed := false;
      var temporary := FreeTemporary(temporaries, nextTemporary);
      nextTemporary := nextTemporary + TEMPORARY_ATTEMPTS;
      if temporary.None? {
        return Err(NamesExhausted), false;
      }
      if fault == OpenFails {
        return Err(IoFailure), false;
      }
      temporaries := temporaries + {temporary.value};
      if fault == WriteFails {
        return Err(IoFailure), false;
      }
      var file := File(bytes, false);
      if fault == FileSyncFails {
        return Err(IoFailure), false;
      }
      file := file.(synced := true);
      if fault == InspectionFails || fault == RenameFails {
        return Err(IoFailure), false;
      }
      temporaries := temporaries - {temporary.value};
      visible := visible[name := file];
      observed := true;
      if fault == SyncFails {
        return Err(IoFailure), true;
      }
      Sync();
      r := Ok;
    }
  }

  /** What a crash may leave: everything durable and any of the renames not yet synced. */
  function AfterCrash(visible: map<Name, File>, durable: map<Name, File>, kept: set<Name>): map<Name, File> {
    map n | n in visible && (n in kept || n in durable) :: if n in durable then durable[n] else visible[n]
  }

  /** No reader ever sees a torn record, and a synced one survives every crash. */
  lemma NoTornRecord(visible: map<Name, File>, durable: map<Name, File>, kept: set<Name>, n: Name)
    requires forall m :: m in visible ==> visible[m].synced
    requires forall m :: m in durable ==> m in visible && visible[m] == durable[m]
    ensures var after := AfterCrash(visible, durable, kept);
            && (n in after ==> n in visible && after[n] == visible[n] && after[n].synced)
            && (n in durable ==> n in after && after[n] == durable[n])
  {
  }

  // ----- the self-initializer's report ---------------------------------------------------------------

  datatype ClaimState = NotAttempted | MayHavePublished | Published

  /** The answers met on the way: who is there, what was found, what is refused. */
  datatype Circumstances = Circumstances(
    pathStands: bool, systemPresent: bool, selfPresent: bool, resumable: bool, neverActivated: bool,
    pathStillStands: bool, expected: Bytes, acceptsExisting: bool, fault: Fault, pathStandsAfter: bool)

  datatype Initialization = Declared(isNew: bool) | Failed(claim: ClaimState)

  /**
   Honest reporting: `NotAttempted` means this call changed nothing visible; `MayHavePublished`
   means the claim is in place but perhaps not yet durable; `Published` and success mean a
   claim is durably in place.
   */
  method CompleteSelfAuthority(anchor: RecordDirectory, c: Circumstances) returns (r: Initialization)
    requires anchor.Valid()
    modifies anchor
    ensures anchor.Valid()
    ensures r == Failed(NotAttempted) ==> anchor.visible == old(anchor.visible)
    ensures r == Failed(MayHavePublished) ==>
              && Authority in anchor.visible && anchor.visible[Authority].bytes == c.expected
              && Authority !in old(anchor.visible)
    ensures r == Failed(Published) ==> Authority in anchor.durable
    ensures r.Declared? ==>
              && Authority in anchor.durable && anchor.durable[Authority].bytes == c.expected
              && (r.isNew <==> Authority !in old(anchor.visible))
    ensures Authority in old(anchor.visible) ==> anchor.visible == old(anchor.visible)
    // success, exactly
    ensures r.Declared? <==>
              && c.pathStands && !c.systemPresent && c.selfPresent && c.resumable
              && c.pathStillStands && c.pathStandsAfter
              && (if Authority in old(anchor.visible) then c.acceptsExisting else c.neverActivated)
              && LandsIn(old(anchor.visible), old(anchor.temporaries), old(anchor.nextTemporary), Authority, c.expected, c.fault)
              && c.fault != SyncFails
  {
    var claim := NotAttempted;
    if !c.pathStands || c.systemPresent || !c.selfPresent {
      return Failed(claim);
    }
    anchor.Sync();
    var declared := Authority !in anchor.visible;
    if !c.resumable || (declared && !c.neverActivated) || !c.pathStillStands {
      return Failed(claim);
    }
    if !declared {
      claim := Published;
      if !c.acceptsExisting {
        return Failed(claim);
      }
    }
    var published, observed := anchor.Publish(Authority, c.expected, c.fault);
    if observed && declared {
      claim := MayHavePublished;
    }
    if published.Err? {
      return Failed(claim);
    }
    claim := Published;
    if !c.pathStandsAfter {
      return Failed(claim);
    }
    r := Declared(declared);
  }
}
