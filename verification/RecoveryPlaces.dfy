/**
 Where a transaction's root really is.  The log's projection is what recovery decides from;
 beside it runs the namespace itself, which only the rename, the rename back and the purge
 change, each at some unobserved point of its intent.
 */
module RecoveryPlaces {
  import opened Wrappers
  import opened Staging
  import opened StartupRecovery

  datatype Place = AtSource | AtStaged | Gone

  datatype World = World(state: State, rename: Option<RenameOutcome>, undo: Option<UndoOutcome>, place: Place) {
    predicate Logged(s: Snapshot) {
      s.state == state && s.rename == rename && s.undo == undo
    }
  }

  datatype Event =
    // the namespace
    | Moved | MovedBack | Unlinked
    // the log
    | RenameRecorded(renamed: RenameOutcome) | UndoRecorded(undone: UndoOutcome) | Entered(to: State)

  /** An outcome is written once, inside its intent, by a writer that saw where the root is. */
  predicate Possible(w: World, e: Event) {
    match e
    case Moved => w.state == RenameIntent && w.rename == None && w.place == AtSource
    case MovedBack => w.state == UndoRenameIntent && w.undo == None && w.place == AtStaged
    case Unlinked => w.state == PurgeIntent
    case RenameRecorded(o) =>
      w.state == RenameIntent && w.rename == None && w.place == (if o.Applied? then AtStaged else AtSource)
    case UndoRecorded(o) =>
      w.state == UndoRenameIntent && w.undo == None && w.place == (if o.PutBack? then AtSource else AtStaged)
    case Entered(to) =>
      && ValidTransition(w.state, to)
      && (w.state == RenameIntent && to == StagedUnverified ==> w.rename == Some(Applied))
      && (w.state == RenameIntent && to == RestoreIntent ==> w.rename == Some(NotApplied))
      && (w.state == UndoRenameIntent && to == Restored ==> w.undo == Some(PutBack))
      && (w.state == UndoRenameIntent && to == UndoConflict ==> w.undo == Some(Collided))
  }

  function Next(w: World, e: Event): World {
    match e
    case Moved => w.(place := AtStaged)
    case MovedBack => w.(place := AtSource)
    case Unlinked => w.(place := Gone)
    case RenameRecorded(o) => w.(rename := Some(o))
    case UndoRecorded(o) => w.(undo := Some(o))
    case Entered(to) => w.(state := to)
  }

  predicate Happens(w: World, events: seq<Event>, w': World)
    decreases |events|
  {
    if events == [] then w == w' else Possible(w, events[0]) && Happens(Next(w, events[0]), events[1..], w')
  }

  const PREPARED := World(Prepared, None, None, AtSource)

  /** What the log alone says about the place; `None` where it cannot tell. */
  function Told(w: World): Option<Place> {
    match w.state
    case Prepared | ParentSealIntent | ParentSealed | TreeSealIntent | TreeSealed | RestoreIntent | Restored => Some(AtSource)
    case RenameIntent =>
      if w.rename.None? then None else Some(if w.rename.value.Applied? then AtStaged else AtSource)
    case UndoRenameIntent => if w.undo.None? then None else Some(if w.undo.value.PutBack? then AtSource else AtStaged)
    case PurgeIntent | PurgeOutcome | Purged | RecoveryRequired => None
    case _ => Some(AtStaged)
  }

  /** The log is never wrong, and an outcome exists only from its intent on. */
  predicate Sound(w: World) {
    && (Told(w).Some? ==> w.place == Told(w).value)
    && (w.rename.Some? ==> w.state !in {Prepared, ParentSealIntent, ParentSealed, TreeSealIntent, TreeSealed})
    && (w.undo.Some? ==> w.state in {UndoRenameIntent, Restored, UndoConflict, RecoveryRequired})
  }

  lemma EventSound(w: World, e: Event)
    requires Sound(w) && Possible(w, e)
    ensures Sound(Next(w, e))
  {
  }

  lemma {:induction false} RunSound(w: World, events: seq<Event>, w': World)
    requires Sound(w) && Happens(w, events, w')
    ensures Sound(w')
    decreases |events|
  {
    if events != [] {
      EventSound(w, events[0]);
      RunSound(Next(w, events[0]), events[1..], w');
    }
  }

  /** Work on the objects as they lie at the source, and work on the staged tree. */
  predicate ForSource(work: Work) {
    work == RestoreBeforeRename || work == FinalizeUndo(PutBack)
  }

  predicate ForStaged(work: Work) {
    || work.VerifyOrQuarantine? || work.RestoreSourceParent? || work.FinalizeCommit?
    || work.PreserveQuarantine? || work.RestoreQuarantinedSeals?
    || work.ResumeUndo? || work == FinalizeUndo(Collided) || work.PreserveUndoConflict?
  }

  /**
   Over every history the log accepts, with a crash possible between any rename and its
   outcome, recovery's work for the source is chosen only while the root is at the source,
   and work for the staged tree only while it is staged.
   */
  lemma WorkFitsPlace(events: seq<Event>, w: World, s: Snapshot)
    requires Happens(PREPARED, events, w) && w.Logged(s)
    ensures ForSource(Decide(s)) ==> w.place == AtSource
    ensures ForStaged(Decide(s)) ==> w.place == AtStaged
  {
    RunSound(PREPARED, events, w);
  }

  /** Why nothing may be done then: the same log with the root on either side of the rename. */
  lemma EitherSide() returns (events: seq<Event>, w: World)
    ensures Happens(PREPARED, events, w) && Happens(PREPARED, events + [Moved], w.(place := AtStaged))
    ensures w == World(RenameIntent, None, None, AtSource)
  {
    events := [];
    w := PREPARED;
    w, events := Enters(w, events, ParentSealIntent);
    w, events := Enters(w, events, ParentSealed);
    w, events := Enters(w, events, TreeSealIntent);
    w, events := Enters(w, events, TreeSealed);
    w, events := Enters(w, events, RenameIntent);
    HappensNext(PREPARED, events, w, Moved);
  }

  lemma Enters(w: World, events: seq<Event>, to: State) returns (w': World, events': seq<Event>)
    requires Happens(PREPARED, events, w) && Possible(w, Entered(to))
    ensures w' == w.(state := to) && Happens(PREPARED, events', w')
  {
    w', events' := w.(state := to), events + [Entered(to)];
    HappensNext(PREPARED, events, w, Entered(to));
  }

  lemma {:induction false} HappensNext(w: World, events: seq<Event>, m: World, e: Event)
    requires Happens(w, events, m) && Possible(m, e)
    ensures Happens(w, events + [e], Next(m, e))
    decreases |events|
  {
    if events == [] {
      assert events + [e] == [e] && [e][1..] == [];
    } else {
      assert (events + [e])[1..] == events[1..] + [e];
      HappensNext(Next(w, events[0]), events[1..], m, e);
    }
  }

  /**
   At either rename the place decides the work: without a recorded outcome nothing is done,
   and with one, when nothing else is missing, exactly the work for the side the root is on.
   */
  lemma PlaceDecides(events: seq<Event>, w: World, s: Snapshot)
    requires Happens(PREPARED, events, w) && w.Logged(s)
    requires !s.legacySchema && !s.uncertain && !s.insufficientIdentity
    ensures w.state == RenameIntent ==>
              Decide(s) == if w.rename == None then Required
                           else if w.place == AtSource then RestoreBeforeRename
                           else VerifyOrQuarantine
    ensures w.state == UndoRenameIntent ==>
              Decide(s) == if w.undo == None then Required
                           else FinalizeUndo(if w.place == AtSource then PutBack else Collided)
  {
    RunSound(PREPARED, events, w);
  }

  /** What recovery records by itself is a record this history admits: the outcome that happened. */
  lemma RecordsWhatHappened(w: World, s: Snapshot)
    requires w.Logged(s) && Finalizes(Decide(s))
    ensures Possible(w, Entered(FinalState(Decide(s))))
  {
    DecisionsAreLegal(s);
  }
}
