/**
 Crash-safe activation with two authorities, as an interleaved step relation.

 Two fixed anchor directories (system and self-managed) hold at most three
 immutable records each.  Any number of processes run the selector, the activation
 that follows it, or the explicit self-initialization; the environment may provision
 either anchor late, lose an `active` record, or crash the machine.

 A record slot keeps what readers see apart from what a crash preserves: a rename
 makes a record visible, the directory sync that follows makes it durable, and a
 crash keeps any chosen subset of the visible-but-unsynced records while dropping
 every process and every lock.
 */
module Activation {
  import opened Wrappers
  import opened RecordCodec

  type Pid = nat

  datatype Side = System | SelfManaged {
    function Other(): Side {
      if this == System then SelfManaged else System
    }
  }

  /** The two anchors' fixed locators with the identity and backend found there. */
  datatype Config = Config(system: Place, selfManaged: Place) {
    function At(side: Side): Place {
      if side == System then system else selfManaged
    }

    predicate Valid() {
      system.locator != selfManaged.locator
    }

    /** The fixed paths are absolute and short enough for a record. */
    predicate Encodable() {
      PutPlace(system).Some? && PutPlace(selfManaged).Some?
    }
  }

  // ----- durable state -------------------------------------------------------------

  datatype Slot<T(==)> = Slot(visible: Option<T>, durable: Option<T>) {
    predicate Ok() {
      durable.Some? ==> visible == durable
    }

    predicate Settled() {
      visible == durable
    }

    function Synced(): Slot<T> {
      Slot(visible, visible)
    }

    /** The no-replace rename of an absent name. */
    function Renamed(value: T): Slot<T> {
      Slot(Some(value), durable)
    }

    function AfterCrash(keepUnsynced: bool): Slot<T> {
      if keepUnsynced then Synced() else Slot(durable, durable)
    }
  }

  datatype Anchor = Anchor(
    provisioned: bool,
    lock: Option<Pid>,
    claim: Slot<AuthorityRecord>,
    prepare: Slot<PrepareRecord>,
    active: Slot<PrepareRecord>)
  {
    function Synced(): Anchor {
      this.(claim := claim.Synced(), prepare := prepare.Synced(), active := active.Synced())
    }
  }

  /**
   A seal WAL store directory.  `inherited` is the binding it carried before the run
   began, if any; `binding` is the reciprocal record now in it.
   */
  datatype Store = Store(
    identity: Identity,
    backend: Backend,
    inherited: Option<PrepareRecord>,
    binding: Slot<PrepareRecord>)
  {
    predicate Matches(r: PrepareRecord) {
      identity == r.storeIdentity && backend == r.storeBackend
    }
  }

  datatype State = State(
    system: Anchor,
    selfManaged: Anchor,
    stores: map<Bytes, Store>,
    procs: map<Pid, Proc>)
  {
    function At(side: Side): Anchor {
      if side == System then system else selfManaged
    }

    function With(side: Side, a: Anchor): State {
      if side == System then this.(system := a) else this.(selfManaged := a)
    }

    function Now(pid: Pid, p: Proc): State {
      this.(procs := procs[pid := p])
    }

    /** An error return or normal completion: the process ends and drops its locks. */
    function Ended(pid: Pid): State {
      State(Unlock(system, pid), Unlock(selfManaged, pid), stores, procs - {pid})
    }

    function StoreSynced(locator: Bytes): State {
      if locator in stores
      then this.(stores := stores[locator := stores[locator].(binding := stores[locator].binding.Synced())])
      else this
    }
  }

  function Unlock(a: Anchor, pid: Pid): Anchor {
    if a.lock == Some(pid) then a.(lock := None) else a
  }

  // ----- processes -------------------------------------------------------------------

  datatype Kind = NeverActivated | Preparing | Activated(store: Bytes) | Lost | CorruptOrReplaced

  /** What a process learned when it opened one anchor. */
  datatype View = Absent | Present(claim: Option<AuthorityRecord>, kind: Kind) {
    function Claim(): Option<AuthorityRecord> {
      if Present? then claim else None
    }

    predicate HasEvidence() {
      Present? && !kind.NeverActivated?
    }
  }

  datatype Outcome = ActivatedStore(store: Bytes) | UnsupportedLease | ClaimDeclared

  datatype Goal = ClaimOnly(outcome: Outcome) | Activate(desired: Bytes)

  /** A publication job: the claim it must establish and the anchors whose locks it holds. */
  datatype Job = Job(selected: Side, peer: bool, claim: AuthorityRecord, goal: Goal, initializer: bool) {
    predicate Holds(side: Side) {
      side == selected || peer
    }
  }

  datatype Pc =
    | PublishWitness | SyncWitness
    | PublishClaim | SyncClaim
    | ResolvePrepare
    | PublishPrepare(r: PrepareRecord) | SyncPrepare(r: PrepareRecord)
    | PublishBinding(r: PrepareRecord) | SyncBinding(r: PrepareRecord)
    | PublishActive(r: PrepareRecord) | SyncActive(r: PrepareRecord)
    | Validate(r: PrepareRecord)

  datatype Proc =
    | SawSystem(system: View)
    | SawBoth(system: View, selfManaged: View)
    | InitAdmitted
    | InitProvisioned
    | InitRechecked
    | InitOpened(view: View)
    | Working(job: Job, pc: Pc)
    | Done(selected: Side, peer: bool, outcome: Outcome)
  {
    predicate Holds(side: Side) {
      match this
      case SawSystem(v) => side == System && v.Present?
      case SawBoth(v, w) => if side == System then v.Present? else w.Present?
      case InitAdmitted | InitProvisioned | InitRechecked => false
      case InitOpened(_) => side == SelfManaged
      case Working(job, _) => job.Holds(side)
      case Done(selected, peer, _) => side == selected || peer
    }
  }

  // ----- discovery: the pure half of opening an anchor ------------------------------

  /** The record whose store discovery opens, after the authority fields authenticate. */
  datatype Recorded = NoRecord | Unusable | Record(isActive: bool, r: PrepareRecord)

  function AuthenticRecord(c: Config, side: Side, isActive: bool, r: PrepareRecord): Recorded {
    if Readable(r) && r.Authority() == c.At(side) then Record(isActive, r) else Unusable
  }

  function RecordedIn(c: Config, side: Side, a: Anchor): Recorded {
    match (a.active.visible, a.prepare.visible)
    case (Some(active), Some(prepare)) =>
      if active == prepare then AuthenticRecord(c, side, true, active) else Unusable
    case (Some(_), None) => Unusable
    case (None, Some(prepare)) => AuthenticRecord(c, side, false, prepare)
    case (None, None) => NoRecord
  }

  function ClassifyStore(stores: map<Bytes, Store>, isActive: bool, r: PrepareRecord): Kind {
    if r.storeLocator !in stores then Lost
    else
      var store := stores[r.storeLocator];
      if !store.Matches(r) then CorruptOrReplaced
      else if store.binding.visible == Some(r) then
        if isActive then Activated(r.storeLocator) else Preparing
      else if !isActive && store.binding.visible == None then Preparing
      else CorruptOrReplaced
  }

  function Discover(c: Config, s: State, side: Side): Kind {
    match RecordedIn(c, side, s.At(side))
    case NoRecord => NeverActivated
    case Unusable => CorruptOrReplaced
    case Record(isActive, r) => ClassifyStore(s.stores, isActive, r)
  }

  // ----- opening an anchor exclusively -------------------------------------------------

  predicate CanOpen(s: State, side: Side) {
    s.At(side).provisioned ==> s.At(side).lock == None
  }

  /** Lock, re-sync the directory (and the recorded store), then read. */
  function Opened(c: Config, s: State, side: Side, pid: Pid): State {
    var a := s.At(side);
    if !a.provisioned then s
    else
      var locked := s.With(side, a.Synced().(lock := Some(pid)));
      match RecordedIn(c, side, a)
      case Record(_, r) => locked.StoreSynced(r.storeLocator)
      case _ => locked
  }

  function ViewOf(c: Config, s: State, side: Side): View {
    if s.At(side).provisioned
    then Present(s.At(side).claim.visible, Discover(c, s, side))
    else Absent
  }

  // ----- selection ------------------------------------------------------------------------

  datatype Refusal =
    | NoAuthority | SplitAuthority | AuthorityClaimInvalid | SelectedAuthorityLost
    | NotResumable | SelfInitializationRequired

  datatype Selection = Refused(why: Refusal) | Chosen(side: Side, claim: Option<AuthorityRecord>)

  function ChooseAuthority(system: View, selfManaged: View): Selection
    requires system.Present? || selfManaged.Present?
  {
    match (system, selfManaged)
    case (Present(_, _), Absent) => Chosen(System, None)
    case (Absent, Present(_, _)) => Chosen(SelfManaged, None)
    case (Present(_, _), Present(_, _)) =>
      if system.HasEvidence() && selfManaged.HasEvidence() then Refused(SplitAuthority)
      else if selfManaged.HasEvidence() then Chosen(SelfManaged, None)
      else Chosen(System, None)
  }

  /** `claimed_authority_choice`, given a claim found in at least one anchor. */
  function ClaimedChoice(c: Config, s: State, system: View, selfManaged: View, k: AuthorityRecord): Selection {
    if k.selectedLocator != c.system.locator && k.selectedLocator != c.selfManaged.locator
    then Refused(AuthorityClaimInvalid)
    else
      var side := if k.selectedLocator == c.system.locator then System else SelfManaged;
      var selected := if side == System then system else selfManaged;
      var peer := if side == System then selfManaged else system;
      var prepare := s.At(side).prepare.visible;
      if selected.Absent? then Refused(SelectedAuthorityLost)
      else if k.Selected() != c.At(side) then Refused(AuthorityClaimInvalid)
      else if prepare.Some? && !Readable(prepare.value) then Refused(NotResumable)
      else if prepare.Some? && prepare.value.activationId != k.selectionId then Refused(AuthorityClaimInvalid)
      else if peer.HasEvidence() then Refused(SplitAuthority)
      else Chosen(side, Some(k))
  }

  function SelectPair(c: Config, s: State, system: View, selfManaged: View): Selection {
    if system.Absent? && selfManaged.Absent? then Refused(NoAuthority)
    else
      match (system.Claim(), selfManaged.Claim())
      case (None, None) => ChooseAuthority(system, selfManaged)
      case (Some(k), Some(l)) =>
        if k != l then Refused(SplitAuthority) else ClaimedChoice(c, s, system, selfManaged, k)
      case (Some(k), None) => ClaimedChoice(c, s, system, selfManaged, k)
      case (None, Some(k)) => ClaimedChoice(c, s, system, selfManaged, k)
  }

  /** The record `ensure_authority_claim` insists on, or `None` when it refuses. */
  function ExpectedClaim(c: Config, s: State, side: Side, existing: Option<AuthorityRecord>,
                         peerClaim: Option<AuthorityRecord>, freshId: Bytes): Option<AuthorityRecord>
  {
    var prepare := s.At(side).prepare.visible;
    if prepare.Some? && !Readable(prepare.value) then None
    else if existing.Some? && prepare.Some? && existing.value.selectionId != prepare.value.activationId then None
    else
      var id := if existing.Some? then existing.value.selectionId
                else if prepare.Some? then prepare.value.activationId
                else freshId;
      var at := c.At(side);
      var expected := AuthorityRecord(id, at.locator, at.identity, at.backend);
      if existing.Some? && existing.value != expected then None
      else if peerClaim.Some? && peerClaim.value != expected then None
      else if EncodeAuthority(expected).None? then None
      else Some(expected)
  }

  function FirstPc(peer: bool): Pc {
    if peer then PublishWitness else PublishClaim
  }

  /** What the selected anchor's state lets the mutation entry point do next. */
  datatype Gate = Refuse(why: Refusal) | Ensure(goal: Goal) | LeaseOnly

  function GateFor(side: Side, kind: Kind, claim: Option<AuthorityRecord>, desired: Bytes, supported: bool): Gate {
    match kind
    case Activated(store) => Ensure(ClaimOnly(ActivatedStore(store)))
    case Lost | CorruptOrReplaced => Refuse(NotResumable)
    case Preparing => Ensure(Activate(desired))
    case NeverActivated =>
      if side == SelfManaged && claim.None? then Refuse(SelfInitializationRequired)
      else if supported then Ensure(Activate(desired))
      else if claim.Some? then Ensure(ClaimOnly(UnsupportedLease))
      else LeaseOnly
  }

  /** Refuse, retain the locks of a never-activated pair, or start publishing. */
  datatype Verdict = Stop | Lease(side: Side, peer: bool) | Start(job: Job)

  function Decide(c: Config, s: State, v: View, w: View, desired: Bytes, supported: bool, freshId: Bytes): Verdict {
    match SelectPair(c, s, v, w)
    case Refused(_) => Stop
    case Chosen(side, claim) =>
      var view := if side == System then v else w;
      var peerView := if side == System then w else v;
      if view.Absent? then Stop
      else
        match GateFor(side, view.kind, claim, desired, supported)
        case Refuse(_) => Stop
        case LeaseOnly => Lease(side, peerView.Present?)
        case Ensure(goal) =>
          match ExpectedClaim(c, s, side, claim, peerView.Claim(), freshId)
          case None => Stop
          case Some(e) => Start(Job(side, peerView.Present?, e, goal, false))
  }

  function Selected(c: Config, s: State, pid: Pid, desired: Bytes, supported: bool, freshId: Bytes): State
    requires pid in s.procs && s.procs[pid].SawBoth?
  {
    match Decide(c, s, s.procs[pid].system, s.procs[pid].selfManaged, desired, supported, freshId)
    case Stop => s.Ended(pid)
    case Lease(side, peer) => s.Now(pid, Done(side, peer, UnsupportedLease))
    case Start(job) => s.Now(pid, Working(job, FirstPc(job.peer)))
  }

  /** After the self anchor is opened by the initializer. */
  function InitClaimed(c: Config, s: State, pid: Pid, freshId: Bytes): State
    requires pid in s.procs && s.procs[pid].InitOpened? && s.procs[pid].view.Present?
  {
    var view := s.procs[pid].view;
    if view.kind.Lost? || view.kind.CorruptOrReplaced? then s.Ended(pid)
    else if view.claim.None? && !view.kind.NeverActivated? then s.Ended(pid)
    else
      match ExpectedClaim(c, s, SelfManaged, view.claim, None, freshId)
      case None => s.Ended(pid)
      case Some(e) =>
        s.Now(pid, Working(Job(SelfManaged, false, e, ClaimOnly(ClaimDeclared), true), PublishClaim))
  }

  // ----- the publication job, one durable action at a time ------------------------------------

  /** `publish_record` up to the rename: reuse an equal record, refuse a different one. */
  function PublishedClaim(s: State, side: Side, e: AuthorityRecord): Option<State> {
    var a := s.At(side);
    match a.claim.visible
    case Some(k) => if k == e then Some(s) else None
    case None => Some(s.With(side, a.(claim := a.claim.Renamed(e))))
  }

  function PublishedPrepare(s: State, side: Side, r: PrepareRecord): Option<State> {
    var a := s.At(side);
    match a.prepare.visible
    case Some(p) => if p == r && Readable(r) then Some(s) else None
    case None => Some(s.With(side, a.(prepare := a.prepare.Renamed(r))))
  }

  function PublishedActive(s: State, side: Side, r: PrepareRecord): Option<State> {
    var a := s.At(side);
    match a.active.visible
    case Some(p) => if p == r && Readable(r) then Some(s) else None
    case None => Some(s.With(side, a.(active := a.active.Renamed(r))))
  }

  function AnchorSynced(s: State, side: Side): State {
    s.With(side, s.At(side).Synced())
  }

  /** Resume the recorded store, or open or create the desired one. */
  function Resolved(c: Config, s: State, pid: Pid, job: Job, created: Store): State
    requires job.goal.Activate?
  {
    match s.At(job.selected).prepare.visible
    case Some(p) =>
      if AuthenticRecord(c, job.selected, false, p).Record? && ClassifyStore(s.stores, false, p).Preparing?
      then s.StoreSynced(p.storeLocator).Now(pid, Working(job, SyncPrepare(p)))
      else s.Ended(pid)
    case None =>
      var stores := if job.goal.desired in s.stores then s.stores else s.stores[job.goal.desired := created];
      var at := c.At(job.selected);
      var store := stores[job.goal.desired];
      var r := PrepareRecord(job.claim.selectionId, at.locator, at.identity, at.backend,
                             job.goal.desired, store.identity, store.backend);
      var s' := s.(stores := stores).StoreSynced(job.goal.desired);
      if EncodePrepare(r).None? then s'.Ended(pid)
      else s'.Now(pid, Working(job, PublishPrepare(r)))
  }

  function Bound(s: State, pid: Pid, job: Job, r: PrepareRecord): State {
    if r.storeLocator !in s.stores then s.Ended(pid)
    else
      var store := s.stores[r.storeLocator];
      match store.binding.visible
      case Some(b) =>
        if b == r && Readable(r) then s.Now(pid, Working(job, PublishActive(r))) else s.Ended(pid)
      case None =>
        s.(stores := s.stores[r.storeLocator := store.(binding := store.binding.Renamed(r))])
        .Now(pid, Working(job, SyncBinding(r)))
  }

  function Validated(c: Config, s: State, pid: Pid, job: Job, r: PrepareRecord): State {
    if AuthenticRecord(c, job.selected, true, r).Record? && ClassifyStore(s.stores, true, r).Activated?
    then AnchorSynced(s.StoreSynced(r.storeLocator), job.selected)
         .Now(pid, Done(job.selected, job.peer, ActivatedStore(r.storeLocator)))
    else s.Ended(pid)
  }

  function Continue(published: Option<State>, s: State, pid: Pid, job: Job, pc: Pc): State {
    match published case Some(t) => t.Now(pid, Working(job, pc)) case None => s.Ended(pid)
  }

  function Worked(c: Config, s: State, pid: Pid, created: Store): State
    requires pid in s.procs && s.procs[pid].Working?
    requires s.procs[pid].pc.ResolvePrepare? ==> s.procs[pid].job.goal.Activate?
  {
    var job := s.procs[pid].job;
    match s.procs[pid].pc
    case PublishWitness => Continue(PublishedClaim(s, job.selected.Other(), job.claim), s, pid, job, SyncWitness)
    case SyncWitness => AnchorSynced(s, job.selected.Other()).Now(pid, Working(job, PublishClaim))
    case PublishClaim => Continue(PublishedClaim(s, job.selected, job.claim), s, pid, job, SyncClaim)
    case SyncClaim =>
      AnchorSynced(s, job.selected)
      .Now(pid, if job.goal.ClaimOnly? then Done(job.selected, job.peer, job.goal.outcome)
                else Working(job, ResolvePrepare))
    case ResolvePrepare => Resolved(c, s, pid, job, created)
    case PublishPrepare(r) => Continue(PublishedPrepare(s, job.selected, r), s, pid, job, SyncPrepare(r))
    case SyncPrepare(r) => AnchorSynced(s, job.selected).Now(pid, Working(job, PublishBinding(r)))
    case PublishBinding(r) => Bound(s, pid, job, r)
    case SyncBinding(r) => s.StoreSynced(r.storeLocator).Now(pid, Working(job, PublishActive(r)))
    case PublishActive(r) => Continue(PublishedActive(s, job.selected, r), s, pid, job, SyncActive(r))
    case SyncActive(r) => AnchorSynced(s, job.selected).Now(pid, Working(job, Validate(r)))
    case Validate(r) => Validated(c, s, pid, job, r)
  }

  // ----- the step relation -----------------------------------------------------------------

  datatype Keep = Keep(claim: bool, prepare: bool, active: bool)

  function CrashedAnchor(a: Anchor, keep: Keep): Anchor {
    Anchor(a.provisioned, None, a.claim.AfterCrash(keep.claim),
           a.prepare.AfterCrash(keep.prepare), a.active.AfterCrash(keep.active))
  }

  function CrashedStores(stores: map<Bytes, Store>, kept: set<Bytes>): map<Bytes, Store> {
    map q | q in stores :: stores[q].(binding := stores[q].binding.AfterCrash(q in kept))
  }

  /** Everything durable, a chosen part of the rest, no process and no lock. */
  function CrashedState(s: State, system: Keep, selfManaged: Keep, stores: set<Bytes>): State {
    State(CrashedAnchor(s.system, system), CrashedAnchor(s.selfManaged, selfManaged),
          CrashedStores(s.stores, stores), map[])
  }

  datatype Step =
    // environment
    | Provision(side: Side)
    | LoseActive(side: Side)
    | Crash(system: Keep, selfManaged: Keep, stores: set<Bytes>)
    // selector and activation
    | OpenSystem(pid: Pid)
    | OpenSelf(pid: Pid)
    | Select(pid: Pid, desired: Bytes, supported: bool, freshId: Bytes)
    | Work(pid: Pid, created: Store)
    // explicit self-initialization
    | InitCheck(pid: Pid)
    | InitProvision(pid: Pid)
    | InitRecheck(pid: Pid)
    | InitOpen(pid: Pid)
    | InitClaim(pid: Pid, freshId: Bytes)
    // any process may fail at any point
    | Abort(pid: Pid)

  /** A store created by a run starts without a binding. */
  predicate FreshStore(store: Store) {
    store.inherited == None && store.binding == Slot(None, None)
  }

  predicate Enabled(s: State, step: Step) {
    match step
    case Provision(side) => true
    case LoseActive(side) => true
    case Crash(_, _, _) => true
    case OpenSystem(pid) => pid !in s.procs && CanOpen(s, System)
    case OpenSelf(pid) => pid in s.procs && s.procs[pid].SawSystem? && CanOpen(s, SelfManaged)
    case Select(pid, _, _, _) => pid in s.procs && s.procs[pid].SawBoth?
    case Work(pid, created) =>
      && pid in s.procs && s.procs[pid].Working? && FreshStore(created)
      && (s.procs[pid].pc.ResolvePrepare? ==> s.procs[pid].job.goal.Activate?)
    case InitCheck(pid) => pid !in s.procs && !s.system.provisioned
    case InitProvision(pid) => pid in s.procs && s.procs[pid].InitAdmitted?
    case InitRecheck(pid) => pid in s.procs && s.procs[pid].InitProvisioned? && !s.system.provisioned
    case InitOpen(pid) =>
      pid in s.procs && s.procs[pid].InitRechecked? && s.selfManaged.provisioned && s.selfManaged.lock == None
    case InitClaim(pid, _) => pid in s.procs && s.procs[pid].InitOpened? && s.procs[pid].view.Present?
    case Abort(pid) => pid in s.procs
  }

  function Apply(c: Config, s: State, step: Step): State
    requires Enabled(s, step)
  {
    match step
    case Provision(side) => s.With(side, s.At(side).(provisioned := true))
    case LoseActive(side) => s.With(side, s.At(side).(active := Slot(None, None)))
    case Crash(system, selfManaged, stores) => CrashedState(s, system, selfManaged, stores)
    case OpenSystem(pid) =>
      var s' := Opened(c, s, System, pid);
      s'.Now(pid, SawSystem(ViewOf(c, s', System)))
    case OpenSelf(pid) =>
      var s' := Opened(c, s, SelfManaged, pid);
      s'.Now(pid, SawBoth(s.procs[pid].system, ViewOf(c, s', SelfManaged)))
    case Select(pid, desired, supported, freshId) => Selected(c, s, pid, desired, supported, freshId)
    case Work(pid, created) => Worked(c, s, pid, created)
    case InitCheck(pid) => s.Now(pid, InitAdmitted)
    case InitProvision(pid) =>
      s.With(SelfManaged, s.selfManaged.(provisioned := true)).Now(pid, InitProvisioned)
    case InitRecheck(pid) => s.Now(pid, InitRechecked)
    case InitOpen(pid) =>
      var s' := Opened(c, s, SelfManaged, pid);
      s'.Now(pid, InitOpened(ViewOf(c, s', SelfManaged)))
    case InitClaim(pid, freshId) => InitClaimed(c, s, pid, freshId)
    case Abort(pid) => s.Ended(pid)
  }

  const EMPTY_ANCHOR := Anchor(false, None, Slot(None, None), Slot(None, None), Slot(None, None))

  /** No records and no processes; stores may exist and may carry earlier bindings. */
  predicate Init(s: State) {
    && s.system == EMPTY_ANCHOR.(provisioned := s.system.provisioned)
    && s.selfManaged == EMPTY_ANCHOR.(provisioned := s.selfManaged.provisioned)
    && s.procs == map[]
    && forall q :: q in s.stores ==> s.stores[q].binding == Slot(s.stores[q].inherited, s.stores[q].inherited)
  }

  /** The states a trace passes through; `None` when some step is not enabled. */
  function Run(c: Config, s: State, trace: seq<Step>): Option<State>
    decreases |trace|
  {
    if trace == [] then Some(s)
    else if !Enabled(s, trace[0]) then None
    else Run(c, Apply(c, s, trace[0]), trace[1..])
  }

  predicate Reaches(c: Config, s: State, trace: seq<Step>, t: State) {
    Run(c, s, trace) == Some(t)
  }
}
