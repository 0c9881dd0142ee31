/**
 The inductive invariant of the activation protocol and its preservation by every
 step: what each anchor, each store, each process and each pair of processes keeps.
 */
module ActivationInvariant {
  import opened Wrappers
  import opened RecordCodec
  import opened Activation

  // ----- anchors and stores --------------------------------------------------------

  predicate Names(c: Config, k: AuthorityRecord, side: Side) {
    k.Selected() == c.At(side)
  }

  /** Everything a prepare record asserts, checked against the world. */
  predicate RecordOk(c: Config, s: State, side: Side, r: PrepareRecord) {
    && r.Authority() == c.At(side)
    && r.storeLocator in s.stores
    && s.stores[r.storeLocator].Matches(r)
  }

  predicate AnchorOk(c: Config, s: State, side: Side) {
    var a := s.At(side);
    && a.claim.Ok() && a.prepare.Ok() && a.active.Ok()
    && (!a.provisioned ==> a == EMPTY_ANCHOR)
    && (a.claim.visible.Some? ==> Names(c, a.claim.visible.value, System) || Names(c, a.claim.visible.value, SelfManaged))
    && (a.prepare.visible.Some? ==>
          && RecordOk(c, s, side, a.prepare.visible.value)
          && a.claim.durable.Some?
          && Names(c, a.claim.durable.value, side)
          && a.claim.durable.value.selectionId == a.prepare.visible.value.activationId)
    && (a.active.visible.Some? ==>
          && a.prepare.durable == a.active.visible
          && a.prepare.durable.value.storeLocator in s.stores
          && s.stores[a.prepare.durable.value.storeLocator].binding.durable == a.active.visible)
  }

  predicate PreparedBy(s: State, b: PrepareRecord) {
    s.system.prepare.durable == Some(b) || s.selfManaged.prepare.durable == Some(b)
  }

  /** A binding is the one the store came with, or belongs to a durable prepare record. */
  predicate StoreOk(s: State, q: Bytes)
    requires q in s.stores
  {
    var store := s.stores[q];
    && store.binding.Ok()
    && (store.inherited.Some? ==> store.binding == Slot(store.inherited, store.inherited))
    && (store.inherited.None? && store.binding.visible.Some? ==>
          store.binding.visible.value.storeLocator == q && PreparedBy(s, store.binding.visible.value))
  }

  predicate StoresOk(s: State) {
    forall q :: q in s.stores ==> StoreOk(s, q)
  }

  /** All visible claims in the two anchors are equal. */
  predicate Agreement(s: State) {
    s.system.claim.visible.Some? && s.selfManaged.claim.visible.Some? ==>
      s.system.claim.visible == s.selfManaged.claim.visible
  }

  /** The system anchor witnesses a claim for the self-managed root only after that root durably made it. */
  predicate SelfFirst(c: Config, s: State) {
    s.system.claim.visible.Some? && Names(c, s.system.claim.visible.value, SelfManaged) ==>
      s.selfManaged.claim.durable == s.system.claim.visible
  }

  /** The self-managed anchor witnesses only a system root that exists. */
  predicate RootExists(c: Config, s: State) {
    s.selfManaged.claim.visible.Some? && Names(c, s.selfManaged.claim.visible.value, System) ==> s.system.provisioned
  }

  // ----- processes -------------------------------------------------------------------

  predicate LocksOk(s: State) {
    && (forall pid :: pid in s.procs && s.procs[pid].Holds(System) ==> s.system.lock == Some(pid))
    && (forall pid :: pid in s.procs && s.procs[pid].Holds(SelfManaged) ==> s.selfManaged.lock == Some(pid))
    && (s.system.lock.Some? ==>
          s.system.lock.value in s.procs && s.procs[s.system.lock.value].Holds(System) && s.system.provisioned)
    && (s.selfManaged.lock.Some? ==>
          s.selfManaged.lock.value in s.procs && s.procs[s.selfManaged.lock.value].Holds(SelfManaged)
          && s.selfManaged.provisioned)
  }

  /** What an opened anchor's reader knows while it keeps the lock. */
  predicate ViewOk(a: Anchor, v: View) {
    v.Present? ==>
      && v.claim == a.claim.visible == a.claim.durable
      && (v.kind.NeverActivated? <==> a.prepare.visible.None?)
      && a.prepare.visible == a.prepare.durable
      && (v.kind.Activated? ==> a.prepare.durable.value.storeLocator == v.kind.store)
  }

  predicate DurablePrepare(s: State, side: Side, r: PrepareRecord) {
    s.At(side).prepare.durable == Some(r)
  }

  predicate DurableBinding(s: State, r: PrepareRecord) {
    r.storeLocator in s.stores && s.stores[r.storeLocator].binding.durable == Some(r)
  }

  predicate PcOk(c: Config, s: State, job: Job, pc: Pc) {
    var here, peer := s.At(job.selected), s.At(job.selected.Other());
    && (pc.PublishWitness? ==> job.peer)
    && (pc.SyncWitness? ==> job.peer && peer.claim.visible == Some(job.claim))
    && (!pc.PublishWitness? && !pc.SyncWitness? && job.peer ==> peer.claim.durable == Some(job.claim))
    && (pc.SyncClaim? ==> here.claim.visible == Some(job.claim))
    && (!pc.PublishWitness? && !pc.SyncWitness? && !pc.PublishClaim? && !pc.SyncClaim? ==>
          job.goal.Activate? && here.claim.durable == Some(job.claim))
    && (pc.PublishPrepare? ==>
          RecordOk(c, s, job.selected, pc.r) && pc.r.activationId == job.claim.selectionId
          && here.prepare.visible == None)
    && (pc.SyncPrepare? ==> here.prepare.visible == Some(pc.r))
    && (pc.PublishPrepare? || pc.SyncPrepare? || pc.PublishBinding? ==>
          pc.r.storeLocator in s.stores && s.stores[pc.r.storeLocator].binding.Settled())
    && (pc.PublishBinding? || pc.SyncBinding? || pc.PublishActive? || pc.SyncActive? || pc.Validate? ==>
          DurablePrepare(s, job.selected, pc.r))
    && (pc.SyncBinding? ==>
          pc.r.storeLocator in s.stores && s.stores[pc.r.storeLocator].binding.visible == Some(pc.r))
    && (pc.PublishActive? || pc.SyncActive? || pc.Validate? ==> DurableBinding(s, pc.r))
  }

  predicate JobOk(c: Config, s: State, job: Job) {
    && Names(c, job.claim, job.selected)
    && (job.initializer ==> job.selected == SelfManaged && !job.peer && job.goal == ClaimOnly(ClaimDeclared))
    && (job.goal.ClaimOnly? && job.goal.outcome.ActivatedStore? ==>
          s.At(job.selected).prepare.durable.Some?
          && s.At(job.selected).prepare.durable.value.storeLocator == job.goal.outcome.store)
    // a selector acting for the self-managed root never invents the claim
    && (job.selected == SelfManaged && !job.initializer ==>
          || s.selfManaged.claim.durable == Some(job.claim)
          || (job.peer && s.system.claim.visible == Some(job.claim)))
  }

  /** The anchor carries a claim, and it names that very anchor. */
  predicate ClaimNames(c: Config, s: State, side: Side) {
    s.At(side).claim.visible.Some? && Names(c, s.At(side).claim.visible.value, side)
  }

  /** The system anchor is held without any claim in what the process holds. */
  predicate UnclaimedLease(s: State, side: Side, peer: bool) {
    side == System && s.system.claim.visible == None && (peer ==> s.selfManaged.claim.visible == None)
  }

  predicate ProcOk(c: Config, s: State, p: Proc) {
    match p
    case SawSystem(v) => ViewOk(s.system, v)
    case SawBoth(v, w) => ViewOk(s.system, v) && ViewOk(s.selfManaged, w)
    case InitAdmitted => true
    case InitProvisioned => s.selfManaged.provisioned
    case InitRechecked => s.selfManaged.provisioned
    case InitOpened(v) => v.Present? && ViewOk(s.selfManaged, v)
    case Working(job, pc) => JobOk(c, s, job) && PcOk(c, s, job, pc)
    case Done(side, peer, outcome) =>
      && (outcome.ActivatedStore? ==>
            s.At(side).prepare.durable.Some? && s.At(side).prepare.durable.value.storeLocator == outcome.store)
      && (ClaimNames(c, s, side) || UnclaimedLease(s, side, peer))
  }

  predicate ProcsOk(c: Config, s: State) {
    forall pid :: pid in s.procs ==> ProcOk(c, s, s.procs[pid])
  }

  // ----- pairs of processes -------------------------------------------------------------

  /** Holds the system anchor, having found no self-managed anchor. */
  predicate BlindToSelf(p: Proc) {
    match p
    case SawBoth(v, w) => v.Present? && w.Absent?
    case Working(job, _) => job.selected == System && !job.peer
    case Done(side, peer, _) => side == System && !peer
    case _ => false
  }

  /** An initializer that re-checked the system anchor after provisioning its own. */
  predicate PastRecheck(p: Proc) {
    match p
    case InitRechecked => true
    case InitOpened(_) => true
    case Working(job, _) => job.initializer
    case _ => false
  }

  predicate Exclusion(s: State) {
    forall p, q :: p in s.procs && q in s.procs && BlindToSelf(s.procs[p]) ==> !PastRecheck(s.procs[q])
  }

  predicate BlindOk(s: State) {
    forall p :: p in s.procs && BlindToSelf(s.procs[p]) ==> s.selfManaged.claim.visible == None
  }

  /** While such an initializer runs, a system claim never appears without its witness. */
  predicate WitnessFirst(s: State) {
    forall q :: q in s.procs && PastRecheck(s.procs[q]) && s.system.claim.visible.Some? ==>
      s.selfManaged.claim.visible.Some?
  }

  predicate JobFits(s: State, job: Job) {
    && (s.system.claim.visible.Some? ==> s.system.claim.visible.value == job.claim)
    && (s.selfManaged.claim.visible.Some? ==> s.selfManaged.claim.visible.value == job.claim)
  }

  /** Every job in flight works for the one claim there is or will be. */
  predicate JobsAgree(s: State) {
    && (forall p :: p in s.procs && s.procs[p].Working? ==> JobFits(s, s.procs[p].job))
    && (forall p, q :: p in s.procs && q in s.procs && s.procs[p].Working? && s.procs[q].Working? ==>
          s.procs[p].job.claim == s.procs[q].job.claim)
  }

  predicate DiskOk(c: Config, s: State) {
    AnchorOk(c, s, System) && AnchorOk(c, s, SelfManaged) && StoresOk(s) && Agreement(s)
    && SelfFirst(c, s) && RootExists(c, s)
  }

  predicate GlobalOk(s: State) {
    Exclusion(s) && BlindOk(s) && WitnessFirst(s) && JobsAgree(s)
  }

  predicate Inv(c: Config, s: State) {
    c.Valid() && DiskOk(c, s) && LocksOk(s) && ProcsOk(c, s) && GlobalOk(s)
  }

  // ----- what every step but a crash keeps ---------------------------------------------------

  predicate SlotGrows<T(==)>(x: Slot<T>, y: Slot<T>) {
    (x.visible.Some? ==> y.visible == x.visible) && (x.durable.Some? ==> y.durable == x.durable)
  }

  predicate StoresGrow(x: map<Bytes, Store>, y: map<Bytes, Store>) {
    forall q :: q in x ==>
      && q in y
      && y[q].identity == x[q].identity && y[q].backend == x[q].backend && y[q].inherited == x[q].inherited
      && SlotGrows(x[q].binding, y[q].binding)
  }

  /** Nothing already synced gains an unsynced binding. */
  predicate StoresSettle(x: map<Bytes, Store>, y: map<Bytes, Store>) {
    forall q :: q in x && q in y && x[q].binding.Settled() ==> y[q].binding.Settled()
  }

  predicate SameRecords(a: Anchor, b: Anchor) {
    a.claim == b.claim && a.prepare == b.prepare && (a.provisioned ==> b.provisioned)
  }

  /** A process keeps its facts when the anchors it holds keep their claim and prepare. */
  lemma ProcFrame(c: Config, s: State, s': State, p: Proc)
    requires ProcOk(c, s, p)
    requires p.Holds(System) ==> SameRecords(s.system, s'.system)
    requires p.Holds(SelfManaged) ==> SameRecords(s.selfManaged, s'.selfManaged)
    requires s.selfManaged.provisioned ==> s'.selfManaged.provisioned
    requires StoresGrow(s.stores, s'.stores)
    requires p.Working? ==> StoresSettle(s.stores, s'.stores)
    ensures ProcOk(c, s', p)
  {
  }

  /** Only anchors locked by `pid` changed; everybody else keeps their facts. */
  predicate ChangesOnlyHeld(s: State, s': State, pid: Pid) {
    && (s.system.lock == Some(pid) || s.system.lock == None || SameRecords(s.system, s'.system))
    && (s.selfManaged.lock == Some(pid) || s.selfManaged.lock == None || SameRecords(s.selfManaged, s'.selfManaged))
    && (s.selfManaged.provisioned ==> s'.selfManaged.provisioned)
    && StoresGrow(s.stores, s'.stores)
    && (StoresSettle(s.stores, s'.stores) || forall q :: q in s.procs && q != pid ==> !s.procs[q].Working?)
  }

  lemma OthersKeep(c: Config, s: State, s': State, pid: Pid)
    requires ProcsOk(c, s) && LocksOk(s) && ChangesOnlyHeld(s, s', pid)
    ensures forall q :: q in s.procs && q != pid ==> ProcOk(c, s', s.procs[q])
  {
    forall q | q in s.procs && q != pid
      ensures ProcOk(c, s', s.procs[q])
    {
      ProcFrame(c, s, s', s.procs[q]);
    }
  }

  lemma ProcsNow(c: Config, s: State, s': State, pid: Pid, p: Proc)
    requires ProcsOk(c, s) && LocksOk(s) && ChangesOnlyHeld(s, s', pid)
    requires s'.procs == s.procs[pid := p] && ProcOk(c, s', p)
    ensures ProcsOk(c, s')
  {
    OthersKeep(c, s, s', pid);
  }

  /** The lock a side has once `pid` is in state `p`. */
  function LockNow(lock: Option<Pid>, pid: Pid, holds: bool): Option<Pid> {
    if holds then Some(pid) else if lock == Some(pid) then None else lock
  }

  lemma LocksNow(s: State, s': State, pid: Pid, p: Proc)
    requires LocksOk(s)
    requires s'.procs == s.procs[pid := p]
    requires s'.system.lock == LockNow(s.system.lock, pid, p.Holds(System))
    requires s'.selfManaged.lock == LockNow(s.selfManaged.lock, pid, p.Holds(SelfManaged))
    requires p.Holds(System) ==> s'.system.provisioned && (s.system.lock == None || s.system.lock == Some(pid))
    requires p.Holds(SelfManaged) ==>
               s'.selfManaged.provisioned && (s.selfManaged.lock == None || s.selfManaged.lock == Some(pid))
    requires s.system.provisioned ==> s'.system.provisioned
    requires s.selfManaged.provisioned ==> s'.selfManaged.provisioned
    ensures LocksOk(s')
  {
  }

  predicate SameClaims(s: State, s': State) {
    s.system.claim.visible == s'.system.claim.visible && s.selfManaged.claim.visible == s'.selfManaged.claim.visible
  }

  /** `p` plays no role in the pairwise conditions that the process did not play before. */
  predicate NoNewRole(s: State, pid: Pid, p: Proc) {
    && (BlindToSelf(p) ==> pid in s.procs && BlindToSelf(s.procs[pid]))
    && (PastRecheck(p) ==> pid in s.procs && PastRecheck(s.procs[pid]))
    && (p.Working? ==> pid in s.procs && s.procs[pid].Working? && s.procs[pid].job.claim == p.job.claim)
  }

  lemma GlobalNow(s: State, s': State, pid: Pid, p: Proc)
    requires GlobalOk(s) && SameClaims(s, s')
    requires s'.procs == s.procs[pid := p] && NoNewRole(s, pid, p)
    ensures GlobalOk(s')
  {
  }

  lemma InitInv(c: Config, s: State)
    requires c.Valid() && Init(s)
    ensures Inv(c, s)
  {
  }

  // ----- the disk under each durable action ---------------------------------------------------

  lemma DiskSync(c: Config, s: State, side: Side)
    requires DiskOk(c, s)
    ensures DiskOk(c, AnchorSynced(s, side))
  {
  }

  lemma DiskStoreSync(c: Config, s: State, q: Bytes)
    requires DiskOk(c, s)
    ensures DiskOk(c, s.StoreSynced(q))
    ensures StoresGrow(s.stores, s.StoreSynced(q).stores) && StoresSettle(s.stores, s.StoreSynced(q).stores)
  {
  }

  lemma DiskClaim(c: Config, s: State, side: Side, e: AuthorityRecord)
    requires DiskOk(c, s) && s.At(side).provisioned
    requires Names(c, e, System) || Names(c, e, SelfManaged)
    requires s.At(side.Other()).claim.visible.Some? ==> s.At(side.Other()).claim.visible.value == e
    requires side == System && Names(c, e, SelfManaged) && s.system.claim.visible == None ==>
               s.selfManaged.claim.durable == Some(e)
    requires Names(c, e, System) ==> s.system.provisioned
    requires PublishedClaim(s, side, e).Some?
    ensures DiskOk(c, PublishedClaim(s, side, e).value)
  {
  }

  lemma DiskPrepare(c: Config, s: State, side: Side, r: PrepareRecord)
    requires DiskOk(c, s) && s.At(side).provisioned
    requires RecordOk(c, s, side, r)
    requires s.At(side).claim.durable.Some? && Names(c, s.At(side).claim.durable.value, side)
    requires s.At(side).claim.durable.value.selectionId == r.activationId
    requires PublishedPrepare(s, side, r).Some?
    ensures DiskOk(c, PublishedPrepare(s, side, r).value)
  {
  }

  lemma DiskActive(c: Config, s: State, side: Side, r: PrepareRecord)
    requires DiskOk(c, s) && s.At(side).provisioned
    requires DurablePrepare(s, side, r) && DurableBinding(s, r)
    requires PublishedActive(s, side, r).Some?
    ensures DiskOk(c, PublishedActive(s, side, r).value)
  {
  }

  lemma AnchorCrash(c: Config, s: State, system: Keep, selfManaged: Keep, stores: set<Bytes>, side: Side)
    requires AnchorOk(c, s, side)
    requires s.At(side).active.visible.Some? ==>
               var q := s.At(side).active.visible.value.storeLocator; q in s.stores && s.stores[q].binding.Ok()
    ensures AnchorOk(c, CrashedState(s, system, selfManaged, stores), side)
  {
  }

  lemma StoresCrash(s: State, system: Keep, selfManaged: Keep, stores: set<Bytes>)
    requires StoresOk(s) && s.system.prepare.Ok() && s.selfManaged.prepare.Ok()
    ensures StoresOk(CrashedState(s, system, selfManaged, stores))
  {
    var t := CrashedState(s, system, selfManaged, stores);
    forall q | q in t.stores
      ensures StoreOk(t, q)
    {
      assert StoreOk(s, q);
    }
  }

  lemma DiskCrash(c: Config, s: State, system: Keep, selfManaged: Keep, stores: set<Bytes>)
    requires DiskOk(c, s)
    ensures DiskOk(c, CrashedState(s, system, selfManaged, stores))
  {
    AnchorCrash(c, s, system, selfManaged, stores, System);
    AnchorCrash(c, s, system, selfManaged, stores, SelfManaged);
    StoresCrash(s, system, selfManaged, stores);
  }
}
