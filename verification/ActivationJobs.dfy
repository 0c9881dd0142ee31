/** The publication job keeps the invariant at each of its durable actions. */
module ActivationJobs {
  import opened Wrappers
  import opened RecordCodec
  import opened Activation
  import opened ActivationInvariant
  import opened ActivationSteps

  /** One action of a job: it touches only what it holds, and stores only grow. */
  predicate JobAction(s: State, t: State, job: Job) {
    && t.procs == s.procs
    && t.system.lock == s.system.lock && t.selfManaged.lock == s.selfManaged.lock
    && t.system.provisioned == s.system.provisioned && t.selfManaged.provisioned == s.selfManaged.provisioned
    && (!job.Holds(System) ==> SameRecords(s.system, t.system))
    && (!job.Holds(SelfManaged) ==> SameRecords(s.selfManaged, t.selfManaged))
    && StoresGrow(s.stores, t.stores)
  }

  /** Two jobs would hold the same anchor, so there is at most one. */
  lemma SingleJob(c: Config, s: State, pid: Pid)
    requires Inv(c, s) && pid in s.procs && s.procs[pid].Working?
    ensures forall q :: q in s.procs && q != pid ==> !s.procs[q].Working?
  {
    forall q | q in s.procs && q != pid
      ensures !s.procs[q].Working?
    {
      var mine, other := s.procs[pid], s.procs[q];
      assert ProcOk(c, s, mine) && ProcOk(c, s, other);
      var here := mine.job.selected;
      assert other.Working? ==> other.Holds(here);
    }
  }

  lemma ActionProcs(c: Config, s: State, t: State, pid: Pid, p: Proc)
    requires ProcsOk(c, s) && LocksOk(s)
    requires pid in s.procs && s.procs[pid].Working? && JobAction(s, t, s.procs[pid].job)
    requires forall q :: q in s.procs && q != pid ==> !s.procs[q].Working?
    requires ProcOk(c, t, p)
    ensures ProcsOk(c, t.Now(pid, p))
  {
    var s' := t.Now(pid, p);
    ProcFrame(c, t, s', p);
    ProcsNow(c, s, s', pid, p);
  }

  lemma ActionLocks(s: State, t: State, pid: Pid, p: Proc)
    requires LocksOk(s) && pid in s.procs && s.procs[pid].Working? && JobAction(s, t, s.procs[pid].job)
    requires p.Holds(System) == s.procs[pid].Holds(System)
    requires p.Holds(SelfManaged) == s.procs[pid].Holds(SelfManaged)
    ensures LocksOk(t.Now(pid, p))
  {
    LocksNow(s, t.Now(pid, p), pid, p);
  }

  lemma ActionInv(c: Config, s: State, t: State, pid: Pid, p: Proc)
    requires Inv(c, s) && DiskOk(c, t)
    requires pid in s.procs && s.procs[pid].Working? && JobAction(s, t, s.procs[pid].job)
    requires p.Holds(System) == s.procs[pid].Holds(System)
    requires p.Holds(SelfManaged) == s.procs[pid].Holds(SelfManaged)
    requires ProcOk(c, t, p)
    requires GlobalOk(t.Now(pid, p))
    ensures Inv(c, t.Now(pid, p))
  {
    NowDisk(c, t, pid, p);
    SingleJob(c, s, pid);
    ActionLocks(s, t, pid, p);
    ActionProcs(c, s, t, pid, p);
  }

  /** The common case: no claim changes and the process keeps or ends its job. */
  lemma QuietAction(c: Config, s: State, t: State, pid: Pid, p: Proc)
    requires Inv(c, s) && DiskOk(c, t)
    requires pid in s.procs && s.procs[pid].Working? && JobAction(s, t, s.procs[pid].job)
    requires var job := s.procs[pid].job;
             p == Done(job.selected, job.peer, if p.Done? then p.outcome else UnsupportedLease)
             || p == Working(job, if p.Working? then p.pc else PublishClaim)
    requires SameClaims(s, t)
    requires ProcOk(c, t, p)
    ensures Inv(c, t.Now(pid, p))
  {
    GlobalNow(s, t.Now(pid, p), pid, p);
    ActionInv(c, s, t, pid, p);
  }

  // ----- claims ----------------------------------------------------------------------------

  lemma PublishBlind(c: Config, s: State, t: State, pid: Pid, side: Side, pc: Pc)
    requires Exclusion(s) && BlindOk(s) && LocksOk(s) && s.selfManaged.claim.Ok()
    requires pid in s.procs && s.procs[pid].Working? && ProcOk(c, s, s.procs[pid]) && s.procs[pid].Holds(side)
    requires PublishedClaim(s, side, s.procs[pid].job.claim) == Some(t)
    ensures BlindOk(t.Now(pid, Working(s.procs[pid].job, pc)))
  {
    var p := s.procs[pid];
    var s' := t.Now(pid, Working(p.job, pc));
    forall q | q in s'.procs && BlindToSelf(s'.procs[q])
      ensures s'.selfManaged.claim.visible == None
    {
      assert BlindToSelf(s.procs[q]) && s.procs[q].Holds(System);
      assert side == SelfManaged ==> q != pid && !p.Holds(System);
      assert !PastRecheck(p);
    }
  }

  lemma PublishWitnessFirst(c: Config, s: State, t: State, pid: Pid, side: Side, pc: Pc)
    requires Exclusion(s) && WitnessFirst(s) && s.selfManaged.claim.Ok()
    requires pid in s.procs && s.procs[pid].Working? && ProcOk(c, s, s.procs[pid]) && s.procs[pid].Holds(side)
    requires side == System && s.procs[pid].job.selected == System && s.procs[pid].job.peer ==>
               s.selfManaged.claim.visible.Some?
    requires PublishedClaim(s, side, s.procs[pid].job.claim) == Some(t)
    ensures WitnessFirst(t.Now(pid, Working(s.procs[pid].job, pc)))
  {
    var p := s.procs[pid];
    var s' := t.Now(pid, Working(p.job, pc));
    forall q | q in s'.procs && PastRecheck(s'.procs[q]) && s'.system.claim.visible.Some?
      ensures s'.selfManaged.claim.visible.Some?
    {
      assert PastRecheck(s.procs[q]) && !BlindToSelf(p);
    }
  }

  lemma PublishJobs(s: State, t: State, pid: Pid, side: Side, pc: Pc)
    requires JobsAgree(s) && pid in s.procs && s.procs[pid].Working?
    requires PublishedClaim(s, side, s.procs[pid].job.claim) == Some(t)
    ensures JobsAgree(t.Now(pid, Working(s.procs[pid].job, pc)))
  {
    assert JobFits(s, s.procs[pid].job);
  }

  /** Publishing the agreed claim upsets no other process. */
  lemma PublishGlobal(c: Config, s: State, t: State, pid: Pid, side: Side, pc: Pc)
    requires GlobalOk(s) && LocksOk(s) && s.selfManaged.claim.Ok()
    requires pid in s.procs && s.procs[pid].Working? && ProcOk(c, s, s.procs[pid]) && s.procs[pid].Holds(side)
    requires side == System && s.procs[pid].job.selected == System && s.procs[pid].job.peer ==>
               s.selfManaged.claim.visible.Some?
    requires PublishedClaim(s, side, s.procs[pid].job.claim) == Some(t)
    ensures GlobalOk(t.Now(pid, Working(s.procs[pid].job, pc)))
  {
    PublishBlind(c, s, t, pid, side, pc);
    PublishWitnessFirst(c, s, t, pid, side, pc);
    PublishJobs(s, t, pid, side, pc);
    ExclusionKept(s, t.Now(pid, Working(s.procs[pid].job, pc)), pid, pc);
  }

  lemma ExclusionKept(s: State, s': State, pid: Pid, pc: Pc)
    requires Exclusion(s) && pid in s.procs && s.procs[pid].Working?
    requires s'.procs == s.procs[pid := Working(s.procs[pid].job, pc)]
    ensures Exclusion(s')
  {
  }

  predicate PublishingAt(job: Job, at: Pc, side: Side, next: Pc) {
    || (at.PublishWitness? && side == job.selected.Other() && next.SyncWitness?)
    || (at.PublishClaim? && side == job.selected && next.SyncClaim?)
  }

  lemma PublishedPc(c: Config, s: State, t: State, job: Job, at: Pc, side: Side, next: Pc)
    requires JobOk(c, s, job) && PcOk(c, s, job, at) && JobFits(s, job)
    requires PublishingAt(job, at, side, next)
    requires PublishedClaim(s, side, job.claim) == Some(t)
    ensures job.Holds(side) && ProcOk(c, t, Working(job, next)) && JobAction(s, t, job)
  {
  }

  lemma PublishClaimInv(c: Config, s: State, pid: Pid, side: Side, next: Pc)
    requires Inv(c, s) && pid in s.procs && s.procs[pid].Working?
    requires PublishingAt(s.procs[pid].job, s.procs[pid].pc, side, next)
    ensures Inv(c, Continue(PublishedClaim(s, side, s.procs[pid].job.claim), s, pid, s.procs[pid].job, next))
  {
    var p := s.procs[pid];
    match PublishedClaim(s, side, p.job.claim)
    case None => EndedInv(c, s, pid);
    case Some(t) =>
      assert ProcOk(c, s, p) && JobFits(s, p.job) && p.Holds(side) && p.Holds(p.job.selected);
      DiskClaim(c, s, side, p.job.claim);
      PublishedPc(c, s, t, p.job, p.pc, side, next);
      PublishGlobal(c, s, t, pid, side, next);
      ActionInv(c, s, t, pid, Working(p.job, next));
  }

  // ----- syncs -----------------------------------------------------------------------------

  lemma SyncInv(c: Config, s: State, pid: Pid, side: Side, p: Proc)
    requires Inv(c, s) && pid in s.procs && s.procs[pid].Working? && s.procs[pid].job.Holds(side)
    requires var job := s.procs[pid].job;
             p == Done(job.selected, job.peer, if p.Done? then p.outcome else UnsupportedLease)
             || p == Working(job, if p.Working? then p.pc else PublishClaim)
    requires ProcOk(c, AnchorSynced(s, side), p)
    ensures Inv(c, AnchorSynced(s, side).Now(pid, p))
  {
    DiskSync(c, s, side);
    QuietAction(c, s, AnchorSynced(s, side), pid, p);
  }

  lemma SyncWitnessInv(c: Config, s: State, pid: Pid)
    requires Inv(c, s) && pid in s.procs && s.procs[pid].Working? && s.procs[pid].pc.SyncWitness?
    ensures var job := s.procs[pid].job;
            Inv(c, AnchorSynced(s, job.selected.Other()).Now(pid, Working(job, PublishClaim)))
  {
    var job := s.procs[pid].job;
    assert ProcOk(c, s, s.procs[pid]);
    SyncInv(c, s, pid, job.selected.Other(), Working(job, PublishClaim));
  }

  lemma SyncClaimInv(c: Config, s: State, pid: Pid)
    requires Inv(c, s) && pid in s.procs && s.procs[pid].Working? && s.procs[pid].pc.SyncClaim?
    ensures var job := s.procs[pid].job;
            Inv(c, AnchorSynced(s, job.selected)
                   .Now(pid, if job.goal.ClaimOnly? then Done(job.selected, job.peer, job.goal.outcome)
                             else Working(job, ResolvePrepare)))
  {
    var job := s.procs[pid].job;
    assert ProcOk(c, s, s.procs[pid]);
    SyncInv(c, s, pid, job.selected,
            if job.goal.ClaimOnly? then Done(job.selected, job.peer, job.goal.outcome) else Working(job, ResolvePrepare));
  }

  lemma SyncPrepareInv(c: Config, s: State, pid: Pid)
    requires Inv(c, s) && pid in s.procs && s.procs[pid].Working? && s.procs[pid].pc.SyncPrepare?
    ensures var job := s.procs[pid].job;
            Inv(c, AnchorSynced(s, job.selected).Now(pid, Working(job, PublishBinding(s.procs[pid].pc.r))))
  {
    var job := s.procs[pid].job;
    assert ProcOk(c, s, s.procs[pid]);
    SyncInv(c, s, pid, job.selected, Working(job, PublishBinding(s.procs[pid].pc.r)));
  }

  lemma SyncActiveInv(c: Config, s: State, pid: Pid)
    requires Inv(c, s) && pid in s.procs && s.procs[pid].Working? && s.procs[pid].pc.SyncActive?
    ensures var job := s.procs[pid].job;
            Inv(c, AnchorSynced(s, job.selected).Now(pid, Working(job, Validate(s.procs[pid].pc.r))))
  {
    var job := s.procs[pid].job;
    assert ProcOk(c, s, s.procs[pid]);
    SyncInv(c, s, pid, job.selected, Working(job, Validate(s.procs[pid].pc.r)));
  }

  lemma SyncBindingInv(c: Config, s: State, pid: Pid)
    requires Inv(c, s) && pid in s.procs && s.procs[pid].Working? && s.procs[pid].pc.SyncBinding?
    ensures var job, r := s.procs[pid].job, s.procs[pid].pc.r;
            Inv(c, s.StoreSynced(r.storeLocator).Now(pid, Working(job, PublishActive(r))))
  {
    var job, r := s.procs[pid].job, s.procs[pid].pc.r;
    assert ProcOk(c, s, s.procs[pid]);
    var t := s.StoreSynced(r.storeLocator);
    DiskStoreSync(c, s, r.storeLocator);
    QuietAction(c, s, t, pid, Working(job, PublishActive(r)));
  }

  // ----- prepare, binding, active -------------------------------------------------------------

  lemma CreatedDisk(c: Config, s: State, q: Bytes, created: Store)
    requires DiskOk(c, s) && q !in s.stores && FreshStore(created)
    ensures DiskOk(c, s.(stores := s.stores[q := created]))
    ensures StoresGrow(s.stores, s.stores[q := created])
  {
  }

  lemma StoresGrowTransitive(x: map<Bytes, Store>, y: map<Bytes, Store>, z: map<Bytes, Store>)
    requires StoresGrow(x, y) && StoresGrow(y, z)
    ensures StoresGrow(x, z)
  {
  }

  lemma ResumePc(c: Config, s: State, job: Job, p: PrepareRecord)
    requires DiskOk(c, s) && JobOk(c, s, job) && PcOk(c, s, job, ResolvePrepare)
    requires s.At(job.selected).prepare.visible == Some(p)
    ensures var t := s.StoreSynced(p.storeLocator);
            DiskOk(c, t) && ProcOk(c, t, Working(job, SyncPrepare(p))) && JobAction(s, t, job) && SameClaims(s, t)
  {
    DiskStoreSync(c, s, p.storeLocator);
  }

  lemma ResolveInv(c: Config, s: State, pid: Pid, created: Store)
    requires Inv(c, s) && pid in s.procs && s.procs[pid].Working? && s.procs[pid].pc.ResolvePrepare?
    requires s.procs[pid].job.goal.Activate? && FreshStore(created)
    ensures Inv(c, Resolved(c, s, pid, s.procs[pid].job, created))
  {
    var job := s.procs[pid].job;
    match s.At(job.selected).prepare.visible
    case Some(p) =>
      if AuthenticRecord(c, job.selected, false, p).Record? && ClassifyStore(s.stores, false, p).Preparing? {
        assert ProcOk(c, s, s.procs[pid]);
        ResumePc(c, s, job, p);
        QuietAction(c, s, s.StoreSynced(p.storeLocator), pid, Working(job, SyncPrepare(p)));
      } else {
        EndedInv(c, s, pid);
      }
    case None =>
      FreshPrepareInv(c, s, pid, created);
  }

  /** The desired store, opened or created and synced, and the record that will name it. */
  function WithDesiredStore(s: State, q: Bytes, created: Store): State {
    s.(stores := if q in s.stores then s.stores else s.stores[q := created]).StoreSynced(q)
  }

  lemma DesiredStoreDisk(c: Config, s: State, q: Bytes, created: Store)
    requires DiskOk(c, s) && FreshStore(created)
    ensures var t := WithDesiredStore(s, q, created);
            q in t.stores && DiskOk(c, t) && StoresGrow(s.stores, t.stores) && t.stores[q].binding.Settled()
  {
    var s1 := s.(stores := if q in s.stores then s.stores else s.stores[q := created]);
    if q !in s.stores {
      CreatedDisk(c, s, q, created);
    }
    DiskStoreSync(c, s1, q);
    StoresGrowTransitive(s.stores, s1.stores, s1.StoreSynced(q).stores);
  }

  lemma FreshPreparePc(c: Config, s: State, job: Job, t: State, r: PrepareRecord)
    requires JobOk(c, s, job) && PcOk(c, s, job, ResolvePrepare) && s.At(job.selected).prepare.visible == None
    requires t == s.(stores := t.stores) && StoresGrow(s.stores, t.stores)
    requires r.Authority() == c.At(job.selected) && r.activationId == job.claim.selectionId
    requires r.storeLocator in t.stores && t.stores[r.storeLocator].Matches(r)
    requires t.stores[r.storeLocator].binding.Settled()
    ensures JobAction(s, t, job) && SameClaims(s, t)
    ensures ProcOk(c, t, Working(job, ResolvePrepare)) && ProcOk(c, t, Working(job, PublishPrepare(r)))
  {
  }

  /** The store was opened, and then the process gave up. */
  lemma QuietEnd(c: Config, s: State, t: State, pid: Pid)
    requires Inv(c, s) && DiskOk(c, t) && SameClaims(s, t)
    requires pid in s.procs && s.procs[pid].Working? && JobAction(s, t, s.procs[pid].job) && ProcOk(c, t, s.procs[pid])
    ensures Inv(c, t.Ended(pid))
  {
    QuietAction(c, s, t, pid, s.procs[pid]);
    assert t.Now(pid, s.procs[pid]) == t;
    EndedInv(c, t, pid);
  }

  lemma FreshPrepareInv(c: Config, s: State, pid: Pid, created: Store)
    requires Inv(c, s) && pid in s.procs && s.procs[pid].Working? && s.procs[pid].pc.ResolvePrepare?
    requires s.procs[pid].job.goal.Activate? && FreshStore(created)
    requires s.At(s.procs[pid].job.selected).prepare.visible == None
    ensures Inv(c, Resolved(c, s, pid, s.procs[pid].job, created))
  {
    var job := s.procs[pid].job;
    var t := WithDesiredStore(s, job.goal.desired, created);
    DesiredStoreDisk(c, s, job.goal.desired, created);
    var at, store := c.At(job.selected), t.stores[job.goal.desired];
    var r := PrepareRecord(job.claim.selectionId, at.locator, at.identity, at.backend,
                           job.goal.desired, store.identity, store.backend);
    assert ProcOk(c, s, s.procs[pid]);
    FreshPreparePc(c, s, job, t, r);
    if EncodePrepare(r).None? {
      QuietEnd(c, s, t, pid);
    } else {
      QuietAction(c, s, t, pid, Working(job, PublishPrepare(r)));
    }
  }

  lemma PreparedPc(c: Config, s: State, job: Job, r: PrepareRecord)
    requires DiskOk(c, s) && JobOk(c, s, job) && PcOk(c, s, job, PublishPrepare(r)) && s.At(job.selected).provisioned
    ensures PublishedPrepare(s, job.selected, r).Some?
    ensures var t := PublishedPrepare(s, job.selected, r).value;
            DiskOk(c, t) && ProcOk(c, t, Working(job, SyncPrepare(r))) && JobAction(s, t, job) && SameClaims(s, t)
  {
    DiskPrepare(c, s, job.selected, r);
  }

  lemma PublishPrepareInv(c: Config, s: State, pid: Pid)
    requires Inv(c, s) && pid in s.procs && s.procs[pid].Working? && s.procs[pid].pc.PublishPrepare?
    ensures var job, r := s.procs[pid].job, s.procs[pid].pc.r;
            Inv(c, Continue(PublishedPrepare(s, job.selected, r), s, pid, job, SyncPrepare(r)))
  {
    var job, r := s.procs[pid].job, s.procs[pid].pc.r;
    assert ProcOk(c, s, s.procs[pid]) && s.procs[pid].Holds(job.selected);
    PreparedPc(c, s, job, r);
    QuietAction(c, s, PublishedPrepare(s, job.selected, r).value, pid, Working(job, SyncPrepare(r)));
  }

  lemma DiskBinding(c: Config, s: State, r: PrepareRecord)
    requires DiskOk(c, s) && PreparedBy(s, r)
    requires r.storeLocator in s.stores && s.stores[r.storeLocator].binding.visible == None
    ensures var store := s.stores[r.storeLocator];
            var t := s.(stores := s.stores[r.storeLocator := store.(binding := store.binding.Renamed(r))]);
            DiskOk(c, t) && StoresGrow(s.stores, t.stores)
  {
  }

  lemma BoundPc(c: Config, s: State, job: Job, r: PrepareRecord)
    requires DiskOk(c, s) && JobOk(c, s, job) && PcOk(c, s, job, PublishBinding(r))
    requires s.stores[r.storeLocator].binding.visible == None
    ensures var store := s.stores[r.storeLocator];
            var t := s.(stores := s.stores[r.storeLocator := store.(binding := store.binding.Renamed(r))]);
            DiskOk(c, t) && ProcOk(c, t, Working(job, SyncBinding(r))) && JobAction(s, t, job) && SameClaims(s, t)
  {
    DiskBinding(c, s, r);
  }

  lemma BindInv(c: Config, s: State, pid: Pid)
    requires Inv(c, s) && pid in s.procs && s.procs[pid].Working? && s.procs[pid].pc.PublishBinding?
    ensures Inv(c, Bound(s, pid, s.procs[pid].job, s.procs[pid].pc.r))
  {
    var job, r := s.procs[pid].job, s.procs[pid].pc.r;
    assert ProcOk(c, s, s.procs[pid]);
    var store := s.stores[r.storeLocator];
    match store.binding.visible
    case Some(b) =>
      if b == r && Readable(r) {
        QuietAction(c, s, s, pid, Working(job, PublishActive(r)));
      } else {
        EndedInv(c, s, pid);
      }
    case None =>
      var t := s.(stores := s.stores[r.storeLocator := store.(binding := store.binding.Renamed(r))]);
      BoundPc(c, s, job, r);
      QuietAction(c, s, t, pid, Working(job, SyncBinding(r)));
  }

  lemma ActivePc(c: Config, s: State, t: State, job: Job, r: PrepareRecord)
    requires JobOk(c, s, job) && PcOk(c, s, job, PublishActive(r))
    requires PublishedActive(s, job.selected, r) == Some(t)
    ensures ProcOk(c, t, Working(job, SyncActive(r))) && JobAction(s, t, job) && SameClaims(s, t)
  {
  }

  lemma PublishActiveInv(c: Config, s: State, pid: Pid)
    requires Inv(c, s) && pid in s.procs && s.procs[pid].Working? && s.procs[pid].pc.PublishActive?
    ensures var job, r := s.procs[pid].job, s.procs[pid].pc.r;
            Inv(c, Continue(PublishedActive(s, job.selected, r), s, pid, job, SyncActive(r)))
  {
    var job, r := s.procs[pid].job, s.procs[pid].pc.r;
    match PublishedActive(s, job.selected, r)
    case None => EndedInv(c, s, pid);
    case Some(t) =>
      assert ProcOk(c, s, s.procs[pid]) && s.procs[pid].Holds(job.selected);
      DiskActive(c, s, job.selected, r);
      ActivePc(c, s, t, job, r);
      QuietAction(c, s, t, pid, Working(job, SyncActive(r)));
  }

  lemma ValidatedPc(c: Config, s: State, job: Job, r: PrepareRecord)
    requires DiskOk(c, s) && JobOk(c, s, job) && PcOk(c, s, job, Validate(r))
    ensures var t := AnchorSynced(s.StoreSynced(r.storeLocator), job.selected);
            && DiskOk(c, t) && ProcOk(c, t, Done(job.selected, job.peer, ActivatedStore(r.storeLocator)))
            && JobAction(s, t, job) && SameClaims(s, t)
  {
    DiskStoreSync(c, s, r.storeLocator);
    DiskSync(c, s.StoreSynced(r.storeLocator), job.selected);
  }

  lemma ValidateInv(c: Config, s: State, pid: Pid)
    requires Inv(c, s) && pid in s.procs && s.procs[pid].Working? && s.procs[pid].pc.Validate?
    ensures Inv(c, Validated(c, s, pid, s.procs[pid].job, s.procs[pid].pc.r))
  {
    var job, r := s.procs[pid].job, s.procs[pid].pc.r;
    if AuthenticRecord(c, job.selected, true, r).Record? && ClassifyStore(s.stores, true, r).Activated? {
      assert ProcOk(c, s, s.procs[pid]);
      ValidatedPc(c, s, job, r);
      QuietAction(c, s, AnchorSynced(s.StoreSynced(r.storeLocator), job.selected), pid,
                  Done(job.selected, job.peer, ActivatedStore(r.storeLocator)));
    } else {
      EndedInv(c, s, pid);
    }
  }

  lemma WorkInv(c: Config, s: State, pid: Pid, created: Store)
    requires Inv(c, s) && Enabled(s, Work(pid, created))
    ensures Inv(c, Worked(c, s, pid, created))
  {
    var p := s.procs[pid];
    assert ProcOk(c, s, p);
    match p.pc
    case PublishWitness => PublishClaimInv(c, s, pid, p.job.selected.Other(), SyncWitness);
    case SyncWitness => SyncWitnessInv(c, s, pid);
    case PublishClaim => PublishClaimInv(c, s, pid, p.job.selected, SyncClaim);
    case SyncClaim => SyncClaimInv(c, s, pid);
    case ResolvePrepare => ResolveInv(c, s, pid, created);
    case PublishPrepare(_) => PublishPrepareInv(c, s, pid);
    case SyncPrepare(_) => SyncPrepareInv(c, s, pid);
    case PublishBinding(_) => BindInv(c, s, pid);
    case SyncBinding(_) => SyncBindingInv(c, s, pid);
    case PublishActive(_) => PublishActiveInv(c, s, pid);
    case SyncActive(_) => SyncActiveInv(c, s, pid);
    case Validate(_) => ValidateInv(c, s, pid);
  }

  // ----- every run ----------------------------------------------------------------------------

  lemma StepInv(c: Config, s: State, step: Step)
    requires Inv(c, s) && Enabled(s, step)
    ensures Inv(c, Apply(c, s, step))
  {
    match step
    case Provision(side) => ProvisionInv(c, s, side);
    case LoseActive(side) => LoseActiveInv(c, s, side);
    case Crash(system, selfManaged, stores) => CrashInv(c, s, system, selfManaged, stores);
    case OpenSystem(pid) => OpenSystemInv(c, s, pid);
    case OpenSelf(pid) => OpenSelfInv(c, s, pid);
    case Select(pid, desired, supported, freshId) => SelectInv(c, s, pid, desired, supported, freshId);
    case Work(pid, created) => WorkInv(c, s, pid, created);
    case InitCheck(pid) => InitCheckInv(c, s, pid);
    case InitProvision(pid) => InitProvisionInv(c, s, pid);
    case InitRecheck(pid) => InitRecheckInv(c, s, pid);
    case InitOpen(pid) => InitOpenInv(c, s, pid);
    case InitClaim(pid, freshId) => InitClaimInv(c, s, pid, freshId);
    case Abort(pid) => EndedInv(c, s, pid);
  }

  lemma {:induction false} RunInv(c: Config, s: State, trace: seq<Step>, t: State)
    requires Inv(c, s) && Reaches(c, s, trace, t)
    ensures Inv(c, t)
    decreases |trace|
  {
    if trace != [] {
      StepInv(c, s, trace[0]);
      RunInv(c, Apply(c, s, trace[0]), trace[1..], t);
    }
  }

  lemma RunStep(c: Config, s: State, step: Step, rest: seq<Step>, t: State)
    requires Enabled(s, step) && Reaches(c, Apply(c, s, step), rest, t)
    ensures Reaches(c, s, [step] + rest, t)
  {
    assert ([step] + rest)[1..] == rest;
  }

  lemma {:induction false} RunAppend(c: Config, s: State, first: seq<Step>, m: State, rest: seq<Step>, t: State)
    requires Reaches(c, s, first, m) && Reaches(c, m, rest, t)
    ensures Reaches(c, s, first + rest, t)
    decreases |first|
  {
    if first == [] {
      assert first + rest == rest;
    } else {
      assert (first + rest)[1..] == first[1..] + rest;
      RunAppend(c, Apply(c, s, first[0]), first[1..], m, rest, t);
    }
  }
}
