/** What every run of the activation protocol guarantees. */
module ActivationTheorems {
  import opened Wrappers
  import opened RecordCodec
  import opened Activation
  import opened ActivationInvariant
  import opened ActivationSteps
  import opened ActivationJobs

  // ----- agreement and single evidence ----------------------------------------------------

  /** Every authority record present in either anchor, durable or not. */
  function Claims(s: State): set<AuthorityRecord> {
    Held(s.system.claim.visible) + Held(s.system.claim.durable)
    + Held(s.selfManaged.claim.visible) + Held(s.selfManaged.claim.durable)
  }

  function Held(slot: Option<AuthorityRecord>): set<AuthorityRecord> {
    if slot.Some? then {slot.value} else {}
  }

  /** In every interleaving, provisioning order and crash, all authority records are equal. */
  lemma ClaimAgreement(c: Config, s: State, trace: seq<Step>, t: State)
    requires c.Valid() && Init(s) && Reaches(c, s, trace, t)
    ensures forall k, l :: k in Claims(t) && l in Claims(t) ==> k == l
  {
    InitInv(c, s);
    RunInv(c, s, trace, t);
  }

  predicate CarriesEvidence(a: Anchor) {
    a.prepare.visible.Some? || a.active.visible.Some?
  }

  lemma SingleEvidence(c: Config, s: State)
    requires c.Valid() && DiskOk(c, s)
    ensures !(CarriesEvidence(s.system) && CarriesEvidence(s.selfManaged))
  {
  }

  /** At most one anchor ever carries a prepare or active record. */
  lemma NoSplitEvidence(c: Config, s: State, trace: seq<Step>, t: State)
    requires c.Valid() && Init(s) && Reaches(c, s, trace, t)
    ensures !(CarriesEvidence(t.system) && CarriesEvidence(t.selfManaged))
  {
    InitInv(c, s);
    RunInv(c, s, trace, t);
    SingleEvidence(c, t);
  }

  /**
   Witness before claim: a selector that holds both anchors makes the selected root's claim
   visible only when the peer's witness of that very claim is durable, so a crash never leaves
   a newly selected root whose peer has no loss evidence.
   */
  lemma WitnessBeforeClaim(c: Config, s: State, trace: seq<Step>, t: State, pid: Pid, created: Store)
    requires c.Valid() && Init(s) && Reaches(c, s, trace, t)
    requires pid in t.procs && t.procs[pid].Working? && t.procs[pid].job.peer && Enabled(t, Work(pid, created))
    ensures var job := t.procs[pid].job;
            Worked(c, t, pid, created).At(job.selected).claim.visible != t.At(job.selected).claim.visible ==>
              t.At(job.selected.Other()).claim.durable == Some(job.claim)
  {
    InitInv(c, s);
    RunInv(c, s, trace, t);
    assert ProcOk(c, t, t.procs[pid]);
    WitnessFirstWorks(c, t, pid, created);
  }

  lemma WitnessFirstWorks(c: Config, s: State, pid: Pid, created: Store)
    requires pid in s.procs && s.procs[pid].Working? && s.procs[pid].job.peer && Enabled(s, Work(pid, created))
    requires PcOk(c, s, s.procs[pid].job, s.procs[pid].pc)
    ensures var job := s.procs[pid].job;
            Worked(c, s, pid, created).At(job.selected).claim.visible != s.At(job.selected).claim.visible ==>
              s.At(job.selected.Other()).claim.durable == Some(job.claim)
  {
    var job := s.procs[pid].job;
    match s.procs[pid].pc
    case ResolvePrepare => ResolvedKeepsVisible(c, s, pid, job, created);
    case _ =>
  }

  lemma ResolvedKeepsVisible(c: Config, s: State, pid: Pid, job: Job, created: Store)
    requires job.goal.Activate?
    ensures Resolved(c, s, pid, job, created).At(job.selected).claim == s.At(job.selected).claim
  {
  }

  // ----- what discovery reports ---------------------------------------------------------------

  /** The recorded store came without another activation's binding, and the record fits the reader. */
  predicate Resumable(s: State, r: PrepareRecord) {
    && Readable(r)
    && r.storeLocator in s.stores
    && (s.stores[r.storeLocator].inherited == None || s.stores[r.storeLocator].inherited == Some(r))
  }

  lemma BindingOfPrepared(c: Config, s: State, side: Side, r: PrepareRecord)
    requires c.Valid() && DiskOk(c, s) && s.At(side).prepare.visible == Some(r)
    ensures r.storeLocator in s.stores && s.stores[r.storeLocator].Matches(r)
    ensures var store := s.stores[r.storeLocator];
            store.inherited == None ==> store.binding.visible == None || store.binding.visible == Some(r)
  {
    SingleEvidence(c, s);
    assert StoreOk(s, r.storeLocator);
  }

  lemma DiscoverVerdict(c: Config, s: State, side: Side)
    requires c.Valid() && DiskOk(c, s)
    ensures !Discover(c, s, side).Lost?
    ensures Discover(c, s, side).NeverActivated? <==> s.At(side).prepare.visible.None?
    ensures s.At(side).prepare.visible.Some? ==>
              var r := s.At(side).prepare.visible.value;
              && (!Discover(c, s, side).CorruptOrReplaced? <==> Resumable(s, r))
              && (Resumable(s, r) ==>
                    Discover(c, s, side) ==
                      if s.At(side).active.visible.Some? then Activated(r.storeLocator) else Preparing)
  {
    DiscoverKind(c, s, side);
    if s.At(side).prepare.visible.Some? {
      var r := s.At(side).prepare.visible.value;
      BindingOfPrepared(c, s, side, r);
      assert StoreOk(s, r.storeLocator);
    }
  }

  /**
   After any run, crashes included, discovery never reports a lost store, and reports a
   corrupt or replaced one exactly when the recorded store carried another activation's
   binding before, or the record is too long for its reader.
   */
  lemma CrashConsistentDiscovery(c: Config, s: State, trace: seq<Step>, t: State, side: Side)
    requires c.Valid() && Init(s) && Reaches(c, s, trace, t)
    ensures !Discover(c, t, side).Lost?
    ensures Discover(c, t, side).NeverActivated? <==> t.At(side).prepare.visible.None?
    ensures Discover(c, t, side).CorruptOrReplaced? <==>
              t.At(side).prepare.visible.Some? && !Resumable(t, t.At(side).prepare.visible.value)
    ensures Discover(c, t, side).Activated? ==> t.At(side).active.visible.Some?
  {
    InitInv(c, s);
    RunInv(c, s, trace, t);
    DiscoverVerdict(c, t, side);
  }

  /** Durable active implies durable prepare and binding, which imply a durable claim naming the anchor. */
  lemma DurabilityChain(c: Config, s: State, trace: seq<Step>, t: State, side: Side)
    requires c.Valid() && Init(s) && Reaches(c, s, trace, t)
    ensures t.At(side).active.durable.Some? ==>
              var r := t.At(side).active.durable.value;
              DurablePrepare(t, side, r) && DurableBinding(t, r)
    ensures t.At(side).prepare.durable.Some? ==>
              && t.At(side).claim.durable.Some?
              && Names(c, t.At(side).claim.durable.value, side)
              && t.At(side).claim.durable.value.selectionId == t.At(side).prepare.durable.value.activationId
    ensures forall q :: q in t.stores && t.stores[q].inherited == None && t.stores[q].binding.visible.Some? ==>
              PreparedBy(t, t.stores[q].binding.visible.value)
  {
    InitInv(c, s);
    RunInv(c, s, trace, t);
    forall q | q in t.stores && t.stores[q].inherited == None && t.stores[q].binding.visible.Some?
      ensures PreparedBy(t, t.stores[q].binding.visible.value)
    {
      assert StoreOk(t, q);
    }
  }
}
