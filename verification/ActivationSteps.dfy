/** Every step of the activation protocol keeps the invariant. */
module ActivationSteps {
  import opened Wrappers
  import opened RecordCodec
  import opened Activation
  import opened ActivationInvariant

  // ----- environment -------------------------------------------------------------------

  /** Steps that leave every process where it is and every claim and prepare in place. */
  lemma QuietInv(c: Config, s: State, s': State)
    requires Inv(c, s) && DiskOk(c, s')
    requires s'.procs == s.procs && s'.stores == s.stores
    requires SameRecords(s.system, s'.system) && SameRecords(s.selfManaged, s'.selfManaged)
    requires s'.system.lock == s.system.lock && s'.selfManaged.lock == s.selfManaged.lock
    ensures Inv(c, s')
  {
    forall q | q in s.procs
      ensures ProcOk(c, s', s.procs[q])
    {
      ProcFrame(c, s, s', s.procs[q]);
    }
  }

  lemma ProvisionInv(c: Config, s: State, side: Side)
    requires Inv(c, s)
    ensures Inv(c, s.With(side, s.At(side).(provisioned := true)))
  {
    QuietInv(c, s, s.With(side, s.At(side).(provisioned := true)));
  }

  lemma LoseActiveInv(c: Config, s: State, side: Side)
    requires Inv(c, s)
    ensures Inv(c, s.With(side, s.At(side).(active := Slot(None, None))))
  {
    QuietInv(c, s, s.With(side, s.At(side).(active := Slot(None, None))));
  }

  lemma CrashInv(c: Config, s: State, system: Keep, selfManaged: Keep, stores: set<Bytes>)
    requires Inv(c, s)
    ensures Inv(c, CrashedState(s, system, selfManaged, stores))
  {
    DiskCrash(c, s, system, selfManaged, stores);
  }

  lemma EndedInv(c: Config, s: State, pid: Pid)
    requires Inv(c, s) && pid in s.procs
    ensures Inv(c, s.Ended(pid))
  {
    var s' := s.Ended(pid);
    EndedDisk(c, s, pid);
    assert ProcsOk(c, s') by { OthersKeep(c, s, s', pid); }
    EndedLocks(s, pid);
    EndedGlobal(s, pid);
  }

  lemma EndedDisk(c: Config, s: State, pid: Pid)
    requires DiskOk(c, s) && LocksOk(s)
    ensures DiskOk(c, s.Ended(pid))
  {
  }

  lemma EndedLocks(s: State, pid: Pid)
    requires LocksOk(s)
    ensures LocksOk(s.Ended(pid))
  {
  }

  lemma EndedGlobal(s: State, pid: Pid)
    requires GlobalOk(s)
    ensures GlobalOk(s.Ended(pid))
  {
  }

  // ----- opening anchors ---------------------------------------------------------------------

  lemma OpenedDisk(c: Config, s: State, side: Side, pid: Pid)
    requires DiskOk(c, s)
    ensures DiskOk(c, Opened(c, s, side, pid))
    ensures StoresGrow(s.stores, Opened(c, s, side, pid).stores)
    ensures StoresSettle(s.stores, Opened(c, s, side, pid).stores)
  {
    DiskSync(c, s, side);
    var synced := AnchorSynced(s, side);
    if s.At(side).provisioned {
      var locked := s.With(side, s.At(side).Synced().(lock := Some(pid)));
      assert DiskOk(c, locked) by { LockedDisk(c, synced, side, pid); }
      match RecordedIn(c, side, s.At(side))
      case Record(_, r) => DiskStoreSync(c, locked, r.storeLocator);
      case _ =>
    }
  }

  lemma LockedDisk(c: Config, s: State, side: Side, pid: Pid)
    requires DiskOk(c, s) && s.At(side).provisioned
    ensures DiskOk(c, s.With(side, s.At(side).(lock := Some(pid))))
  {
  }

  /** Discovery tells apart exactly the anchors with and without a prepare record. */
  lemma DiscoverKind(c: Config, s: State, side: Side)
    requires AnchorOk(c, s, side)
    ensures Discover(c, s, side).NeverActivated? <==> s.At(side).prepare.visible.None?
    ensures Discover(c, s, side).Activated? ==>
              s.At(side).prepare.visible.Some?
              && s.At(side).prepare.visible.value.storeLocator == Discover(c, s, side).store
  {
  }

  lemma OpenedAnchors(c: Config, s: State, side: Side, pid: Pid)
    ensures Opened(c, s, side, pid).At(side.Other()) == s.At(side.Other())
    ensures Opened(c, s, side, pid).procs == s.procs
    ensures Opened(c, s, side, pid).At(side) ==
              if s.At(side).provisioned then s.At(side).Synced().(lock := Some(pid)) else s.At(side)
  {
  }

  /** The view read under the lock is the durable truth. */
  lemma OpenedView(c: Config, s: State, side: Side, pid: Pid)
    requires DiskOk(c, s)
    ensures var s' := Opened(c, s, side, pid); ViewOk(s'.At(side), ViewOf(c, s', side))
  {
    OpenedDisk(c, s, side, pid);
    OpenedAnchors(c, s, side, pid);
    DiscoverKind(c, Opened(c, s, side, pid), side);
  }

  lemma NowDisk(c: Config, s: State, pid: Pid, p: Proc)
    requires DiskOk(c, s)
    ensures DiskOk(c, s.Now(pid, p))
  {
  }

  /** Opening an anchor and recording what was seen. */
  lemma OpenInv(c: Config, s: State, side: Side, pid: Pid, p: Proc)
    requires c.Valid() && DiskOk(c, s) && LocksOk(s) && ProcsOk(c, s)
    requires CanOpen(s, side)
    requires p.Holds(side) == s.At(side).provisioned
    requires p.Holds(side.Other()) == (pid in s.procs && s.procs[pid].Holds(side.Other()))
    requires ProcOk(c, Opened(c, s, side, pid).Now(pid, p), p)
    requires GlobalOk(Opened(c, s, side, pid).Now(pid, p))
    ensures Inv(c, Opened(c, s, side, pid).Now(pid, p))
  {
    var s1 := Opened(c, s, side, pid);
    var s' := s1.Now(pid, p);
    OpenedDisk(c, s, side, pid);
    NowDisk(c, s1, pid, p);
    OpenedAnchors(c, s, side, pid);
    assert LocksOk(s') by { LocksNow(s, s', pid, p); }
    assert ProcsOk(c, s') by { ProcsNow(c, s, s', pid, p); }
  }

  lemma OpenSystemInv(c: Config, s: State, pid: Pid)
    requires Inv(c, s) && pid !in s.procs && CanOpen(s, System)
    ensures var s' := Opened(c, s, System, pid);
            Inv(c, s'.Now(pid, SawSystem(ViewOf(c, s', System))))
  {
    var s1 := Opened(c, s, System, pid);
    var p := SawSystem(ViewOf(c, s1, System));
    OpenedAnchors(c, s, System, pid);
    OpenedView(c, s, System, pid);
    GlobalNow(s, s1.Now(pid, p), pid, p);
    OpenInv(c, s, System, pid, p);
  }

  lemma OpenSelfInv(c: Config, s: State, pid: Pid)
    requires Inv(c, s) && pid in s.procs && s.procs[pid].SawSystem? && CanOpen(s, SelfManaged)
    ensures var s' := Opened(c, s, SelfManaged, pid);
            Inv(c, s'.Now(pid, SawBoth(s.procs[pid].system, ViewOf(c, s', SelfManaged))))
  {
    var s1 := Opened(c, s, SelfManaged, pid);
    var p := SawBoth(s.procs[pid].system, ViewOf(c, s1, SelfManaged));
    OpenedAnchors(c, s, SelfManaged, pid);
    OpenedView(c, s, SelfManaged, pid);
    assert ProcOk(c, s, s.procs[pid]);
    if s.selfManaged.provisioned {
      GlobalNow(s, s1.Now(pid, p), pid, p);
    } else {
      NobodyPastRecheck(c, s);
      BlindArrival(s, s1.Now(pid, p), pid, p);
    }
    OpenInv(c, s, SelfManaged, pid, p);
  }

  /** Passing the re-check required the self-managed anchor to exist. */
  lemma NobodyPastRecheck(c: Config, s: State)
    requires ProcsOk(c, s) && LocksOk(s) && !s.selfManaged.provisioned
    ensures forall q :: q in s.procs ==> !PastRecheck(s.procs[q])
  {
    forall q | q in s.procs
      ensures !PastRecheck(s.procs[q])
    {
      assert ProcOk(c, s, s.procs[q]);
    }
  }

  lemma BlindArrival(s: State, s': State, pid: Pid, p: Proc)
    requires GlobalOk(s) && SameClaims(s, s') && s'.procs == s.procs[pid := p]
    requires p.SawBoth? && s.selfManaged.claim.visible == None
    requires forall q :: q in s.procs ==> !PastRecheck(s.procs[q])
    ensures GlobalOk(s')
  {
  }

  // ----- explicit initialization -----------------------------------------------------------------

  lemma InitCheckInv(c: Config, s: State, pid: Pid)
    requires Inv(c, s) && pid !in s.procs
    ensures Inv(c, s.Now(pid, InitAdmitted))
  {
    var s' := s.Now(pid, InitAdmitted);
    NowDisk(c, s, pid, InitAdmitted);
    assert LocksOk(s') by { LocksNow(s, s', pid, InitAdmitted); }
    assert ProcsOk(c, s') by { ProcsNow(c, s, s', pid, InitAdmitted); }
    assert GlobalOk(s') by { GlobalNow(s, s', pid, InitAdmitted); }
  }

  lemma InitProvisionInv(c: Config, s: State, pid: Pid)
    requires Inv(c, s) && pid in s.procs && s.procs[pid].InitAdmitted?
    ensures Inv(c, s.With(SelfManaged, s.selfManaged.(provisioned := true)).Now(pid, InitProvisioned))
  {
    ProvisionInv(c, s, SelfManaged);
    var s1 := s.With(SelfManaged, s.selfManaged.(provisioned := true));
    var s' := s1.Now(pid, InitProvisioned);
    GlobalNow(s1, s', pid, InitProvisioned);
    NowInv(c, s1, pid, InitProvisioned);
  }

  lemma InitRecheckInv(c: Config, s: State, pid: Pid)
    requires Inv(c, s) && pid in s.procs && s.procs[pid].InitProvisioned? && !s.system.provisioned
    ensures Inv(c, s.Now(pid, InitRechecked))
  {
    var s' := s.Now(pid, InitRechecked);
    NobodyBlind(s);
    RecheckArrival(s, s', pid);
    assert ProcOk(c, s, s.procs[pid]);
    NowInv(c, s, pid, InitRechecked);
  }

  /** Holding the system anchor required it to exist. */
  lemma NobodyBlind(s: State)
    requires LocksOk(s) && !s.system.provisioned
    ensures forall q :: q in s.procs ==> !BlindToSelf(s.procs[q])
  {
    forall q | q in s.procs
      ensures !BlindToSelf(s.procs[q])
    {
      assert !s.procs[q].Holds(System);
    }
  }

  lemma RecheckArrival(s: State, s': State, pid: Pid)
    requires GlobalOk(s) && SameClaims(s, s') && s'.procs == s.procs[pid := InitRechecked]
    requires s.system.claim.visible == None
    requires forall q :: q in s.procs ==> !BlindToSelf(s.procs[q])
    ensures GlobalOk(s')
  {
  }

  lemma InitOpenInv(c: Config, s: State, pid: Pid)
    requires Inv(c, s) && pid in s.procs && s.procs[pid].InitRechecked?
    requires s.selfManaged.provisioned && s.selfManaged.lock == None
    ensures var s' := Opened(c, s, SelfManaged, pid);
            Inv(c, s'.Now(pid, InitOpened(ViewOf(c, s', SelfManaged))))
  {
    var s1 := Opened(c, s, SelfManaged, pid);
    var p := InitOpened(ViewOf(c, s1, SelfManaged));
    OpenedAnchors(c, s, SelfManaged, pid);
    OpenedView(c, s, SelfManaged, pid);
    GlobalNow(s, s1.Now(pid, p), pid, p);
    OpenInv(c, s, SelfManaged, pid, p);
  }

  // ----- starting a publication job --------------------------------------------------------------

  /** A new job whose claim fits the anchors and everybody else's job. */
  lemma JobArrival(s: State, s': State, pid: Pid, job: Job, pc: Pc)
    requires GlobalOk(s) && SameClaims(s, s') && s'.procs == s.procs[pid := Working(job, pc)]
    requires pid in s.procs
    requires BlindToSelf(Working(job, pc)) ==> BlindToSelf(s.procs[pid])
    requires job.initializer ==> PastRecheck(s.procs[pid])
    requires JobFits(s, job)
    requires forall q :: q in s.procs && s.procs[q].Working? && q != pid ==> s.procs[q].job.claim == job.claim
    ensures GlobalOk(s')
  {
  }

  /** A claim visible anywhere is the claim of every job. */
  lemma VisibleClaimFits(s: State, side: Side, e: AuthorityRecord)
    requires GlobalOk(s) && Agreement(s) && s.At(side).claim.visible == Some(e)
    ensures s.system.claim.visible.Some? ==> s.system.claim.visible.value == e
    ensures s.selfManaged.claim.visible.Some? ==> s.selfManaged.claim.visible.value == e
    ensures forall q :: q in s.procs && s.procs[q].Working? ==> s.procs[q].job.claim == e
  {
    forall q | q in s.procs && s.procs[q].Working?
      ensures s.procs[q].job.claim == e
    {
      assert JobFits(s, s.procs[q].job);
    }
  }

  /** A process that holds the system anchor and sees no claim anywhere is the only claimant. */
  lemma NoOtherJobForSystem(c: Config, s: State, pid: Pid)
    requires Inv(c, s) && pid in s.procs && s.procs[pid].SawBoth? && s.procs[pid].system.Present?
    requires s.procs[pid].selfManaged.Claim().None?
    ensures s.selfManaged.claim.visible == None
    ensures forall q :: q in s.procs && q != pid ==> !s.procs[q].Working?
  {
    var p := s.procs[pid];
    assert ProcOk(c, s, p);
    assert p.Holds(System);
    assert p.selfManaged.Absent? ==> BlindToSelf(p);
    forall q | q in s.procs && q != pid
      ensures !s.procs[q].Working?
    {
      var other := s.procs[q];
      assert ProcOk(c, s, other);
      assert other.Working? ==> other.Holds(System) || other.Holds(SelfManaged);
    }
  }

  /** An initializer that sees no claim in its own anchor is the only claimant. */
  lemma NoOtherJobForSelf(c: Config, s: State, pid: Pid)
    requires Inv(c, s) && pid in s.procs && s.procs[pid].InitOpened? && s.procs[pid].view.Claim().None?
    ensures s.system.claim.visible == None && s.selfManaged.claim.visible == None
    ensures forall q :: q in s.procs && q != pid ==> !s.procs[q].Working?
  {
    var p := s.procs[pid];
    assert ProcOk(c, s, p) && PastRecheck(p) && p.Holds(SelfManaged);
    forall q | q in s.procs && q != pid
      ensures !s.procs[q].Working?
    {
      var other := s.procs[q];
      assert other.Working? ==> other.Holds(SelfManaged) || BlindToSelf(other);
    }
  }

  /** A process moves on without touching the disk or its locks. */
  lemma NowInv(c: Config, s: State, pid: Pid, p: Proc)
    requires c.Valid() && DiskOk(c, s) && LocksOk(s) && ProcsOk(c, s) && pid in s.procs
    requires p.Holds(System) == s.procs[pid].Holds(System)
    requires p.Holds(SelfManaged) == s.procs[pid].Holds(SelfManaged)
    requires ProcOk(c, s.Now(pid, p), p)
    requires GlobalOk(s.Now(pid, p))
    ensures Inv(c, s.Now(pid, p))
  {
    var s' := s.Now(pid, p);
    NowDisk(c, s, pid, p);
    assert LocksOk(s') by { LocksNow(s, s', pid, p); }
    assert ProcsOk(c, s') by { ProcsNow(c, s, s', pid, p); }
  }

  lemma JobNow(c: Config, s: State, pid: Pid, p: Proc, job: Job, pc: Pc)
    requires JobOk(c, s, job) && PcOk(c, s, job, pc)
    ensures ProcOk(c, s.Now(pid, p), Working(job, pc))
  {
  }

  lemma StartJob(c: Config, s: State, pid: Pid, job: Job, pc: Pc)
    requires Inv(c, s) && pid in s.procs
    requires job.Holds(System) == s.procs[pid].Holds(System)
    requires job.Holds(SelfManaged) == s.procs[pid].Holds(SelfManaged)
    requires JobOk(c, s, job) && PcOk(c, s, job, pc)
    requires BlindToSelf(Working(job, pc)) ==> BlindToSelf(s.procs[pid])
    requires job.initializer ==> PastRecheck(s.procs[pid])
    requires JobFits(s, job)
    requires forall q :: q in s.procs && s.procs[q].Working? && q != pid ==> s.procs[q].job.claim == job.claim
    ensures Inv(c, s.Now(pid, Working(job, pc)))
  {
    JobNow(c, s, pid, Working(job, pc), job, pc);
    JobArrival(s, s.Now(pid, Working(job, pc)), pid, job, pc);
    NowInv(c, s, pid, Working(job, pc));
  }

  lemma InitClaimInv(c: Config, s: State, pid: Pid, freshId: Bytes)
    requires Inv(c, s) && pid in s.procs && s.procs[pid].InitOpened? && s.procs[pid].view.Present?
    ensures Inv(c, InitClaimed(c, s, pid, freshId))
  {
    var p := s.procs[pid];
    var e := ExpectedClaim(c, s, SelfManaged, p.view.claim, None, freshId);
    EndedInv(c, s, pid);
    assert ProcOk(c, s, p);
    if InitClaimed(c, s, pid, freshId) != s.Ended(pid) {
      var job := Job(SelfManaged, false, e.value, ClaimOnly(ClaimDeclared), true);
      assert InitClaimed(c, s, pid, freshId) == s.Now(pid, Working(job, PublishClaim));
      if p.view.claim.Some? {
        VisibleClaimFits(s, SelfManaged, e.value);
      } else {
        NoOtherJobForSelf(c, s, pid);
      }
      StartJob(c, s, pid, job, PublishClaim);
    }
  }

  /** Without a claim in sight, only the system root can be chosen, and no prepare record exists. */
  lemma UnclaimedChoice(c: Config, s: State, v: View, w: View, desired: Bytes, supported: bool, freshId: Bytes)
    requires AnchorOk(c, s, System) && AnchorOk(c, s, SelfManaged) && ViewOk(s.system, v) && ViewOk(s.selfManaged, w)
    requires v.Claim().None? && w.Claim().None?
    requires Decide(c, s, v, w, desired, supported, freshId).Start?
    ensures var job := Decide(c, s, v, w, desired, supported, freshId).job;
            && job.selected == System && v.Present? && JobOk(c, s, job) && s.system.claim.visible == None
            && job.peer == w.Present? && !job.initializer
  {
  }

  /** With a claim in sight, the job carries exactly that claim for the root it names. */
  lemma ClaimedJob(c: Config, s: State, v: View, w: View, desired: Bytes, supported: bool, freshId: Bytes, k: AuthorityRecord)
    requires ViewOk(s.system, v) && ViewOk(s.selfManaged, w)
    requires v.Claim() == Some(k) || (v.Claim() == None && w.Claim() == Some(k))
    requires Decide(c, s, v, w, desired, supported, freshId).Start?
    ensures var job := Decide(c, s, v, w, desired, supported, freshId).job;
            && job.claim == k && JobOk(c, s, job) && !job.initializer
            && job.peer == (if job.selected == System then w else v).Present?
            && (if job.selected == System then v else w).Present?
  {
  }

  /** A pair of anchors is leased without publishing only while neither view shows a claim. */
  lemma LeaseUnclaimed(c: Config, s: State, v: View, w: View, desired: Bytes, supported: bool, freshId: Bytes)
    requires ViewOk(s.system, v) && ViewOk(s.selfManaged, w)
    requires Decide(c, s, v, w, desired, supported, freshId).Lease?
    ensures var d := Decide(c, s, v, w, desired, supported, freshId);
            && UnclaimedLease(s, d.side, d.peer) && v.Present? && d.peer == w.Present?
            && v.Claim().None? && w.Claim().None?
  {
  }

  lemma SelectJobInv(c: Config, s: State, pid: Pid, v: View, w: View, desired: Bytes, supported: bool, freshId: Bytes)
    requires Inv(c, s) && pid in s.procs && s.procs[pid] == SawBoth(v, w)
    requires Decide(c, s, v, w, desired, supported, freshId).Start?
    ensures var job := Decide(c, s, v, w, desired, supported, freshId).job;
            Inv(c, s.Now(pid, Working(job, FirstPc(job.peer))))
  {
    assert ProcOk(c, s, s.procs[pid]);
    var job := Decide(c, s, v, w, desired, supported, freshId).job;
    if v.Claim().Some? {
      ClaimedJob(c, s, v, w, desired, supported, freshId, v.Claim().value);
      VisibleClaimFits(s, System, v.Claim().value);
    } else if w.Claim().Some? {
      ClaimedJob(c, s, v, w, desired, supported, freshId, w.Claim().value);
      VisibleClaimFits(s, SelfManaged, w.Claim().value);
    } else {
      UnclaimedChoice(c, s, v, w, desired, supported, freshId);
      NoOtherJobForSystem(c, s, pid);
    }
    StartJob(c, s, pid, job, FirstPc(job.peer));
  }

  lemma SelectLeaseInv(c: Config, s: State, pid: Pid, v: View, w: View, side: Side, peer: bool)
    requires Inv(c, s) && pid in s.procs && s.procs[pid] == SawBoth(v, w)
    requires (if side == System then v else w).Present? && peer == (if side == System then w else v).Present?
    requires UnclaimedLease(s, side, peer)
    ensures Inv(c, s.Now(pid, Done(side, peer, UnsupportedLease)))
  {
    var d := Done(side, peer, UnsupportedLease);
    GlobalNow(s, s.Now(pid, d), pid, d);
    NowInv(c, s, pid, d);
  }

  lemma SelectInv(c: Config, s: State, pid: Pid, desired: Bytes, supported: bool, freshId: Bytes)
    requires Inv(c, s) && pid in s.procs && s.procs[pid].SawBoth?
    ensures Inv(c, Selected(c, s, pid, desired, supported, freshId))
  {
    var v, w := s.procs[pid].system, s.procs[pid].selfManaged;
    match Decide(c, s, v, w, desired, supported, freshId)
    case Stop => EndedInv(c, s, pid);
    case Lease(side, peer) =>
      assert ProcOk(c, s, s.procs[pid]);
      LeaseUnclaimed(c, s, v, w, desired, supported, freshId);
      SelectLeaseInv(c, s, pid, v, w, side, peer);
    case Start(job) => SelectJobInv(c, s, pid, v, w, desired, supported, freshId);
  }
}
