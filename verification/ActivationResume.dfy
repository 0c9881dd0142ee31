/** Re-running an interrupted activation completes it on the store it recorded. */
module ActivationResume {
  import opened Wrappers
  import opened RecordCodec
  import opened Activation
  import opened ActivationInvariant
  import opened ActivationSteps
  import opened ActivationJobs
  import opened ActivationTheorems

  /** `side` durably recorded `p`, whose store is still usable for it. */
  predicate Interrupted(s: State, side: Side, p: PrepareRecord) {
    DurablePrepare(s, side, p) && Resumable(s, p)
  }

  predicate GoalFits(goal: Goal, p: PrepareRecord) {
    goal.Activate? || goal == ClaimOnly(ActivatedStore(p.storeLocator))
  }

  predicate PcFits(pc: Pc, p: PrepareRecord) {
    match pc
    case PublishPrepare(_) => false
    case SyncPrepare(r) => r == p
    case PublishBinding(r) => r == p
    case SyncBinding(r) => r == p
    case PublishActive(r) => r == p
    case SyncActive(r) => r == p
    case Validate(r) => r == p
    case _ => true
  }

  predicate ActiveHere(s: State, side: Side, p: PrepareRecord) {
    s.At(side).active.visible == Some(p)
  }

  /** `pid` alone is re-publishing the recorded activation. */
  predicate OnTrack(s: State, pid: Pid, side: Side, p: PrepareRecord) {
    && s.procs.Keys == {pid}
    && s.procs[pid].Working?
    && s.procs[pid].job.selected == side
    && GoalFits(s.procs[pid].job.goal, p)
    && PcFits(s.procs[pid].pc, p)
    && (s.procs[pid].job.goal.ClaimOnly? || s.procs[pid].pc.SyncActive? || s.procs[pid].pc.Validate? ==>
          ActiveHere(s, side, p))
  }

  predicate Finished(s: State, pid: Pid, side: Side, p: PrepareRecord) {
    && s.procs.Keys == {pid}
    && s.procs[pid].Done?
    && s.procs[pid].selected == side
    && s.procs[pid].outcome == ActivatedStore(p.storeLocator)
    && ActiveHere(s, side, p)
  }

  function Rank(pc: Pc): (r: nat)
    ensures r <= 11
  {
    match pc
    case PublishWitness => 11
    case SyncWitness => 10
    case PublishClaim => 9
    case SyncClaim => 8
    case ResolvePrepare => 7
    case PublishPrepare(_) => 6
    case SyncPrepare(_) => 5
    case PublishBinding(_) => 4
    case SyncBinding(_) => 3
    case PublishActive(_) => 2
    case SyncActive(_) => 1
    case Validate(_) => 0
  }

  /** One action of the resuming process: done, or closer. */
  predicate Advances(s: State, t: State, pid: Pid, side: Side, p: PrepareRecord)
    requires OnTrack(s, pid, side, p)
  {
    && Interrupted(t, side, p)
    && (Finished(t, pid, side, p) || (OnTrack(t, pid, side, p) && Rank(t.procs[pid].pc) < Rank(s.procs[pid].pc)))
  }

  lemma ClaimAdvances(c: Config, s: State, pid: Pid, side: Side, p: PrepareRecord, at: Side, next: Pc)
    requires OnTrack(s, pid, side, p) && Interrupted(s, side, p) && JobFits(s, s.procs[pid].job)
    requires next.SyncWitness? || next.SyncClaim?
    requires Rank(next) < Rank(s.procs[pid].pc)
    ensures var job := s.procs[pid].job;
            Advances(s, Continue(PublishedClaim(s, at, job.claim), s, pid, job, next), pid, side, p)
  {
  }

  lemma SyncAdvances(s: State, pid: Pid, side: Side, p: PrepareRecord, at: Side, next: Proc)
    requires OnTrack(s, pid, side, p) && Interrupted(s, side, p) && s.At(side).prepare.Ok()
    requires
      || (next.Working? && next.job == s.procs[pid].job && PcFits(next.pc, p) && Rank(next.pc) < Rank(s.procs[pid].pc)
          && (next.pc.SyncActive? || next.pc.Validate? ==> ActiveHere(s, side, p)))
      || (next.Done? && next.selected == side && next.outcome == ActivatedStore(p.storeLocator) && ActiveHere(s, side, p))
    ensures Advances(s, AnchorSynced(s, at).Now(pid, next), pid, side, p)
  {
  }

  lemma ResolveAdvances(c: Config, s: State, pid: Pid, side: Side, p: PrepareRecord, created: Store)
    requires c.Valid() && DiskOk(c, s)
    requires OnTrack(s, pid, side, p) && Interrupted(s, side, p)
    requires s.procs[pid].pc.ResolvePrepare? && s.procs[pid].job.goal.Activate?
    ensures Advances(s, Resolved(c, s, pid, s.procs[pid].job, created), pid, side, p)
  {
    BindingOfPrepared(c, s, side, p);
    assert StoreOk(s, p.storeLocator);
  }

  lemma BindAdvances(c: Config, s: State, pid: Pid, side: Side, p: PrepareRecord)
    requires c.Valid() && DiskOk(c, s)
    requires OnTrack(s, pid, side, p) && Interrupted(s, side, p) && s.procs[pid].pc.PublishBinding?
    ensures Advances(s, Bound(s, pid, s.procs[pid].job, p), pid, side, p)
  {
    BindingOfPrepared(c, s, side, p);
    assert StoreOk(s, p.storeLocator);
  }

  lemma ActiveAdvances(c: Config, s: State, pid: Pid, side: Side, p: PrepareRecord)
    requires c.Valid() && DiskOk(c, s)
    requires OnTrack(s, pid, side, p) && Interrupted(s, side, p) && s.procs[pid].pc.PublishActive?
    ensures var job := s.procs[pid].job;
            Advances(s, Continue(PublishedActive(s, side, p), s, pid, job, SyncActive(p)), pid, side, p)
  {
  }

  lemma ValidateAdvances(c: Config, s: State, pid: Pid, side: Side, p: PrepareRecord)
    requires c.Valid() && DiskOk(c, s) && DurableBinding(s, p)
    requires OnTrack(s, pid, side, p) && Interrupted(s, side, p) && ActiveHere(s, side, p)
    ensures Advances(s, Validated(c, s, pid, s.procs[pid].job, p), pid, side, p)
  {
    BindingOfPrepared(c, s, side, p);
    assert StoreOk(s, p.storeLocator);
  }

  lemma SyncBindingAdvances(s: State, pid: Pid, side: Side, p: PrepareRecord)
    requires OnTrack(s, pid, side, p) && Interrupted(s, side, p) && s.procs[pid].pc.SyncBinding?
    ensures Advances(s, s.StoreSynced(p.storeLocator).Now(pid, Working(s.procs[pid].job, PublishActive(p))), pid, side, p)
  {
  }

  lemma TrackStep(c: Config, s: State, pid: Pid, side: Side, p: PrepareRecord, created: Store)
    requires c.Valid() && DiskOk(c, s) && OnTrack(s, pid, side, p) && Interrupted(s, side, p)
    requires JobFits(s, s.procs[pid].job) && PcOk(c, s, s.procs[pid].job, s.procs[pid].pc)
    requires s.procs[pid].pc.ResolvePrepare? ==> s.procs[pid].job.goal.Activate?
    ensures Advances(s, Worked(c, s, pid, created), pid, side, p)
  {
    var job := s.procs[pid].job;
    match s.procs[pid].pc
    case PublishWitness => ClaimAdvances(c, s, pid, side, p, side.Other(), SyncWitness);
    case SyncWitness => SyncAdvances(s, pid, side, p, side.Other(), Working(job, PublishClaim));
    case PublishClaim => ClaimAdvances(c, s, pid, side, p, side, SyncClaim);
    case SyncClaim =>
      SyncAdvances(s, pid, side, p, side, if job.goal.ClaimOnly? then Done(side, job.peer, job.goal.outcome)
                                          else Working(job, ResolvePrepare));
    case ResolvePrepare => ResolveAdvances(c, s, pid, side, p, created);
    case SyncPrepare(_) => SyncAdvances(s, pid, side, p, side, Working(job, PublishBinding(p)));
    case PublishBinding(_) => BindAdvances(c, s, pid, side, p);
    case SyncBinding(_) => SyncBindingAdvances(s, pid, side, p);
    case PublishActive(_) => ActiveAdvances(c, s, pid, side, p);
    case SyncActive(_) => SyncAdvances(s, pid, side, p, side, Working(job, Validate(p)));
    case Validate(_) => ValidateAdvances(c, s, pid, side, p);
  }

  lemma WorkerFacts(c: Config, s: State, pid: Pid)
    requires Inv(c, s) && pid in s.procs && s.procs[pid].Working?
    ensures c.Valid() && DiskOk(c, s)
    ensures JobFits(s, s.procs[pid].job) && PcOk(c, s, s.procs[pid].job, s.procs[pid].pc)
    ensures s.procs[pid].pc.ResolvePrepare? ==> s.procs[pid].job.goal.Activate?
  {
    assert ProcOk(c, s, s.procs[pid]);
  }

  /** `n` consecutive actions of one process. */
  function Works(pid: Pid, created: Store, n: nat): seq<Step> {
    if n == 0 then [] else [Work(pid, created)] + Works(pid, created, n - 1)
  }

  /** Nothing but the resuming process, still on its way, under the invariant. */
  predicate Resuming(c: Config, s: State, pid: Pid, side: Side, p: PrepareRecord) {
    Inv(c, s) && OnTrack(s, pid, side, p) && Interrupted(s, side, p)
  }

  lemma {:induction false} Drive(c: Config, s: State, pid: Pid, side: Side, p: PrepareRecord, created: Store)
    returns (n: nat, t: State)
    requires Resuming(c, s, pid, side, p) && FreshStore(created)
    ensures n <= Rank(s.procs[pid].pc) + 1 && Reaches(c, s, Works(pid, created, n), t)
    ensures Finished(t, pid, side, p) && Inv(c, t) && Interrupted(t, side, p)
    decreases Rank(s.procs[pid].pc)
  {
    var s1, done := DriveOnce(c, s, pid, side, p, created);
    if done {
      n, t := 1, s1;
    } else {
      n, t := Drive(c, s1, pid, side, p, created);
      WorksJoin(c, s, pid, created, s1, n, t);
      n := n + 1;
    }
  }

  lemma DriveOnce(c: Config, s: State, pid: Pid, side: Side, p: PrepareRecord, created: Store)
    returns (t: State, done: bool)
    requires Resuming(c, s, pid, side, p) && FreshStore(created)
    ensures Reaches(c, s, Works(pid, created, 1), t)
    ensures done ==> Finished(t, pid, side, p) && Inv(c, t) && Interrupted(t, side, p)
    ensures !done ==> Resuming(c, t, pid, side, p) && Rank(t.procs[pid].pc) < Rank(s.procs[pid].pc)
  {
    WorkerFacts(c, s, pid);
    TrackStep(c, s, pid, side, p, created);
    WorkInv(c, s, pid, created);
    t := Worked(c, s, pid, created);
    done := Finished(t, pid, side, p);
    WorksOnce(c, s, pid, created);
  }

  lemma WorksOnce(c: Config, s: State, pid: Pid, created: Store)
    requires Enabled(s, Work(pid, created))
    ensures Reaches(c, s, Works(pid, created, 1), Worked(c, s, pid, created))
  {
    assert Works(pid, created, 0) == [];
    RunStep(c, s, Work(pid, created), [], Worked(c, s, pid, created));
    assert Works(pid, created, 1) == [Work(pid, created)] + [];
  }

  lemma WorksJoin(c: Config, s: State, pid: Pid, created: Store, m: State, n: nat, t: State)
    requires Reaches(c, s, Works(pid, created, 1), m) && Reaches(c, m, Works(pid, created, n), t)
    ensures Reaches(c, s, Works(pid, created, n + 1), t)
  {
    assert Works(pid, created, 0) == [];
    RunAppend(c, s, Works(pid, created, 1), m, Works(pid, created, n), t);
    assert Works(pid, created, n + 1) == Works(pid, created, 1) + Works(pid, created, n);
  }

  // ----- the selector reaches the job --------------------------------------------------------

  /** Both anchors were opened, so everything in them is durable. */
  predicate Settled(s: State) {
    && s.system.claim.Settled() && s.system.prepare.Settled()
    && s.selfManaged.claim.Settled() && s.selfManaged.prepare.Settled()
  }

  /** Opening keeps what a later reader sees and what a refusal depends on. */
  predicate SameSight(s: State, t: State) {
    && s.system.provisioned == t.system.provisioned && s.selfManaged.provisioned == t.selfManaged.provisioned
    && s.system.claim.visible == t.system.claim.visible && s.selfManaged.claim.visible == t.selfManaged.claim.visible
    && s.system.prepare.visible == t.system.prepare.visible
    && s.selfManaged.prepare.visible == t.selfManaged.prepare.visible
    && s.system.active.visible == t.system.active.visible && s.selfManaged.active.visible == t.selfManaged.active.visible
    && StoresLook(s.stores, t.stores)
  }

  predicate StoresLook(x: map<Bytes, Store>, y: map<Bytes, Store>) {
    && x.Keys == y.Keys
    && forall q :: q in x ==> y[q] == x[q].(binding := y[q].binding) && y[q].binding.visible == x[q].binding.visible
  }

  lemma OpenedSight(c: Config, s: State, side: Side, pid: Pid)
    ensures SameSight(s, Opened(c, s, side, pid))
  {
  }

  lemma SightView(c: Config, s: State, t: State, side: Side)
    requires SameSight(s, t)
    ensures ViewOf(c, t, side) == ViewOf(c, s, side)
  {
  }

  /** Nothing runs: both anchors open, and the process has seen them as they are. */
  lemma SeesBoth(c: Config, s: State, pid: Pid) returns (t: State)
    requires Inv(c, s) && s.procs == map[]
    ensures Inv(c, t) && Settled(t) && SameSight(s, t)
    ensures Reaches(c, s, [OpenSystem(pid)] + [OpenSelf(pid)], t)
    ensures t.procs == map[pid := SawBoth(ViewOf(c, t, System), ViewOf(c, t, SelfManaged))]
  {
    var s1 := SeesSystem(c, s, pid);
    t := SeesSelf(c, s1, pid);
    SightView(c, s1, t, System);
    RunAppend(c, s, [OpenSystem(pid)], s1, [OpenSelf(pid)], t);
  }

  lemma SeesSystem(c: Config, s: State, pid: Pid) returns (t: State)
    requires Inv(c, s) && s.procs == map[]
    ensures Inv(c, t) && SameSight(s, t) && Reaches(c, s, [OpenSystem(pid)], t)
    ensures t.system.claim.Settled() && t.system.prepare.Settled() && t.selfManaged.lock == None
    ensures t.procs == map[pid := SawSystem(ViewOf(c, t, System))]
  {
    t := Apply(c, s, OpenSystem(pid));
    StepInv(c, s, OpenSystem(pid));
    OpenedAnchors(c, s, System, pid);
    OpenedSight(c, s, System, pid);
    SightView(c, Opened(c, s, System, pid), t, System);
    RunStep(c, s, OpenSystem(pid), [], t);
  }

  lemma SeesSelf(c: Config, s: State, pid: Pid) returns (t: State)
    requires Inv(c, s) && s.selfManaged.lock == None
    requires s.procs == map[pid := SawSystem(ViewOf(c, s, System))]
    ensures Inv(c, t) && SameSight(s, t) && Reaches(c, s, [OpenSelf(pid)], t) && t.system == s.system
    ensures t.selfManaged.claim.Settled() && t.selfManaged.prepare.Settled()
    ensures t.procs == map[pid := SawBoth(ViewOf(c, s, System), ViewOf(c, t, SelfManaged))]
  {
    t := Apply(c, s, OpenSelf(pid));
    StepInv(c, s, OpenSelf(pid));
    OpenedAnchors(c, s, SelfManaged, pid);
    OpenedSight(c, s, SelfManaged, pid);
    SightView(c, Opened(c, s, SelfManaged, pid), t, SelfManaged);
    RunStep(c, s, OpenSelf(pid), [], t);
  }

  /** The view a selector takes of the interrupted anchor. */
  predicate ReadyView(s: State, side: Side, v: View, p: PrepareRecord) {
    v.Present? && (v.kind.Preparing? || (v.kind == Activated(p.storeLocator) && ActiveHere(s, side, p)))
  }

  lemma ReadyViewOf(c: Config, s: State, side: Side, p: PrepareRecord)
    requires c.Valid() && DiskOk(c, s) && Interrupted(s, side, p)
    ensures ReadyView(s, side, ViewOf(c, s, side), p)
  {
    DiscoverVerdict(c, s, side);
  }

  /** The recorded anchor is chosen by its own claim, and nothing refuses it. */
  lemma ResumeChoice(c: Config, s: State, v: View, w: View, side: Side, p: PrepareRecord)
    requires c.Valid() && DiskOk(c, s) && Interrupted(s, side, p)
    requires ViewOk(s.system, v) && ViewOk(s.selfManaged, w)
    requires ReadyView(s, side, if side == System then v else w, p)
    requires s.At(side.Other()).provisioned ==> (if side == System then w else v).Present?
    ensures SelectPair(c, s, v, w) == Chosen(side, s.At(side).claim.visible)
  {
    SingleEvidence(c, s);
  }

  lemma ResumeClaim(c: Config, s: State, side: Side, p: PrepareRecord, peerClaim: Option<AuthorityRecord>, freshId: Bytes)
    requires c.Encodable() && DiskOk(c, s) && Interrupted(s, side, p)
    requires peerClaim == None || peerClaim == s.At(side.Other()).claim.visible
    ensures ExpectedClaim(c, s, side, s.At(side).claim.visible, peerClaim, freshId).Some?
  {
  }

  lemma ResumeDecision(c: Config, s: State, v: View, w: View, side: Side, p: PrepareRecord,
                       desired: Bytes, supported: bool, freshId: Bytes)
    requires c.Valid() && c.Encodable() && DiskOk(c, s) && Interrupted(s, side, p)
    requires ViewOk(s.system, v) && ViewOk(s.selfManaged, w)
    requires ReadyView(s, side, if side == System then v else w, p)
    requires s.At(side.Other()).provisioned ==> (if side == System then w else v).Present?
    ensures var d := Decide(c, s, v, w, desired, supported, freshId);
            && d.Start? && d.job.selected == side && GoalFits(d.job.goal, p)
            && (d.job.goal.ClaimOnly? ==> ActiveHere(s, side, p))
  {
    ResumeChoice(c, s, v, w, side, p);
    ResumeClaim(c, s, side, p, (if side == System then w else v).Claim(), freshId);
  }

  /** Open both anchors, select, then work. */
  function Rerun(pid: Pid, desired: Bytes, supported: bool, freshId: Bytes, created: Store, n: nat): seq<Step> {
    [OpenSystem(pid)] + ([OpenSelf(pid)] + ([Select(pid, desired, supported, freshId)] + Works(pid, created, n)))
  }

  lemma Selects(c: Config, s: State, pid: Pid, side: Side, p: PrepareRecord, desired: Bytes, supported: bool, freshId: Bytes)
    requires c.Valid() && c.Encodable() && DiskOk(c, s) && Interrupted(s, side, p)
    requires s.procs.Keys == {pid} && s.procs[pid].SawBoth? && ProcOk(c, s, s.procs[pid])
    requires s.procs[pid].system.Present? == s.system.provisioned
    requires s.procs[pid].selfManaged.Present? == s.selfManaged.provisioned
    requires ReadyView(s, side, if side == System then s.procs[pid].system else s.procs[pid].selfManaged, p)
    ensures var t := Selected(c, s, pid, desired, supported, freshId);
            OnTrack(t, pid, side, p) && Interrupted(t, side, p)
  {
    ResumeDecision(c, s, s.procs[pid].system, s.procs[pid].selfManaged, side, p, desired, supported, freshId);
  }

  /**
   Once a prepare record is on disk, synced or not, and nothing runs, whatever store a caller
   desires and whether or not `active` was lost, running the selector again reaches the
   store that was recorded, in at most twelve durable actions.
   */
  lemma ResumeCompletes(c: Config, init: State, before: seq<Step>, s: State, side: Side, p: PrepareRecord, pid: Pid,
                        desired: Bytes, supported: bool, freshId: Bytes, created: Store)
    returns (n: nat, t: State)
    requires c.Valid() && c.Encodable() && Init(init) && Reaches(c, init, before, s)
    requires s.procs == map[] && FreshStore(created)
    requires s.At(side).prepare.visible == Some(p) && Resumable(s, p)
    ensures n <= 12
    ensures Reaches(c, s, Rerun(pid, desired, supported, freshId, created, n), t)
    ensures Finished(t, pid, side, p) && Discover(c, t, side) == Activated(p.storeLocator)
  {
    InitInv(c, init);
    RunInv(c, init, before, s);
    n, t := RerunFrom(c, s, side, p, pid, desired, supported, freshId, created);
    DiscoverVerdict(c, t, side);
  }

  lemma RerunFrom(c: Config, s: State, side: Side, p: PrepareRecord, pid: Pid,
                  desired: Bytes, supported: bool, freshId: Bytes, created: Store)
    returns (n: nat, t: State)
    requires c.Encodable() && Inv(c, s) && s.procs == map[] && FreshStore(created)
    requires s.At(side).prepare.visible == Some(p) && Resumable(s, p)
    ensures n <= 12 && Finished(t, pid, side, p) && Inv(c, t) && Interrupted(t, side, p)
    ensures Reaches(c, s, Rerun(pid, desired, supported, freshId, created, n), t)
  {
    var m := SeesBoth(c, s, pid);
    ReadyViewOf(c, m, side, p);
    n, t := SelectFrom(c, m, side, p, pid, desired, supported, freshId, created);
    RunRerun(c, s, m, t, pid, desired, supported, freshId, created, n);
  }

  lemma RunRerun(c: Config, s: State, m: State, t: State, pid: Pid, desired: Bytes, supported: bool, freshId: Bytes,
                 created: Store, n: nat)
    requires Reaches(c, s, [OpenSystem(pid)] + [OpenSelf(pid)], m)
    requires Reaches(c, m, [Select(pid, desired, supported, freshId)] + Works(pid, created, n), t)
    ensures Reaches(c, s, Rerun(pid, desired, supported, freshId, created, n), t)
  {
    var rest := [Select(pid, desired, supported, freshId)] + Works(pid, created, n);
    RunAppend(c, s, [OpenSystem(pid)] + [OpenSelf(pid)], m, rest, t);
    assert [OpenSystem(pid)] + [OpenSelf(pid)] + rest == Rerun(pid, desired, supported, freshId, created, n);
  }

  lemma SelectFrom(c: Config, s: State, side: Side, p: PrepareRecord, pid: Pid,
                   desired: Bytes, supported: bool, freshId: Bytes, created: Store)
    returns (n: nat, t: State)
    requires c.Encodable() && Inv(c, s) && FreshStore(created) && Interrupted(s, side, p)
    requires s.procs.Keys == {pid} && s.procs[pid].SawBoth?
    requires s.procs[pid].system.Present? == s.system.provisioned
    requires s.procs[pid].selfManaged.Present? == s.selfManaged.provisioned
    requires ReadyView(s, side, if side == System then s.procs[pid].system else s.procs[pid].selfManaged, p)
    ensures n <= 12 && Finished(t, pid, side, p) && Inv(c, t) && Interrupted(t, side, p)
    ensures Reaches(c, s, [Select(pid, desired, supported, freshId)] + Works(pid, created, n), t)
  {
    var select := Select(pid, desired, supported, freshId);
    assert ProcOk(c, s, s.procs[pid]);
    Selects(c, s, pid, side, p, desired, supported, freshId);
    StepInv(c, s, select);
    n, t := Drive(c, Apply(c, s, select), pid, side, p, created);
    RunStep(c, s, select, Works(pid, created, n), t);
  }
}
