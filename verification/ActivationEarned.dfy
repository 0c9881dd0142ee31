/** No process, in any interleaving, is ever handed a store that carries another activation's binding. */
module ActivationEarned {
  import opened Wrappers
  import opened RecordCodec
  import opened Activation
  import opened ActivationInvariant
  import opened ActivationSteps
  import opened ActivationJobs
  import opened ActivationTheorems

  // ----- what every step keeps -------------------------------------------------------------

  /** Durable prepare records stay, stores stay, and what a store came with stays. */
  predicate PreparesKept(s: State, t: State) {
    && (s.system.prepare.durable.Some? ==> t.system.prepare.durable == s.system.prepare.durable)
    && (s.selfManaged.prepare.durable.Some? ==> t.selfManaged.prepare.durable == s.selfManaged.prepare.durable)
    && forall q :: q in s.stores ==> q in t.stores && t.stores[q].inherited == s.stores[q].inherited
  }

  predicate PrepareSlotsOk(s: State) {
    s.system.prepare.Ok() && s.selfManaged.prepare.Ok()
  }

  lemma SyncKeeps(s: State, side: Side)
    requires PrepareSlotsOk(s)
    ensures PreparesKept(s, AnchorSynced(s, side))
  {
  }

  lemma PublishedKeeps(s: State, side: Side, e: AuthorityRecord, r: PrepareRecord)
    ensures PublishedClaim(s, side, e).Some? ==> PreparesKept(s, PublishedClaim(s, side, e).value)
    ensures PublishedPrepare(s, side, r).Some? ==> PreparesKept(s, PublishedPrepare(s, side, r).value)
    ensures PublishedActive(s, side, r).Some? ==> PreparesKept(s, PublishedActive(s, side, r).value)
  {
  }

  lemma ResolvedKeeps(c: Config, s: State, pid: Pid, job: Job, created: Store)
    requires job.goal.Activate?
    ensures PreparesKept(s, Resolved(c, s, pid, job, created))
  {
  }

  lemma BoundKeeps(s: State, pid: Pid, job: Job, r: PrepareRecord)
    ensures PreparesKept(s, Bound(s, pid, job, r))
  {
  }

  lemma ValidatedKeeps(c: Config, s: State, pid: Pid, job: Job, r: PrepareRecord)
    requires PrepareSlotsOk(s)
    ensures PreparesKept(s, Validated(c, s, pid, job, r))
  {
    SyncKeeps(s.StoreSynced(r.storeLocator), job.selected);
  }

  lemma WorkKeeps(c: Config, s: State, pid: Pid, created: Store)
    requires PrepareSlotsOk(s) && Enabled(s, Work(pid, created))
    ensures PreparesKept(s, Worked(c, s, pid, created))
  {
    var job := s.procs[pid].job;
    match s.procs[pid].pc
    case PublishWitness =>
    case SyncWitness => SyncKeeps(s, job.selected.Other());
    case PublishClaim =>
    case SyncClaim => SyncKeeps(s, job.selected);
    case ResolvePrepare => ResolvedKeeps(c, s, pid, job, created);
    case PublishPrepare(r) => PublishedKeeps(s, job.selected, job.claim, r);
    case SyncPrepare(_) => SyncKeeps(s, job.selected);
    case PublishBinding(r) => BoundKeeps(s, pid, job, r);
    case SyncBinding(_) =>
    case PublishActive(r) => PublishedKeeps(s, job.selected, job.claim, r);
    case SyncActive(_) => SyncKeeps(s, job.selected);
    case Validate(r) => ValidatedKeeps(c, s, pid, job, r);
  }

  lemma OpenedKeeps(c: Config, s: State, side: Side, pid: Pid)
    requires PrepareSlotsOk(s)
    ensures PreparesKept(s, Opened(c, s, side, pid))
  {
  }

  lemma StepKeeps(c: Config, s: State, step: Step)
    requires PrepareSlotsOk(s) && Enabled(s, step)
    ensures PreparesKept(s, Apply(c, s, step))
  {
    match step
    case Work(pid, created) => WorkKeeps(c, s, pid, created);
    case OpenSystem(pid) => OpenedKeeps(c, s, System, pid);
    case OpenSelf(pid) => OpenedKeeps(c, s, SelfManaged, pid);
    case InitOpen(pid) => OpenedKeeps(c, s, SelfManaged, pid);
    case _ =>
  }

  // ----- who may hold an activated store ----------------------------------------------------

  /** The anchor durably records a store that can be resumed for it. */
  predicate Vouched(s: State, side: Side) {
    s.At(side).prepare.durable.Some? && Resumable(s, s.At(side).prepare.durable.value)
  }

  predicate ClaimsActivated(p: Proc, side: Side) {
    match p
    case SawSystem(v) => side == System && v.Present? && v.kind.Activated?
    case SawBoth(v, w) => var view := if side == System then v else w; view.Present? && view.kind.Activated?
    case Working(job, _) => side == job.selected && job.goal.ClaimOnly? && job.goal.outcome.ActivatedStore?
    case Done(selected, _, outcome) => side == selected && outcome.ActivatedStore?
    case _ => false
  }

  predicate ProcVouched(s: State, p: Proc) {
    (ClaimsActivated(p, System) ==> Vouched(s, System)) && (ClaimsActivated(p, SelfManaged) ==> Vouched(s, SelfManaged))
  }

  predicate AllVouched(s: State) {
    forall pid :: pid in s.procs ==> ProcVouched(s, s.procs[pid])
  }

  lemma VouchedKept(s: State, t: State, p: Proc)
    requires PreparesKept(s, t) && ProcVouched(s, p)
    ensures ProcVouched(t, p)
  {
  }

  /** Everybody else keeps what they had; the acting process has to be looked at. */
  lemma OthersVouched(s: State, t: State, pid: Pid)
    requires PreparesKept(s, t) && AllVouched(s)
    requires forall q :: q in t.procs && q != pid ==> q in s.procs && t.procs[q] == s.procs[q]
    requires pid in t.procs ==> ProcVouched(t, t.procs[pid])
    ensures AllVouched(t)
  {
    forall q | q in t.procs
      ensures ProcVouched(t, t.procs[q])
    {
      if q != pid {
        VouchedKept(s, t, s.procs[q]);
      }
    }
  }

  lemma ViewVouched(c: Config, s: State, side: Side, pid: Pid)
    requires c.Valid() && DiskOk(c, s)
    ensures var t := Opened(c, s, side, pid);
            var v := ViewOf(c, t, side);
            v.Present? && v.kind.Activated? ==> Vouched(t, side)
  {
    OpenedDisk(c, s, side, pid);
    OpenedAnchors(c, s, side, pid);
    DiscoverVerdict(c, Opened(c, s, side, pid), side);
  }

  lemma OpenVouches(c: Config, s: State, side: Side, pid: Pid, p: Proc)
    requires c.Valid() && DiskOk(c, s) && AllVouched(s)
    requires var v := ViewOf(c, Opened(c, s, side, pid), side);
             if side == System then p == SawSystem(v)
             else pid in s.procs && s.procs[pid].SawSystem? && p == SawBoth(s.procs[pid].system, v)
    ensures AllVouched(Opened(c, s, side, pid).Now(pid, p))
  {
    var t := Opened(c, s, side, pid).Now(pid, p);
    OpenedKeeps(c, s, side, pid);
    OpenedAnchors(c, s, side, pid);
    ViewVouched(c, s, side, pid);
    if side == SelfManaged {
      assert ProcVouched(s, s.procs[pid]);
      VouchedKept(s, t, s.procs[pid]);
    }
    OthersVouched(s, t, pid);
  }

  lemma SelectVouches(c: Config, s: State, pid: Pid, desired: Bytes, supported: bool, freshId: Bytes)
    requires AllVouched(s) && pid in s.procs && s.procs[pid].SawBoth?
    ensures AllVouched(Selected(c, s, pid, desired, supported, freshId))
  {
    var t := Selected(c, s, pid, desired, supported, freshId);
    assert ProcVouched(s, s.procs[pid]);
    OthersVouched(s, t, pid);
  }

  /** Only validation turns an activation into a result, and it has looked at the store's binding. */
  lemma ValidationVouches(c: Config, s: State, pid: Pid, job: Job, r: PrepareRecord)
    requires DiskOk(c, s) && DurablePrepare(s, job.selected, r)
    ensures var t := Validated(c, s, pid, job, r);
            pid in t.procs ==> ProcVouched(t, t.procs[pid])
  {
    if r.storeLocator in s.stores {
      assert StoreOk(s, r.storeLocator);
    }
  }

  /** A work step moves its own process along its job, or ends it, and nobody else. */
  predicate Along(s: State, t: State, pid: Pid, job: Job) {
    && (forall q :: q in t.procs && q != pid ==> q in s.procs && t.procs[q] == s.procs[q])
    && (pid in t.procs ==>
          || (t.procs[pid].Working? && t.procs[pid].job == job)
          || (job.goal.ClaimOnly? && t.procs[pid] == Done(job.selected, job.peer, job.goal.outcome)))
  }

  lemma ResolvedAlong(c: Config, s: State, pid: Pid, job: Job, created: Store)
    requires job.goal.Activate?
    ensures Along(s, Resolved(c, s, pid, job, created), pid, job)
  {
  }

  lemma BoundAlong(s: State, pid: Pid, job: Job, r: PrepareRecord)
    ensures Along(s, Bound(s, pid, job, r), pid, job)
  {
  }

  lemma ContinueAlong(published: Option<State>, s: State, pid: Pid, job: Job, pc: Pc)
    requires published.Some? ==> published.value.procs == s.procs
    ensures Along(s, Continue(published, s, pid, job, pc), pid, job)
  {
  }

  lemma WorksAlong(c: Config, s: State, pid: Pid, created: Store)
    requires Enabled(s, Work(pid, created)) && !s.procs[pid].pc.Validate?
    ensures Along(s, Worked(c, s, pid, created), pid, s.procs[pid].job)
  {
    var job := s.procs[pid].job;
    match s.procs[pid].pc
    case PublishWitness => ContinueAlong(PublishedClaim(s, job.selected.Other(), job.claim), s, pid, job, SyncWitness);
    case PublishClaim => ContinueAlong(PublishedClaim(s, job.selected, job.claim), s, pid, job, SyncClaim);
    case PublishPrepare(r) => ContinueAlong(PublishedPrepare(s, job.selected, r), s, pid, job, SyncPrepare(r));
    case PublishActive(r) => ContinueAlong(PublishedActive(s, job.selected, r), s, pid, job, SyncActive(r));
    case ResolvePrepare => ResolvedAlong(c, s, pid, job, created);
    case PublishBinding(r) => BoundAlong(s, pid, job, r);
    case _ =>
  }

  lemma AlongVouches(s: State, t: State, pid: Pid)
    requires AllVouched(s) && PreparesKept(s, t) && pid in s.procs && s.procs[pid].Working?
    requires Along(s, t, pid, s.procs[pid].job)
    ensures AllVouched(t)
  {
    assert ProcVouched(s, s.procs[pid]);
    VouchedKept(s, t, s.procs[pid]);
    OthersVouched(s, t, pid);
  }

  lemma WorkVouches(c: Config, s: State, pid: Pid, created: Store)
    requires Inv(c, s) && AllVouched(s) && Enabled(s, Work(pid, created))
    ensures AllVouched(Worked(c, s, pid, created))
  {
    WorkKeeps(c, s, pid, created);
    if s.procs[pid].pc.Validate? {
      assert ProcOk(c, s, s.procs[pid]);
      ValidationVouches(c, s, pid, s.procs[pid].job, s.procs[pid].pc.r);
      OthersVouched(s, Worked(c, s, pid, created), pid);
    } else {
      WorksAlong(c, s, pid, created);
      AlongVouches(s, Worked(c, s, pid, created), pid);
    }
  }

  /** The environment moves no process. */
  lemma EnvironmentVouches(c: Config, s: State, step: Step)
    requires PrepareSlotsOk(s) && AllVouched(s) && (step.Provision? || step.LoseActive?)
    ensures AllVouched(Apply(c, s, step))
  {
    StepKeeps(c, s, step);
    OthersVouched(s, Apply(c, s, step), 0);
  }

  /** Initialization and failure make no claim to an activated store. */
  predicate Claimless(step: Step, pid: Pid) {
    match step
    case InitCheck(p) => p == pid
    case InitProvision(p) => p == pid
    case InitRecheck(p) => p == pid
    case InitOpen(p) => p == pid
    case InitClaim(p, _) => p == pid
    case Abort(p) => p == pid
    case _ => false
  }

  lemma ClaimlessVouches(c: Config, s: State, step: Step, pid: Pid)
    requires PrepareSlotsOk(s) && AllVouched(s) && Enabled(s, step) && Claimless(step, pid)
    ensures AllVouched(Apply(c, s, step))
  {
    StepKeeps(c, s, step);
    if step.InitOpen? {
      OpenedAnchors(c, s, SelfManaged, pid);
    }
    OthersVouched(s, Apply(c, s, step), pid);
  }

  lemma StepVouches(c: Config, s: State, step: Step)
    requires Inv(c, s) && AllVouched(s) && Enabled(s, step)
    ensures AllVouched(Apply(c, s, step))
  {
    match step
    case Work(pid, created) => WorkVouches(c, s, pid, created);
    case OpenSystem(pid) =>
      OpenVouches(c, s, System, pid, SawSystem(ViewOf(c, Opened(c, s, System, pid), System)));
    case OpenSelf(pid) =>
      OpenVouches(c, s, SelfManaged, pid,
                  SawBoth(s.procs[pid].system, ViewOf(c, Opened(c, s, SelfManaged, pid), SelfManaged)));
    case Select(pid, desired, supported, freshId) => SelectVouches(c, s, pid, desired, supported, freshId);
    case Provision(_) => EnvironmentVouches(c, s, step);
    case LoseActive(_) => EnvironmentVouches(c, s, step);
    case Crash(_, _, _) =>
    case InitCheck(pid) => ClaimlessVouches(c, s, step, pid);
    case InitProvision(pid) => ClaimlessVouches(c, s, step, pid);
    case InitRecheck(pid) => ClaimlessVouches(c, s, step, pid);
    case InitOpen(pid) => ClaimlessVouches(c, s, step, pid);
    case InitClaim(pid, _) => ClaimlessVouches(c, s, step, pid);
    case Abort(pid) => ClaimlessVouches(c, s, step, pid);
  }

  lemma {:induction false} RunVouches(c: Config, s: State, trace: seq<Step>, t: State)
    requires Inv(c, s) && AllVouched(s) && Reaches(c, s, trace, t)
    ensures AllVouched(t)
    decreases |trace|
  {
    if trace != [] {
      StepInv(c, s, trace[0]);
      StepVouches(c, s, trace[0]);
      RunVouches(c, Apply(c, s, trace[0]), trace[1..], t);
    }
  }

  /**
   In every interleaving, with every crash: whoever ends with an activated store ends with the
   one its root durably recorded, the record is one its reader accepts, and the store came
   without a binding or with this very one.
   */
  lemma ActivationIsEarned(c: Config, init: State, trace: seq<Step>, t: State, pid: Pid)
    requires c.Valid() && Init(init) && Reaches(c, init, trace, t)
    requires pid in t.procs && t.procs[pid].Done? && t.procs[pid].outcome.ActivatedStore?
    ensures var side, q := t.procs[pid].selected, t.procs[pid].outcome.store;
            && t.At(side).prepare.durable.Some?
            && var r := t.At(side).prepare.durable.value;
               && r.storeLocator == q && r.Authority() == c.At(side)
               && |r.authorityLocator| + |q| <= MAX_RECORD_BYTES - TWO_LOCATOR_OVERHEAD
               && q in t.stores && (t.stores[q].inherited == None || t.stores[q].inherited == Some(r))
  {
    InitInv(c, init);
    RunVouches(c, init, trace, t);
    RunInv(c, init, trace, t);
    assert ProcOk(c, t, t.procs[pid]) && ProcVouched(t, t.procs[pid]);
  }
}
