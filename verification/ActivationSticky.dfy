/**
 Sticky selection: what every process still running decides, holds and publishes once one
 authority claim is durable.
 */
module ActivationSticky {
  import opened Wrappers
  import opened RecordCodec
  import opened Activation
  import opened ActivationInvariant
  import opened ActivationSteps
  import opened ActivationJobs

  // ----- a durable claim is forever --------------------------------------------------------

  predicate ClaimsKept(s: State, t: State) {
    && (s.system.claim.durable.Some? ==> t.system.claim.durable == s.system.claim.durable)
    && (s.selfManaged.claim.durable.Some? ==> t.selfManaged.claim.durable == s.selfManaged.claim.durable)
    && (s.system.provisioned ==> t.system.provisioned)
    && (s.selfManaged.provisioned ==> t.selfManaged.provisioned)
  }

  predicate ClaimSlotsOk(s: State) {
    s.system.claim.Ok() && s.selfManaged.claim.Ok()
  }

  lemma EndedKeeps(s: State, pid: Pid)
    ensures ClaimsKept(s, s.Ended(pid))
  {
  }

  lemma SyncKeeps(s: State, side: Side)
    requires ClaimSlotsOk(s)
    ensures ClaimsKept(s, AnchorSynced(s, side))
  {
  }

  lemma PublishedClaimKeeps(s: State, side: Side, e: AuthorityRecord)
    requires ClaimSlotsOk(s)
    ensures PublishedClaim(s, side, e).Some? ==> ClaimsKept(s, PublishedClaim(s, side, e).value)
  {
  }

  lemma PublishedKeeps(s: State, side: Side, r: PrepareRecord)
    ensures PublishedPrepare(s, side, r).Some? ==> ClaimsKept(s, PublishedPrepare(s, side, r).value)
    ensures PublishedActive(s, side, r).Some? ==> ClaimsKept(s, PublishedActive(s, side, r).value)
  {
  }

  lemma ResolvedKeeps(c: Config, s: State, pid: Pid, job: Job, created: Store)
    requires job.goal.Activate?
    ensures ClaimsKept(s, Resolved(c, s, pid, job, created))
  {
  }

  lemma BoundKeeps(s: State, pid: Pid, job: Job, r: PrepareRecord)
    ensures ClaimsKept(s, Bound(s, pid, job, r))
  {
  }

  lemma ValidatedKeeps(c: Config, s: State, pid: Pid, job: Job, r: PrepareRecord)
    requires ClaimSlotsOk(s)
    ensures ClaimsKept(s, Validated(c, s, pid, job, r))
  {
    SyncKeeps(s.StoreSynced(r.storeLocator), job.selected);
  }

  lemma WorkKeepsClaims(c: Config, s: State, pid: Pid, created: Store)
    requires ClaimSlotsOk(s) && Enabled(s, Work(pid, created))
    ensures ClaimsKept(s, Worked(c, s, pid, created))
  {
    var job := s.procs[pid].job;
    EndedKeeps(s, pid);
    match s.procs[pid].pc
    case PublishWitness => PublishedClaimKeeps(s, job.selected.Other(), job.claim);
    case SyncWitness => SyncKeeps(s, job.selected.Other());
    case PublishClaim => PublishedClaimKeeps(s, job.selected, job.claim);
    case SyncClaim => SyncKeeps(s, job.selected);
    case ResolvePrepare => ResolvedKeeps(c, s, pid, job, created);
    case PublishPrepare(r) => PublishedKeeps(s, job.selected, r);
    case SyncPrepare(_) => SyncKeeps(s, job.selected);
    case PublishBinding(r) => BoundKeeps(s, pid, job, r);
    case SyncBinding(_) =>
    case PublishActive(r) => PublishedKeeps(s, job.selected, r);
    case SyncActive(_) => SyncKeeps(s, job.selected);
    case Validate(r) => ValidatedKeeps(c, s, pid, job, r);
  }

  lemma StepKeepsClaims(c: Config, s: State, step: Step)
    requires ClaimSlotsOk(s) && Enabled(s, step)
    ensures ClaimsKept(s, Apply(c, s, step))
  {
    match step
    case Work(pid, created) => WorkKeepsClaims(c, s, pid, created);
    case OpenSystem(pid) => OpenedAnchors(c, s, System, pid);
    case OpenSelf(pid) => OpenedAnchors(c, s, SelfManaged, pid);
    case InitOpen(pid) => OpenedAnchors(c, s, SelfManaged, pid);
    case _ =>
  }

  lemma {:induction false} RunKeeps(c: Config, s: State, trace: seq<Step>, t: State, side: Side)
    requires Inv(c, s) && Reaches(c, s, trace, t) && s.At(side).claim.durable.Some?
    ensures t.At(side).claim.durable == s.At(side).claim.durable
    decreases |trace|
  {
    if trace != [] {
      StepInv(c, s, trace[0]);
      StepKeepsClaims(c, s, trace[0]);
      RunKeeps(c, Apply(c, s, trace[0]), trace[1..], t, side);
    }
  }

  /** The only claim in view decides the choice. */
  lemma VisibleClaimDecides(c: Config, s: State, v: View, w: View, side: Side, k: AuthorityRecord)
    requires DiskOk(c, s) && ViewOk(s.system, v) && ViewOk(s.selfManaged, w)
    requires s.At(side).claim.visible == Some(k) && (if side == System then v else w).Present?
    ensures var choice := SelectPair(c, s, v, w);
            choice.Chosen? ==> choice.claim == Some(k) && Names(c, k, choice.side)
  {
  }

  /** The claim is durable somewhere; every job works for it and every finished process holds its root. */
  lemma StickyProcs(c: Config, t: State, side: Side, k: AuthorityRecord)
    requires Inv(c, t) && t.At(side).claim.durable == Some(k)
    ensures forall q :: q in t.procs && t.procs[q].Working? ==>
              t.procs[q].job.claim == k && Names(c, k, t.procs[q].job.selected)
    ensures forall q :: q in t.procs && t.procs[q].Done? ==> Names(c, k, t.procs[q].selected)
  {
    VisibleClaimFits(t, side, k);
    forall q | q in t.procs
      ensures t.procs[q].Working? ==> Names(c, k, t.procs[q].job.selected)
      ensures t.procs[q].Done? ==> Names(c, k, t.procs[q].selected)
    {
      assert ProcOk(c, t, t.procs[q]);
      assert t.procs[q].Done? && t.procs[q].selected == System && !t.procs[q].peer ==> BlindToSelf(t.procs[q]);
    }
  }

  /** The decision refuses, or publishes for `k` and the root it names. */
  predicate Decided(d: Verdict, c: Config, k: AuthorityRecord) {
    d.Stop? || (d.Start? && d.job.claim == k && Names(c, k, d.job.selected))
  }

  /** Whoever has seen both anchors, whenever it saw them, stops or starts publishing that claim. */
  lemma DecisionSticks(c: Config, t: State, pid: Pid, side: Side, k: AuthorityRecord,
                       desired: Bytes, supported: bool, freshId: Bytes)
    requires Inv(c, t) && t.At(side).claim.durable == Some(k)
    requires pid in t.procs && t.procs[pid].SawBoth?
    ensures Decided(Decide(c, t, t.procs[pid].system, t.procs[pid].selfManaged, desired, supported, freshId), c, k)
  {
    var v, w := t.procs[pid].system, t.procs[pid].selfManaged;
    var d := Decide(c, t, v, w, desired, supported, freshId);
    assert ProcOk(c, t, t.procs[pid]);
    VisibleClaimFits(t, side, k);
    if d.Start? && (v.Claim().Some? || w.Claim().Some?) {
      ClaimedJob(c, t, v, w, desired, supported, freshId, k);
    } else if d.Start? {
      UnclaimedChoice(c, t, v, w, desired, supported, freshId);
      NoOtherJobForSystem(c, t, pid);
    } else if d.Lease? {
      LeaseUnclaimed(c, t, v, w, desired, supported, freshId);
      NoOtherJobForSystem(c, t, pid);
    }
  }

  /**
   Once a claim is durable it stays, and for the rest of every run: each publication job
   works for it, each finished process holds the root it names whatever its outcome, and
   each decision, of any selector whenever it began, stops or picks that root.
   */
  lemma StickySelection(c: Config, init: State, before: seq<Step>, s: State, after: seq<Step>, t: State,
                        side: Side, k: AuthorityRecord)
    requires c.Valid() && Init(init) && Reaches(c, init, before, s) && Reaches(c, s, after, t)
    requires s.At(side).claim.durable == Some(k)
    ensures t.At(side).claim.durable == Some(k)
    ensures forall q :: q in t.procs && t.procs[q].Working? ==>
              t.procs[q].job.claim == k && Names(c, k, t.procs[q].job.selected)
    ensures forall q :: q in t.procs && t.procs[q].Done? ==> Names(c, k, t.procs[q].selected)
    ensures forall q, desired, supported, freshId :: q in t.procs && t.procs[q].SawBoth? ==>
              Decided(Decide(c, t, t.procs[q].system, t.procs[q].selfManaged, desired, supported, freshId), c, k)
  {
    InitInv(c, init);
    RunInv(c, init, before, s);
    RunInv(c, s, after, t);
    RunKeeps(c, s, after, t, side);
    StickyProcs(c, t, side, k);
    forall q, desired, supported, freshId | q in t.procs && t.procs[q].SawBoth?
      ensures Decided(Decide(c, t, t.procs[q].system, t.procs[q].selfManaged, desired, supported, freshId), c, k)
    {
      DecisionSticks(c, t, q, side, k, desired, supported, freshId);
    }
  }

  // ----- the bare choice, before the gate -----------------------------------------------------

  /** It saw a self-managed anchor without a claim, after finding no system anchor. */
  predicate Stale(v: View, w: View) {
    v.Absent? && w.Present? && w.claim.None?
  }

  /**
   The bare choice, made before the gate, picks another root than the durable claim names
   exactly for a stale selector; the gate then stops that selector.
   */
  lemma StaleChoice(c: Config, init: State, trace: seq<Step>, t: State, side: Side, k: AuthorityRecord, pid: Pid,
                    desired: Bytes, supported: bool, freshId: Bytes)
    requires c.Valid() && Init(init) && Reaches(c, init, trace, t)
    requires t.At(side).claim.durable == Some(k) && pid in t.procs && t.procs[pid].SawBoth?
    ensures var v, w := t.procs[pid].system, t.procs[pid].selfManaged;
            var choice := SelectPair(c, t, v, w);
            && (choice.Chosen? && !Names(c, k, choice.side) <==> Stale(v, w))
            && (choice.Chosen? && choice.claim != Some(k) <==> Stale(v, w))
            && (Stale(v, w) ==> choice == Chosen(SelfManaged, None)
                                && Decide(c, t, v, w, desired, supported, freshId) == Stop)
  {
    InitInv(c, init);
    RunInv(c, init, trace, t);
    var v, w := t.procs[pid].system, t.procs[pid].selfManaged;
    assert ProcOk(c, t, t.procs[pid]);
    VisibleClaimFits(t, side, k);
    if v.Claim().Some? {
      VisibleClaimDecides(c, t, v, w, System, k);
    } else if w.Claim().Some? {
      VisibleClaimDecides(c, t, v, w, SelfManaged, k);
    } else if v.Present? {
      NoOtherJobForSystem(c, t, pid);
    }
  }

  // ----- a stale selector exists ----------------------------------------------------------------

  lemma SmallLocator(letter: byte)
    requires letter == 0x61 || letter == 0x62
    ensures PutPath([SLASH, letter]).Some?
  {
    SlashFreeComponents([letter]);
    assert [SLASH, letter][1..] == [letter];
    assert Components([SLASH, letter]) == [[], [letter]];
    assert IsNormal(Components([SLASH, letter])[1]);
  }

  const NO_ANCHOR_YET := State(EMPTY_ANCHOR, EMPTY_ANCHOR, map[], map[])

  /** What both processes know of an anchor they open here: no claim, no activation. */
  const BARE: View := Present(None, NeverActivated)

  /** The system anchor is provisioned after process 1 looked, and process 2 opens both. */
  lemma SystemAppears(c: Config) returns (t: State)
    ensures Reaches(c, NO_ANCHOR_YET, [OpenSystem(1), Provision(System), OpenSystem(2), OpenSelf(2)], t)
    ensures t == State(EMPTY_ANCHOR.(provisioned := true, lock := Some(2)), EMPTY_ANCHOR, map[],
                       map[1 := SawSystem(Absent), 2 := SawBoth(BARE, Absent)])
  {
    var s1 := Apply(c, NO_ANCHOR_YET, OpenSystem(1));
    assert s1 == NO_ANCHOR_YET.(procs := map[1 := SawSystem(Absent)]);
    var s2 := Apply(c, s1, Provision(System));
    var s3 := Apply(c, s2, OpenSystem(2));
    assert s3.procs == map[1 := SawSystem(Absent), 2 := SawSystem(BARE)];
    t := Apply(c, s3, OpenSelf(2));
    assert t.procs == map[1 := SawSystem(Absent), 2 := SawBoth(BARE, Absent)];
    RunStep(c, s3, OpenSelf(2), [], t);
    RunStep(c, s2, OpenSystem(2), [OpenSelf(2)] + [], t);
    RunStep(c, s1, Provision(System), [OpenSystem(2)] + ([OpenSelf(2)] + []), t);
    RunStep(c, NO_ANCHOR_YET, OpenSystem(1), [Provision(System)] + ([OpenSystem(2)] + ([OpenSelf(2)] + [])), t);
    assert [OpenSystem(1)] + ([Provision(System)] + ([OpenSystem(2)] + ([OpenSelf(2)] + [])))
        == [OpenSystem(1), Provision(System), OpenSystem(2), OpenSelf(2)];
  }

  /** Process 2 claims the system anchor, durably. */
  lemma SystemClaimed(c: Config, s: State, k: AuthorityRecord, created: Store) returns (t: State)
    requires s == State(EMPTY_ANCHOR.(provisioned := true, lock := Some(2)), EMPTY_ANCHOR, map[],
                        map[1 := SawSystem(Absent), 2 := SawBoth(BARE, Absent)])
    requires Names(c, k, System) && EncodeAuthority(k).Some? && FreshStore(created)
    ensures Reaches(c, s, [Select(2, [], true, k.selectionId), Work(2, created), Work(2, created)], t)
    ensures t.system.claim == Slot(Some(k), Some(k)) && t.selfManaged == EMPTY_ANCHOR
    ensures 1 in t.procs && t.procs[1] == SawSystem(Absent)
  {
    var select, work := Select(2, [], true, k.selectionId), Work(2, created);
    var job := Job(System, false, k, Activate([]), false);
    assert Decide(c, s, BARE, Absent, [], true, k.selectionId) == Start(job);
    var s1 := Apply(c, s, select);
    assert s1 == s.Now(2, Working(job, PublishClaim));
    var s2 := Apply(c, s1, work);
    assert s2.procs == map[1 := SawSystem(Absent), 2 := Working(job, SyncClaim)];
    t := Apply(c, s2, work);
    assert t.procs == map[1 := SawSystem(Absent), 2 := Working(job, ResolvePrepare)];
    RunStep(c, s2, work, [], t);
    RunStep(c, s1, work, [work] + [], t);
    RunStep(c, s, select, [work] + ([work] + []), t);
    assert [select] + ([work] + ([work] + [])) == [select, work, work];
  }

  /** The self-managed anchor is provisioned, and process 1 opens it. */
  lemma SelfAppears(c: Config, s: State) returns (t: State)
    requires s.selfManaged == EMPTY_ANCHOR && 1 in s.procs && s.procs[1] == SawSystem(Absent)
    ensures Reaches(c, s, [Provision(SelfManaged), OpenSelf(1)], t)
    ensures t.system == s.system && 1 in t.procs && t.procs[1] == SawBoth(Absent, BARE)
  {
    var s1 := Apply(c, s, Provision(SelfManaged));
    t := Apply(c, s1, OpenSelf(1));
    RunStep(c, s1, OpenSelf(1), [], t);
    RunStep(c, s, Provision(SelfManaged), [OpenSelf(1)] + [], t);
    assert [Provision(SelfManaged)] + ([OpenSelf(1)] + []) == [Provision(SelfManaged), OpenSelf(1)];
  }

  /**
   A stale selector exists: process 1 finds no system anchor; the anchor is provisioned and
   process 2 claims it durably; the self-managed anchor is provisioned and process 1 goes on.
   */
  lemma StaleSelectorExists() returns (c: Config, trace: seq<Step>, t: State, k: AuthorityRecord)
    ensures c.Valid() && Init(NO_ANCHOR_YET) && Reaches(c, NO_ANCHOR_YET, trace, t) && |trace| == 9
    ensures k.Valid() && t.system.claim.durable == Some(k) && Names(c, k, System)
    ensures 1 in t.procs && t.procs[1].SawBoth?
    ensures SelectPair(c, t, t.procs[1].system, t.procs[1].selfManaged) == Chosen(SelfManaged, None)
  {
    var id := Identity(0, 0, 0, 0);
    c := Config(Place([SLASH, 0x61], id, Ext4), Place([SLASH, 0x62], id, Ext4));
    assert c.system.locator[1] != c.selfManaged.locator[1];
    SmallLocator(0x61);
    k := AuthorityRecord(Repeat(0, ACTIVATION_ID_LEN), c.system.locator, id, Ext4);
    var created := Store(id, Ext4, None, Slot(None, None));
    var select, work := Select(2, [], true, k.selectionId), Work(2, created);
    var seen := SystemAppears(c);
    var claimed := SystemClaimed(c, seen, k, created);
    t := SelfAppears(c, claimed);
    var opens := [OpenSystem(1), Provision(System), OpenSystem(2), OpenSelf(2)];
    RunAppend(c, NO_ANCHOR_YET, opens, seen, [select, work, work], claimed);
    trace := opens + [select, work, work] + [Provision(SelfManaged), OpenSelf(1)];
    RunAppend(c, NO_ANCHOR_YET, opens + [select, work, work], claimed, [Provision(SelfManaged), OpenSelf(1)], t);
  }
}
